/**
 * Every request for a protocol is shaken, and once: over an open connection at once as it is started, and over its
 * own connection as that one opens.
 */
module Shakes {
  import opened Basics
  import opened Fsm
  import opened Connection
  import opened Scheduler
  import opened Turns
  import opened Slots
  import opened SafeTurns
  import opened Runs
  import opened Progress
  import Shutdown

  // ---------------------------------------------------------------- counting

  predicate IsShake(e: Entry, c: nat, req: Request) { e.Shaken? && e.conn == c && e.req == req }
  predicate IsStart(e: Entry, c: nat, req: Request) { e.Started? && e.conn == c && e.req == req }

  /** How often the request was shaken over the connection. */
  function CountShakes(log: seq<Entry>, c: nat, req: Request): nat {
    if log == [] then 0
    else CountShakes(log[..|log| - 1], c, req) + if IsShake(log[|log| - 1], c, req) then 1 else 0
  }

  /** How often the request was started over the connection, or for it. */
  function CountStarts(log: seq<Entry>, c: nat, req: Request): nat {
    if log == [] then 0
    else CountStarts(log[..|log| - 1], c, req) + if IsStart(log[|log| - 1], c, req) then 1 else 0
  }

  lemma CountOne(log: seq<Entry>, e: Entry, c: nat, req: Request)
    ensures CountShakes(log + [e], c, req) == CountShakes(log, c, req) + if IsShake(e, c, req) then 1 else 0
    ensures CountStarts(log + [e], c, req) == CountStarts(log, c, req) + if IsStart(e, c, req) then 1 else 0
  {
    assert (log + [e])[..|log|] == log;
  }

  lemma {:induction false} CountNone(log: seq<Entry>, c: nat, req: Request)
    requires forall i :: 0 <= i < |log| ==> !IsShake(log[i], c, req) && !IsStart(log[i], c, req)
    ensures CountShakes(log, c, req) == 0 == CountStarts(log, c, req)
  {
    if log != [] { CountNone(log[..|log| - 1], c, req); }
  }

  lemma {:induction false} CountSame(log: seq<Entry>, more: seq<Entry>, c: nat, req: Request)
    requires forall i :: 0 <= i < |more| ==> !IsShake(more[i], c, req) && !IsStart(more[i], c, req)
    ensures CountShakes(log + more, c, req) == CountShakes(log, c, req)
    ensures CountStarts(log + more, c, req) == CountStarts(log, c, req)
  {
    if more == [] {
      assert log + more == log;
    } else {
      var n := |more| - 1;
      CountSame(log, more[..n], c, req);
      assert log + more == log + more[..n] + [more[n]];
      CountOne(log + more[..n], more[n], c, req);
    }
  }

  // ---------------------------------------------------------------- the tally

  /** The connection has been muxed or connected. */
  predicate HasOpened(k: Conn) { Muxed in k.trail || Connected in k.trail }

  /** What is noted names connections that exist; a handshake is for a protocol, in a state its connection was in. */
  ghost predicate Named(w: World) {
    forall i :: 0 <= i < |w.log| ==>
      && (w.log[i].Started? ==> w.log[i].conn < |w.conns|)
      && (w.log[i].Shaken? ==>
            && w.log[i].conn < |w.conns| && w.log[i].req.protocol.Some?
            && (w.log[i].state == Muxed || w.log[i].state == Connected)
            && w.log[i].state in w.conns[w.log[i].conn].trail)
  }

  /**
   * Every start has its handshake, but that of the connection's own request, which has it
   * once the connection opens.
   */
  ghost predicate TallyOf(w: World, c: nat, req: Request)
    requires c < |w.conns|
  {
    CountShakes(w.log, c, req) + (if w.conns[c].dial == Some(req) then 1 else 0) ==
    CountStarts(w.log, c, req) + (if w.conns[c].dial == Some(req) && HasOpened(w.conns[c]) then 1 else 0)
  }

  /** A start over an open connection is followed by its handshake; else it is the one that made the connection. */
  ghost predicate PromptAt(w: World, i: nat)
    requires i < |w.log|
  {
    w.log[i].Started? && w.log[i].req.protocol.Some? ==>
      || (i + 1 < |w.log| && w.log[i + 1] == Shaken(w.log[i].conn, w.log[i].req, Muxed))
      || (w.log[i].conn < |w.conns| && w.conns[w.log[i].conn].dial == Some(w.log[i].req)
          && forall j :: 0 <= j < i && w.log[j].Started? ==> w.log[j].conn != w.log[i].conn)
  }

  ghost predicate Prompt(w: World) {
    forall i: nat :: i < |w.log| ==> PromptAt(w, i)
  }

  /** The log has grown, and each new start is prompt. */
  lemma StaysPrompt(w: World, r: World)
    requires Prompt(w) && w.log <= r.log && |w.conns| <= |r.conns|
    requires forall c :: 0 <= c < |w.conns| ==> r.conns[c].dial == w.conns[c].dial
    requires forall i: nat :: |w.log| <= i < |r.log| ==> PromptAt(r, i)
    ensures Prompt(r)
  {
    forall i: nat | i < |r.log| ensures PromptAt(r, i) {
      if i < |w.log| {
        assert PromptAt(w, i) && r.log[i] == w.log[i];
        if i + 1 < |w.log| { assert r.log[i + 1] == w.log[i + 1]; }
        assert forall j :: 0 <= j < i ==> r.log[j] == w.log[j];
      }
    }
  }

  ghost predicate Tally(w: World) {
    Named(w) && Prompt(w) && forall c: nat, req: Request :: c < |w.conns| && req.protocol.Some? ==> TallyOf(w, c, req)
  }

  /** Nothing is started or shaken, and no connection is made or opens. */
  ghost predicate Silent(w: World, r: World) {
    && |r.conns| == |w.conns| && w.log <= r.log
    && (forall i :: |w.log| <= i < |r.log| ==> !r.log[i].Started? && !r.log[i].Shaken?)
    && (forall c :: 0 <= c < |w.conns| ==>
          r.conns[c].dial == w.conns[c].dial && HasOpened(r.conns[c]) == HasOpened(w.conns[c])
          && w.conns[c].trail <= r.conns[c].trail)
  }

  lemma SilentNamed(w: World, r: World)
    requires Named(w) && Silent(w, r)
    ensures Named(r)
  {
    forall i | 0 <= i < |r.log|
      ensures r.log[i].Started? ==> r.log[i].conn < |r.conns|
      ensures r.log[i].Shaken? ==>
                && r.log[i].conn < |r.conns| && r.log[i].req.protocol.Some?
                && (r.log[i].state == Muxed || r.log[i].state == Connected)
                && r.log[i].state in r.conns[r.log[i].conn].trail
    {
      if i < |w.log| { assert r.log[i] == w.log[i]; }
    }
  }

  lemma SilentTally(w: World, r: World)
    requires Tally(w) && Silent(w, r)
    ensures Tally(r)
  {
    SilentNamed(w, r);
    StaysPrompt(w, r);
    var more := r.log[|w.log|..];
    assert r.log == w.log + more;
    forall c: nat, req: Request | c < |r.conns| && req.protocol.Some? ensures TallyOf(r, c, req) {
      assert TallyOf(w, c, req);
      CountSame(w.log, more, c, req);
    }
  }

  // ---------------------------------------------------------------- one call

  /** A request that goes over an open connection is started and shaken. */
  lemma ReuseTally(w: World, id: PeerId, req: Request, k: nat)
    requires Tally(w) && k < |w.conns| && w.conns[k].state == Muxed && Muxed in w.conns[k].trail
    ensures Tally(w.(log := w.log + [Started(id, req, k)] + Shake(k, req, Muxed)))
  {
    var e := Started(id, req, k);
    var r := w.(log := w.log + [e] + Shake(k, req, Muxed));
    StaysPrompt(w, r);
    forall c: nat, q: Request | c < |r.conns| && q.protocol.Some? ensures TallyOf(r, c, q) {
      assert TallyOf(w, c, q);
      CountOne(w.log, e, c, q);
      if req.protocol.Some? {
        CountOne(w.log + [e], Shaken(k, req, Muxed), c, q);
      } else {
        assert r.log == w.log + [e];
      }
    }
  }

  /** A request for which a connection is made is started. */
  lemma MadeTally(w: World, id: PeerId, q: nat, req: Request)
    requires Tally(w)
    ensures Tally(w.(conns := w.conns + [Dialled(id, q, req)], log := w.log + [Started(id, req, |w.conns|)]))
  {
    var e := Started(id, req, |w.conns|);
    var r := w.(conns := w.conns + [Dialled(id, q, req)], log := w.log + [e]);
    StaysPrompt(w, r);
    forall c: nat, p: Request | c < |r.conns| && p.protocol.Some? ensures TallyOf(r, c, p) {
      CountOne(w.log, e, c, p);
      if c < |w.conns| { assert TallyOf(w, c, p); } else { CountNone(w.log, c, p); }
    }
  }

  /** A state of a trail is one of every longer trail. */
  lemma InLonger(t: seq<State>, u: seq<State>, s: State)
    requires t <= u && s in t
    ensures s in u
  {
    var i :| 0 <= i < |t| && t[i] == s;
    assert u[i] == s;
  }

  /** The connection opens, and its own request is shaken if it names a protocol. */
  ghost predicate OpensOnce(w: World, r: World, c: nat, s: State) {
    && c < |w.conns| == |r.conns| && (forall k :: 0 <= k < |w.conns| && k != c ==> r.conns[k] == w.conns[k])
    && w.conns[c].dial.Some? && r.conns[c].dial == w.conns[c].dial && w.conns[c].trail <= r.conns[c].trail
    && !HasOpened(w.conns[c]) && (s == Muxed || s == Connected) && s in r.conns[c].trail
    && r.log == (if w.conns[c].dial.value.protocol.Some? then w.log + [Shaken(c, w.conns[c].dial.value, s)] else w.log)
  }

  lemma OpenNamed(w: World, r: World, c: nat, s: State)
    requires Named(w) && OpensOnce(w, r, c, s)
    ensures Named(r)
  {
    forall i | 0 <= i < |r.log|
      ensures r.log[i].Started? ==> r.log[i].conn < |r.conns|
      ensures r.log[i].Shaken? ==>
                && r.log[i].conn < |r.conns| && r.log[i].req.protocol.Some?
                && (r.log[i].state == Muxed || r.log[i].state == Connected)
                && r.log[i].state in r.conns[r.log[i].conn].trail
    {
      if i < |w.log| {
        assert r.log[i] == w.log[i];
        if r.log[i].Shaken? && r.log[i].conn == c { InLonger(w.conns[c].trail, r.conns[c].trail, r.log[i].state); }
      }
    }
  }

  lemma OpenTallyOf(w: World, r: World, c: nat, s: State, k: nat, p: Request)
    requires OpensOnce(w, r, c, s) && k < |w.conns| && TallyOf(w, k, p) && p.protocol.Some?
    ensures TallyOf(r, k, p)
  {
    var req := w.conns[c].dial.value;
    assert HasOpened(r.conns[c]);
    if req.protocol.Some? { CountOne(w.log, Shaken(c, req, s), k, p); }
  }

  lemma OpenTally(w: World, r: World, c: nat, s: State)
    requires Tally(w) && OpensOnce(w, r, c, s)
    ensures Tally(r)
  {
    OpenNamed(w, r, c, s);
    StaysPrompt(w, r);
    forall k: nat, p: Request | k < |r.conns| && p.protocol.Some? ensures TallyOf(r, k, p) {
      OpenTallyOf(w, r, c, s, k, p);
    }
  }

  lemma NextTally(w: World, q: nat, env: Env)
    requires Ready(w, TNext(q)) && Tally(w)
    ensures Tally(NextDial(w, q, env).0)
  {
    var d := w.queues[q];
    if d.pending != [] && d.running {
      match FirstMuxed(w.tracked, w.conns, d.id)
      case Some(k) =>
        assert ConnOk(w.conns[k]);
        ReuseTally(w, d.id, d.pending[0], k);
        SameTally(w.(log := w.log + [Started(d.id, d.pending[0], k)] + Shake(k, d.pending[0], Muxed)),
                  NextDial(w, q, env).0);
      case None =>
        MadeTally(w, d.id, q, d.pending[0]);
        SameTally(w.(conns := w.conns + [Dialled(d.id, q, d.pending[0])],
                     log := w.log + [Started(d.id, d.pending[0], |w.conns|)]), NextDial(w, q, env).0);
    }
  }

  lemma SameTally(w: World, r: World)
    requires Tally(w) && r.conns == w.conns && r.log == w.log
    ensures Tally(r)
  {
    StaysPrompt(w, r);
    forall c: nat, p: Request | c < |r.conns| && p.protocol.Some? ensures TallyOf(r, c, p) { assert TallyOf(w, c, p); }
  }

  /** A longer trail that adds no open state. */
  lemma AddsNone(t: seq<State>, more: seq<State>)
    requires Muxed !in more && Connected !in more
    ensures (Muxed in t + more <==> Muxed in t) && (Connected in t + more <==> Connected in t)
  {
  }

  /** Closing adds no open state to the trail. */
  lemma ClosingTrail(k: Conn, setup: Setup) returns (d: Conn)
    requires AtRest(k.state) && k.state != Disconnecting
    ensures Fire(k, Disconnect, setup) == Some(d) && d.dial == k.dial && k.trail <= d.trail
    ensures HasOpened(d) == HasOpened(k)
  {
    FireDisconnect(k, setup);
    d := Fire(k, Disconnect, setup).value;
    AddsNone(k.trail, [Disconnected]);
    AddsNone(k.trail, [Disconnecting]);
    AddsNone(k.trail, [Disconnecting, Disconnected]);
    assert k.trail + [Disconnecting] + [Disconnected] == k.trail + [Disconnecting, Disconnected];
  }

  lemma CloseTally(w: World, c: nat, o: Option<Op>, env: Env)
    requires Ready(w, TClose(c, o)) && Tally(w)
    ensures Tally(CloseConn(w, c, o, env).0)
  {
    assert ConnOk(w.conns[c]);
    var d := ClosingTrail(Without(w.conns[c], o), env.setup);
    SilentTally(w, CloseConn(w, c, o, env).0);
  }

  lemma MicroTally(w: World, t: Task, env: Env)
    requires Ready(w, t) && !t.TFail? && Tally(w)
    ensures Tally(Micro(w, t, env).0)
  {
    if t.TNext? {
      NextTally(w, t.q, env);
    } else if t.TClose? {
      CloseTally(w, t.c, t.op, env);
    } else {
      MicroSilent(w, t, env);
      SilentTally(w, Micro(w, t, env).0);
    }
  }

  lemma MicroSilent(w: World, t: Task, env: Env)
    requires Wf(w) && TaskOk(w, t) && !t.TFail? && !t.TNext? && !t.TClose?
    ensures Silent(w, Micro(w, t, env).0)
  {
    if t.TError? { ErrorSilent(w, t.c, env); }
  }

  lemma ErrorSilent(w: World, c: nat, env: Env)
    requires Wf(w) && c < |w.conns|
    ensures Silent(w, ReportError(w, c, env).0)
  {
    assert OwnerOk(w, c);
  }

  lemma {:induction false} ExecTally(w: World, t: Task, env: Env)
    requires Ready(w, t) && Tally(w)
    ensures Tally(Exec(w, t, env))
    decreases Backlog(w), Focus(w, t), Phase(t)
  {
    if t.TFail? {
      ExecTally(w, TError(t.c), env);
      ExecKeeps(w, TError(t.c), env);
      ExecFrames(w, TError(t.c), env, t.c);
      var r := UnfoldFail(w, t.c, t.op, env);
      ExecTally(r, TClose(t.c, t.op), env);
    } else {
      MicroKeeps(w, t, env);
      MicroTally(w, t, env);
      var w1, next := Unfold(w, t, env);
      if next.Some? { ExecTally(w1, next.value, env); }
    }
  }

  // ---------------------------------------------------------------- turns

  /** A dial in flight, or on its way between two states in flight, has not opened. */
  lemma {:induction false} NotOpenYet(t: seq<State>)
    requires Lifecycle(t) && |t| > 1
    requires t[|t| - 1] != Muxed && t[|t| - 1] != Connected && t[|t| - 1] != Disconnecting && t[|t| - 1] != Disconnected
    ensures Muxed !in t && Connected !in t
  {
    if |t| > 2 {
      var n := |t| - 1;
      assert Follows(n, t[n - 1], t[n]);
      NotOpenYet(t[..n]);
      assert t == t[..n] + [t[n]];
    }
  }

  lemma InFlightUnopened(k: Conn)
    requires ConnOk(k) && InFlight(k.state)
    ensures !HasOpened(k)
  {
    LastStageIf(k);
    NotOpenYet(k.trail);
  }

  /** The listeners of a new state: a connection that opens is greeted once, and any other is silent. */
  lemma AnnouncedTally(w: World, c: nat, d: Conn)
    requires Safe(w, None) && Tally(w) && c < |w.conns| && Further(w.conns[c], d) && ConnOk(Disarm(d))
    requires if d.state == Muxed || d.state == Connected then InFlight(w.conns[c].state)
             else HasOpened(d) == HasOpened(w.conns[c])
    ensures Tally(Announced(w, c, d))
  {
    assert ConnOk(w.conns[c]) && OwnerOk(w, c);
    if d.state == Muxed || d.state == Connected {
      InFlightUnopened(w.conns[c]);
      AnnouncedOpens(w, c, d);
      OpenTally(w, Announced(w, c, d), c, d.state);
    } else {
      assert Announced(w, c, d) == Store(w, c, d);
      SilentTally(w, Announced(w, c, d));
    }
  }

  lemma AnnouncedOpens(w: World, c: nat, d: Conn)
    requires Wf(w) && c < |w.conns| && Further(w.conns[c], d) && !HasOpened(w.conns[c])
    requires (d.state == Muxed || d.state == Connected) && d.owner.Some? && d.dial.Some? && d.state in d.trail
    ensures OpensOnce(w, Announced(w, c, d), c, d.state)
  {
    StoreWf(w, c, d);
    var w1 := Store(w, c, d);
    var w2 := if d.state == Muxed then ClearDenylist(w1, d.peer) else w1;
    assert w2.log == w.log && w2.conns == w.conns[c := Disarm(d)];
    assert OwnerOk(w2, c);
    assert Announced(w, c, d) == Greet(w2, c);
  }

  lemma AdvanceTally(w: World, c: nat, d: Conn, env: Env)
    requires Safe(w, None) && Tally(w) && c < |w.conns| && Further(w.conns[c], d) && ConnOk(Disarm(d))
    requires w.conns[c].state == Disconnected ==> d.state == Disconnected
    requires if d.state == Muxed || d.state == Connected then InFlight(w.conns[c].state)
             else HasOpened(d) == HasOpened(w.conns[c])
    ensures Tally(Advance(w, c, d, env))
  {
    var m := AdvanceParts(w, c, d, env);
    AnnouncedTally(w, c, d);
    if Wakes(d).Some? { ExecTally(m, Wakes(d).value, env); }
  }

  lemma StepTally(w: World, c: nat, o: Op, ok: bool, env: Env)
    requires Safe(w, None) && Tally(w) && c < |w.conns| && o in w.conns[c].ops && w.conns[c].state != Disconnected
    requires (ok && (o == DialOp || o == ProtectOp || o == CryptoOp || o == MuxOp)) || (o == MuxOp && !ok)
    ensures Tally(Complete(w, c, o, ok, env))
  {
    assert ConnOk(w.conns[c]);
    var d, s := FireGoes(w.conns[c], o, ok, env.setup);
    InFlightUnopened(w.conns[c]);
    if InFlight(s) { InFlightUnopened(Disarm(d)); }
    AdvanceTally(w, c, d, env);
  }

  lemma LateTally(w: World, c: nat, o: Op, ok: bool, env: Env)
    requires Safe(w, None) && Tally(w) && c < |w.conns| && o in w.conns[c].ops && w.conns[c].state == Disconnected
    requires (ok && (o == DialOp || o == ProtectOp || o == CryptoOp || o == MuxOp)) || (o == MuxOp && !ok)
    ensures Tally(Complete(w, c, o, ok, env))
  {
    assert ConnOk(w.conns[c]);
    if ok {
      var d := LateFires(w.conns[c], o, env.setup);
      AddsNone(w.conns[c].trail, [Disconnected]);
      AdvanceTally(w, c, d, env);
    } else {
      UpgradeStopped(w.conns[c], env.setup);
      SetConnWf(w, c, Without(w.conns[c], Some(MuxOp)));
      var r := w.(conns := w.conns[c := Without(w.conns[c], Some(MuxOp))]);
      NoReport(r, c, env);
      SilentTally(w, r);
    }
  }

  lemma EndTally(w: World, c: nat, ok: bool, env: Env)
    requires Safe(w, None) && Tally(w) && c < |w.conns| && EndOp in w.conns[c].ops
    ensures Tally(Complete(w, c, EndOp, ok, env))
  {
    assert ConnOk(w.conns[c]);
    EndDone(w.conns[c], env.setup);
    AddsNone(w.conns[c].trail, [Disconnected]);
    AdvanceTally(w, c, Fire(Delivered(w.conns[c], EndOp, env.setup), Done, env.setup).value, env);
  }

  lemma CloseWithTally(w: World, c: nat, err: bool, o: Option<Op>, env: Env)
    requires Safe(w, None) && Tally(w) && c < |w.conns| && (o.Some? ==> o.value != EndOp)
    ensures Tally(CloseWith(w, c, err, o, env))
  {
    if w.conns[c].state == Disconnecting {
      SilentTally(w, CloseWith(w, c, err, o, env));
    } else {
      ExecTally(w, if err then TFail(c, o) else TClose(c, o), env);
    }
  }

  lemma CompleteTally(w: World, c: nat, o: Op, ok: bool, env: Env)
    requires Safe(w, None) && Tally(w) && c < |w.conns| && o in w.conns[c].ops
    ensures Tally(Complete(w, c, o, ok, env))
  {
    if o == EndOp {
      EndTally(w, c, ok, env);
    } else if o == IdentifyOp && ok {
      SilentTally(w, Complete(w, c, o, ok, env));
    } else if o == MuxerCloseOp || o == IdentifyOp || (!ok && o != MuxOp) {
      CloseWithTally(w, c, o != MuxerCloseOp, Some(o), env);
    } else if w.conns[c].state == Disconnected {
      LateTally(w, c, o, ok, env);
    } else {
      StepTally(w, c, o, ok, env);
    }
  }

  lemma AddTally(w: World, id: PeerId, req: Request, priority: int, connected: bool, t1: int, t2: int, env: Env)
    requires Safe(w, None) && Tally(w) && t1 <= t2
    ensures Tally(Add(w, id, req, priority, connected, t1, t2, env))
  {
    var m, t := AddParts(w, id, req, priority, connected, t1, t2, env);
    ReplySilent(w, m);
    SilentTally(w, m);
    if t.Some? { ThenTally(m, t.value, env); }
  }

  lemma ReplySilent(w: World, m: World)
    requires Placed(w, m) && w.log <= m.log && |m.log| == |w.log| + 1
    requires m.log[|w.log|].Accepted? || m.log[|w.log|].Refused?
    ensures Silent(w, m)
  {
  }

  lemma ThenTally(m: World, t: Task, env: Env)
    requires Ready(m, t) && Tally(m)
    ensures Tally(Exec(m, t, env))
  {
    ExecTally(m, t, env);
  }

  lemma {:induction false} CleanTally(w: World, order: seq<PeerId>, connected: PeerId -> bool, env: Env)
    requires Safe(w, None) && Tally(w)
    ensures Tally(Clean(w, order, connected, env))
    decreases |order|
  {
    if order != [] {
      var x := order[0];
      if x in w.table && Stale(w.queues[w.table[x]], connected(x)) {
        ExecTally(w, TAbort(w.table[x]), env);
        DiscardKeeps(w, x, env);
        SameTally(Exec(w, TAbort(w.table[x]), env), Discard(w, x, env));
        CleanTally(Discard(w, x, env), order[1..], connected, env);
      } else {
        CleanTally(w, order[1..], connected, env);
      }
    }
  }

  lemma {:induction false} OnlyAborts(w: World, order: seq<PeerId>)
    requires Wf(w) && forall i :: 0 <= i < |order| ==> order[i] in w.table
    ensures forall i :: 0 <= i < |Shutdown.AllAborted(w, order)| ==> Shutdown.AllAborted(w, order)[i].AbortedDial?
  {
    if order != [] { OnlyAborts(w, order[1..]); }
  }

  lemma StopTally(w: World, order: seq<PeerId>, env: Env)
    requires Safe(w, None) && Tally(w) && Lists(order, w.table)
    ensures Tally(StopManager(w, order, env))
  {
    Shutdown.StopDrains(w, order, env);
    OnlyAborts(w, order);
    SilentTally(w, StopManager(w, order, env));
  }

  lemma AcceptTally(w: World, id: PeerId)
    requires Safe(w, None) && Tally(w)
    ensures Tally(Accept(w, id))
  {
    var m := w.(conns := w.conns + [Inbound(id)]);
    forall c: nat, p: Request | c < |m.conns| && p.protocol.Some? ensures TallyOf(m, c, p) {
      if c < |w.conns| { assert TallyOf(w, c, p); } else { CountNone(w.log, c, p); }
    }
    StaysPrompt(w, m);
    SameTally(m, Accept(w, id));
  }

  lemma {:induction false} CloseEachTally(w: World, list: seq<nat>, env: Env)
    requires Safe(w, None) && Tally(w) && forall i :: 0 <= i < |list| ==> list[i] < |w.conns|
    ensures Tally(CloseEach(w, list, env))
    decreases |list|
  {
    if list != [] {
      CloseWithKeeps(w, list[0], false, None, env);
      CloseWithTally(w, list[0], false, None, env);
      CloseWithGrows(w, list[0], false, None, env);
      CloseEachTally(CloseWith(w, list[0], false, None, env), list[1..], env);
    }
  }

  lemma TurnTally(w: World, t: Turn, env: Env)
    requires Safe(w, None) && Tally(w) && CanTake(w, t)
    ensures Tally(Take(w, t, env))
  {
    match t
    case DialTurn(id, req, priority, connected, t1, t2) => AddTally(w, id, req, priority, connected, t1, t2, env);
    case CleanTurn(order, isConnected) => CleanTally(w, order, isConnected, env);
    case StopTurn(order) => StopTally(w, order, env);
    case StartTurn => SameTally(w, w.(running := true));
    case ClearTurn(id) => SameTally(w, ClearDenylist(w, id));
    case AcceptTurn(id) => AcceptTally(w, id);
    case CompleteTurn(c, op, ok) => CompleteTally(w, c, op, ok, env);
    case CloseTurn(c, err) => CloseWithTally(w, c, err, None, env);
    case HangUpTurn(id) =>
      var list := OfPeer(w.tracked, w.conns, id);
      forall i | 0 <= i < |list| ensures list[i] < |w.conns| { assert list[i] in w.tracked; }
      CloseEachTally(w, list, env);
  }

  lemma {:induction false} PlayTally(w: World, run: seq<Scene>)
    requires Safe(w, None) && Tally(w) && CanPlay(w, run)
    ensures Tally(Play(w, run))
    decreases |run|
  {
    if run != [] {
      var m := Unplay(w, run);
      TurnTally(w, run[0].turn, run[0].env);
      TurnKeeps(w, run[0].turn, run[0].env);
      PlayTally(m, run[1..]);
    }
  }

  lemma ReachableTally(cfg: Config, w: World)
    requires Reachable(cfg, w)
    ensures Tally(w)
  {
    var run :| CanPlay(Init(cfg), run) && Play(Init(cfg), run) == w;
    InitSafe(cfg);
    PlayTally(Init(cfg), run);
  }

  // ---------------------------------------------------------------- every request for a protocol

  /**
   * In every reachable state, a start of a request that names a protocol is followed at once by its handshake over the
   * same connection, which is muxed; or it is the start that made the connection, before any other over it.
   */
  lemma ShakenAtOnce(cfg: Config, w: World, i: nat)
    requires Reachable(cfg, w) && i < |w.log| && w.log[i].Started? && w.log[i].req.protocol.Some?
    ensures
      || (i + 1 < |w.log| && w.log[i + 1] == Shaken(w.log[i].conn, w.log[i].req, Muxed))
      || (w.log[i].conn < |w.conns| && w.conns[w.log[i].conn].dial == Some(w.log[i].req)
          && forall j :: 0 <= j < i && w.log[j].Started? ==> w.log[j].conn != w.log[i].conn)
  {
    ReachableTally(cfg, w);
    assert PromptAt(w, i);
  }

  /**
   * In every reachable state and for every request that names a protocol: over each connection there are as many
   * handshakes as starts, but for the start that made the connection, whose handshake is noted once the connection
   * has been muxed or connected and not before.
   */
  lemma ShakenOnce(cfg: Config, w: World, c: nat, req: Request)
    requires Reachable(cfg, w) && c < |w.conns| && req.protocol.Some?
    ensures CountShakes(w.log, c, req) + (if w.conns[c].dial == Some(req) then 1 else 0) ==
            CountStarts(w.log, c, req) +
            (if w.conns[c].dial == Some(req) && (Muxed in w.conns[c].trail || Connected in w.conns[c].trail)
             then 1 else 0)
  {
    ReachableTally(cfg, w);
    assert TallyOf(w, c, req);
  }

  /**
   * A request without a protocol is never shaken, and a handshake carries the state in which its connection opened,
   * which is in the connection's history.
   */
  lemma ShakenAsOpened(cfg: Config, w: World, i: nat)
    requires Reachable(cfg, w) && i < |w.log| && w.log[i].Shaken?
    ensures w.log[i].req.protocol.Some? && w.log[i].conn < |w.conns|
    ensures (w.log[i].state == Muxed || w.log[i].state == Connected) && w.log[i].state in w.conns[w.log[i].conn].trail
  {
    ReachableTally(cfg, w);
  }
}

/** What denials do: exactly when `add` refuses, and through which turns a denial stands. */
module Denials {
  import opened Basics
  import opened Fsm
  import opened Connection
  import opened Scheduler
  import opened Turns
  import opened Slots
  import opened SafeTurns
  import opened Shutdown
  import opened Spared
  import opened Barring
  import opened Fates
  import opened Failures

  /**
   * The answer `add` gives first: a cold call too many is aborted, a denied peer is refused until its
   * deadline has passed or its denial was cleared, and every other request is accepted.
   */
  lemma AddAnswers(w: World, id: PeerId, req: Request, priority: int, connected: bool, t1: int, t2: int, env: Env)
    requires Wf(w)
    ensures var r := Add(w, id, req, priority, connected, t1, t2, env);
            |w.log| < |r.log| &&
            r.log[|w.log|] == if ColdRefused(w, id, priority) then Refused(id, req, DialAborted)
                              else if InForce(DenialOf(w, id), t1) then Refused(id, req, DialDenied)
                              else Accepted(id, req)
  {
    var w0 := GetQueue(w, id);
    GetQueueWf(w, id);
    var e, m := AddNotes(w, id, req, priority, connected, t1, t2, env);
    if !ColdRefused(w, id, priority) {
      NoteIs(w0, w0.table[id], req, t1);
      AddStartsWith(w, id, req, priority, connected, t1, t2, env);
    }
  }

  lemma NoteIs(w: World, q: nat, req: Request, now: int)
    requires Wf(w) && q < |w.queues|
    ensures Offer(w, q, req, now).log ==
            w.log + [if InForce(w.queues[q].denial, now) then Refused(w.queues[q].id, req, DialDenied)
                     else Accepted(w.queues[q].id, req)]
  {
  }

  /** What the queue notes about the request is the first thing the turn notes. */
  lemma AddStartsWith(w: World, id: PeerId, req: Request, priority: int, connected: bool, t1: int, t2: int, env: Env)
    requires Wf(w) && !ColdRefused(w, id, priority)
    ensures var w0 := GetQueue(w, id);
            id in w0.table && w0.table[id] < |w0.queues| &&
            Offer(w0, w0.table[id], req, t1).log <= Add(w, id, req, priority, connected, t1, t2, env).log
  {
    var w0 := GetQueue(w, id);
    GetQueueWf(w, id);
    var q := w0.table[id];
    var m := Offer(w0, q, req, t1);
    OfferWf(w0, q, req, t1);
    if connected {
      ExecSays(m, TStart(q), env);
    } else {
      var (d, allowed) := IsDialAllowed(m.queues[q], t2);
      if allowed {
        var w2 := SetQueue(m, q, d);
        SetQueueWf(m, q, d);
        EnqueueWf(w2, id, priority);
        ExecSays(if d.running then w2 else Enqueue(w2, id, priority), TRun, env);
      }
    }
  }

  // ---------------------------------------------------------------- how long a denial stands

  /**
   * The turns that can give up the denial of a peer: stopping; clearing it; an inbound connection of
   * the peer; a connection of the peer becoming muxed; the clean timer, if the peer is denied for good;
   * and a dial that is no cold call too many and finds that the deadline has passed.
   */
  ghost predicate GivesUp(w: World, t: Turn, env: Env, id: PeerId)
    requires Wf(w) && CanTake(w, t)
  {
    match t
    case StopTurn(_) => true
    case ClearTurn(x) => x == id
    case AcceptTurn(x) => x == id
    case CompleteTurn(c, op, ok) => op == MuxOp && ok && w.conns[c].peer == id && w.conns[c].state == Upgrading
    case DialTurn(x, _, priority, connected, t1, t2) =>
      x == id && !ColdRefused(w, id, priority) && !InForce(DenialOf(w, id), if connected then t1 else t2)
    case CleanTurn(_, _) => DenialOf(w, id) == Forever
    case _ => false
  }

  /** The turns in which a connection of the peer opens without a muxer, which resets the failures of its queue. */
  predicate Resets(w: World, t: Turn, env: Env, id: PeerId)
    requires t.CompleteTurn? ==> t.c < |w.conns|
  {
    && t.CompleteTurn? && w.conns[t.c].peer == id
    && ((t.op == CryptoOp && t.ok && w.conns[t.c].state == Encrypting && !env.setup.muxers)
        || (t.op == MuxOp && !t.ok && w.conns[t.c].state == Upgrading))
  }

  /** The peer's queue is filed and denied. */
  ghost predicate IsDenied(w: World, id: PeerId) {
    id in w.table && w.table[id] < |w.queues| && w.queues[w.table[id]].denial != NotDenied
  }

  /**
   * The peer's queue, if it was denied, is filed as before and denied; given the time of its last failure,
   * its denial lasts.
   */
  ghost predicate Stands(w: World, r: World, id: PeerId, since: Option<int>, env: Env) {
    IsDenied(w, id) ==>
      && IsDenied(r, id) && r.table[id] == w.table[id]
      && (since.Some? ==>
            Lasts(w.queues[w.table[id]], r.queues[r.table[id]], w.cfg, since.value, env.now(|r.conns|)))
  }

  /** The same denial before and after, and the same failures if times matter. */
  ghost predicate Untouched(w: World, m: World, id: PeerId, since: Option<int>) {
    && |m.conns| >= |w.conns| && m.cfg == w.cfg
    && (IsDenied(w, id) ==>
          && IsDenied(m, id) && m.table[id] == w.table[id]
          && m.queues[m.table[id]].denial == w.queues[w.table[id]].denial
          && (since.Some? ==> m.queues[m.table[id]].denials == w.queues[w.table[id]].denials))
  }

  /** Nothing is asked of the clock when no time is given. */
  ghost predicate Since(w: World, t: Task, since: Option<int>, env: Env) {
    since.Some? ==> Grows(w.cfg) && Ticks(env) && since.value <= Clock(w, t, env)
  }

  function Later(w: World, since: Option<int>, env: Env): Option<int> {
    if since.Some? then Some(env.now(|w.conns|)) else None
  }

  lemma StandsTwice(w: World, m: World, r: World, id: PeerId, since: Option<int>, env: Env)
    requires Stands(w, m, id, since, env) && Stands(m, r, id, Later(m, since, env), env) && m.cfg == w.cfg
    ensures Stands(w, r, id, since, env)
  {
  }

  lemma UntouchedStands(w: World, m: World, id: PeerId, since: Option<int>, env: Env)
    requires Untouched(w, m, id, since) && Since(w, TRun, since, env)
    ensures Stands(w, m, id, since, env)
  {
    if IsDenied(w, id) && since.Some? {
      SameLasts(w.queues[w.table[id]], m.queues[m.table[id]], w.cfg, since.value, env.now(|m.conns|));
    }
  }

  lemma ExecStands(w: World, m: World, t: Task, env: Env, id: PeerId, since: Option<int>)
    requires Untouched(w, m, id, since) && Wf(m) && TaskOk(m, t) && Since(m, t, since, env)
    ensures Stands(w, Exec(m, t, env), id, since, env)
  {
    ExecDenies(m, t, env);
    if IsDenied(w, id) && since.Some? {
      var q := w.table[id];
      SameLasts(w.queues[q], m.queues[q], w.cfg, since.value, since.value);
      ExecLasts(m, t, env, q, since.value);
    }
  }

  lemma AddStands(w: World, x: PeerId, req: Request, priority: int, connected: bool, t1: int, t2: int, env: Env,
                  id: PeerId, since: Option<int>)
    requires Wf(w) && t1 <= t2 && Since(w, TRun, since, env)
    requires x == id && !ColdRefused(w, id, priority) ==> InForce(DenialOf(w, id), if connected then t1 else t2)
    ensures Stands(w, Add(w, x, req, priority, connected, t1, t2, env), id, since, env)
  {
    var w0 := GetQueue(w, x);
    GetQueueWf(w, x);
    var q := w0.table[x];
    if ColdRefused(w0, x, priority) {
      UntouchedStands(w, Add(w, x, req, priority, connected, t1, t2, env), id, since, env);
    } else {
      var w1 := Offer(w0, q, req, t1);
      OfferWf(w0, q, req, t1);
      OfferUntouched(w, x, req, t1, id, since);
      if connected {
        ExecStands(w, w1, TStart(q), env, id, since);
      } else {
        PlaceStands(w, w1, q, x, priority, t2, env, id, since);
      }
    }
  }

  lemma OfferUntouched(w: World, x: PeerId, req: Request, now: int, id: PeerId, since: Option<int>)
    requires Wf(w) && (x == id ==> InForce(DenialOf(w, id), now)) && Wf(GetQueue(w, x)) && x in GetQueue(w, x).table
    ensures Untouched(w, Offer(GetQueue(w, x), GetQueue(w, x).table[x], req, now), id, since)
    ensures x == id && x in w.table ==>
              Offer(GetQueue(w, x), GetQueue(w, x).table[x], req, now).queues == w.queues
  {
    if x != id && id in w.table { TableApart(GetQueue(w, x), x, id); }
  }

  lemma PlaceStands(w: World, w1: World, q: nat, x: PeerId, priority: int, now: int, env: Env, id: PeerId,
                    since: Option<int>)
    requires Untouched(w, w1, id, since) && Wf(w1) && x in w1.table && w1.table[x] == q && Since(w, TRun, since, env)
    requires x == id ==> InForce(w1.queues[q].denial, now)
    ensures Stands(w, Place(w1, q, x, priority, now, env), id, since, env)
  {
    var (d, allowed) := IsDialAllowed(w1.queues[q], now);
    if allowed {
      var w2 := SetQueue(w1, q, d);
      SetQueueWf(w1, q, d);
      EnqueueWf(w2, x, priority);
      if id in w1.table { TableApart(w1, x, id); }
      ExecStands(w, if d.running then w2 else Enqueue(w2, x, priority), TRun, env, id, since);
    } else {
      UntouchedStands(w, w1, id, since, env);
    }
  }

  /** The clean timer leaves a queue that is denied until a deadline, and so empty, as it is. */
  lemma {:induction false} CleanUntouched(w: World, order: seq<PeerId>, connected: PeerId -> bool, env: Env, id: PeerId,
                                          since: Option<int>)
    requires Wf(w) && IsDenied(w, id) && DenialOf(w, id).Until? && w.queues[w.table[id]].pending == []
    ensures Untouched(w, Clean(w, order, connected, env), id, since)
    ensures DenialOf(Clean(w, order, connected, env), id) == DenialOf(w, id)
    decreases |order|
  {
    if order != [] {
      var x := order[0];
      if x in w.table && Stale(w.queues[w.table[x]], connected(x)) {
        var m := DiscardOther(w, x, env, id, since);
        CleanUntouched(m, order[1..], connected, env, id, since);
        UntouchedTwice(w, m, Clean(m, order[1..], connected, env), id, since);
      } else {
        CleanUntouched(w, order[1..], connected, env, id, since);
      }
    }
  }

  lemma DiscardOther(w: World, x: PeerId, env: Env, id: PeerId, since: Option<int>) returns (m: World)
    requires Wf(w) && x in w.table && x != id && IsDenied(w, id) && w.queues[w.table[id]].pending == []
    ensures m == Discard(w, x, env) && Wf(m) && Untouched(w, m, id, since) && IsDenied(m, id)
    ensures m.queues[m.table[id]].pending == [] && DenialOf(m, id) == DenialOf(w, id)
  {
    ExecIdles(w, TAbort(w.table[x]), env, w.table[id]);
    m := Discard(w, x, env);
  }

  lemma ClearUntouched(w: World, x: PeerId, id: PeerId, since: Option<int>)
    requires Wf(w) && x != id
    ensures Untouched(w, ClearDenylist(w, x), id, since)
  {
    GetQueueWf(w, x);
    if id in w.table { TableApart(GetQueue(w, x), x, id); }
  }

  lemma GreetUntouched(w: World, c: nat, id: PeerId, since: Option<int>)
    requires Wf(w) && c < |w.conns| && w.conns[c].owner.Some? && w.conns[c].dial.Some?
    requires since.Some? ==> w.conns[c].peer != id
    ensures Untouched(w, Greet(w, c), id, since)
  {
    assert OwnerOk(w, c);
  }

  lemma UntouchedTwice(w: World, m: World, r: World, id: PeerId, since: Option<int>)
    requires Untouched(w, m, id, since) && Untouched(m, r, id, since)
    ensures Untouched(w, r, id, since)
  {
  }

  lemma AnnouncedUntouched(w: World, c: nat, d: Conn, id: PeerId, since: Option<int>)
    requires Wf(w) && c < |w.conns| && d.owner == w.conns[c].owner && d.peer == w.conns[c].peer
    requires d.state == Muxed || (since.Some? && d.state == Connected) ==> d.peer != id
    ensures Untouched(w, Announced(w, c, d), id, since)
  {
    StoreWf(w, c, d);
    var w1 := Store(w, c, d);
    var w2 := if d.state == Muxed then ClearDenylist(w1, d.peer) else w1;
    if d.state == Muxed { ClearUntouched(w1, d.peer, id, since); }
    assert Untouched(w1, w2, id, since) && w2.conns == w1.conns && w1.conns[c].peer == d.peer;
    if (d.state == Muxed || d.state == Connected) && d.owner.Some? && d.dial.Some? {
      GreetUntouched(w2, c, id, since);
      UntouchedTwice(w1, w2, Greet(w2, c), id, since);
    }
  }

  lemma AdvanceStands(w: World, c: nat, d: Conn, env: Env, id: PeerId, since: Option<int>)
    requires Wf(w) && c < |w.conns| && d.owner == w.conns[c].owner && d.peer == w.conns[c].peer
    requires Since(w, TRun, since, env)
    requires d.state == Muxed || (since.Some? && d.state == Connected) ==> d.peer != id
    ensures Stands(w, Advance(w, c, d, env), id, since, env)
  {
    var m := Announced(w, c, d);
    AnnouncedUntouched(w, c, d, id, since);
    assert OwnerOk(w, c);
    match Wakes(d)
    case None => UntouchedStands(w, m, id, since, env);
    case Some(t) => ExecStands(w, m, t, env, id, since);
  }

  lemma CloseWithStands(w: World, c: nat, err: bool, o: Option<Op>, env: Env, id: PeerId, since: Option<int>)
    requires Wf(w) && c < |w.conns|
    requires Since(w, if err then TError(c) else TRun, since, env)
    ensures Stands(w, CloseWith(w, c, err, o, env), id, since, env)
  {
    if w.conns[c].state != Disconnecting {
      ExecStands(w, w, if err then TFail(c, o) else TClose(c, o), env, id, since);
    } else {
      UntouchedStands(w, CloseWith(w, c, err, o, env), id, since, env);
    }
  }

  lemma {:induction false} CloseEachStands(w: World, list: seq<nat>, env: Env, id: PeerId, since: Option<int>)
    requires Wf(w) && (forall i :: 0 <= i < |list| ==> list[i] < |w.conns|) && Since(w, TRun, since, env)
    ensures Stands(w, CloseEach(w, list, env), id, since, env)
    decreases |list|
  {
    if list == [] {
      UntouchedStands(w, w, id, since, env);
    } else {
      CloseWithGrows(w, list[0], false, None, env);
      CloseWithStands(w, list[0], false, None, env, id, since);
      var m := CloseWith(w, list[0], false, None, env);
      CloseEachStands(m, list[1..], env, id, Later(m, since, env));
      StandsTwice(w, m, CloseEach(m, list[1..], env), id, since, env);
    }
  }

  /** Which completions open a connection, with a muxer or without. */
  lemma OnlyMuxOpens(c: Conn, o: Op, setup: Setup)
    requires ConnOk(c) && o in c.ops && Reports(o)
    ensures var f := Fire(Delivered(c, o, setup), Done, setup);
            f.Some? && (f.value.state == Muxed ==> o == MuxOp && c.state == Upgrading)
            && (f.value.state == Connected ==> o == CryptoOp && c.state == Encrypting && !setup.muxers)
            && f.value.owner == c.owner && f.value.peer == c.peer
  {
    match o
    case DialOp => DialDone(c, setup);
    case ProtectOp => ProtectDone(c, setup);
    case CryptoOp => CryptoDone(c, setup); LastStageIf(c);
    case MuxOp => MuxDone(c, setup);
    case EndOp => EndDone(c, setup);
  }

  lemma CompleteStands(w: World, c: nat, o: Op, ok: bool, env: Env, id: PeerId, since: Option<int>)
    requires Safe(w, None) && c < |w.conns| && o in w.conns[c].ops
    requires !(o == MuxOp && ok && w.conns[c].peer == id && w.conns[c].state == Upgrading)
    requires since.Some? ==> !Resets(w, CompleteTurn(c, o, ok), env, id)
    requires Since(w, TRun, since, env) && Since(w, TError(c), since, env)
    ensures Stands(w, Complete(w, c, o, ok, env), id, since, env)
  {
    var k := w.conns[c];
    assert ConnOk(k);
    if Reports(o) && (ok || o == EndOp) {
      OnlyMuxOpens(k, o, env.setup);
      AdvanceStands(w, c, Fire(Delivered(k, o, env.setup), Done, env.setup).value, env, id, since);
    } else if o == MuxOp {
      StopStands(w, c, env, id, since);
    } else if o == IdentifyOp && ok {
      UntouchedStands(w, Complete(w, c, o, ok, env), id, since, env);
    } else {
      CloseWithStands(w, c, o != MuxerCloseOp, Some(o), env, id, since);
    }
  }

  lemma StopStands(w: World, c: nat, env: Env, id: PeerId, since: Option<int>)
    requires Safe(w, None) && c < |w.conns| && MuxOp in w.conns[c].ops
    requires since.Some? ==> !Resets(w, CompleteTurn(c, MuxOp, false), env, id)
    requires Since(w, TRun, since, env) && Since(w, TError(c), since, env)
    ensures Stands(w, Complete(w, c, MuxOp, false, env), id, since, env)
  {
    var k := w.conns[c];
    assert ConnOk(k);
    UpgradeStopped(k, env.setup);
    if k.state == Upgrading {
      AdvanceStands(w, c, Fire(Without(k, Some(MuxOp)), Fsm.Stop, env.setup).value, env, id, since);
    } else {
      OpsKeep(w, c, Some(MuxOp));
      ExecStands(w, Forgetting(w, c, MuxOp), TError(c), env, id, since);
    }
  }

  /**
   * A denial stands through every turn that does not give it up. Unless failures are reset, a further
   * failure only makes it last longer, from the time `since` which no clock of the turn reads less than.
   */
  lemma TurnStands(w: World, t: Turn, env: Env, id: PeerId, since: Option<int>)
    requires Safe(w, None) && Barred(w, None) && CanTake(w, t) && !GivesUp(w, t, env, id)
    requires since.Some? ==> !Resets(w, t, env, id) && Grows(w.cfg) && Ticks(env) && since.value <= env.now(0)
    ensures Stands(w, Take(w, t, env), id, since, env)
  {
    match t
    case DialTurn(x, req, priority, connected, t1, t2) =>
      AddStands(w, x, req, priority, connected, t1, t2, env, id, since);
    case CleanTurn(order, isConnected) => CleanStands(w, order, isConnected, env, id, since);
    case StopTurn(order) =>
    case StartTurn => UntouchedStands(w, w.(running := true), id, since, env);
    case ClearTurn(x) =>
      ClearUntouched(w, x, id, since);
      UntouchedStands(w, ClearDenylist(w, x), id, since, env);
    case AcceptTurn(x) => AcceptStands(w, x, id, since, env);
    case CompleteTurn(c, op, ok) => CompleteStands(w, c, op, ok, env, id, since);
    case CloseTurn(c, err) => CloseWithStands(w, c, err, None, env, id, since);
    case HangUpTurn(x) => HangUpStands(w, x, env, id, since);
  }

  lemma CleanStands(w: World, order: seq<PeerId>, connected: PeerId -> bool, env: Env, id: PeerId, since: Option<int>)
    requires Wf(w) && Barred(w, None) && DenialOf(w, id) != Forever && Since(w, TRun, since, env)
    ensures Stands(w, Clean(w, order, connected, env), id, since, env)
  {
    if IsDenied(w, id) {
      CleanUntouched(w, order, connected, env, id, since);
      UntouchedStands(w, Clean(w, order, connected, env), id, since, env);
    }
  }

  lemma AcceptStands(w: World, x: PeerId, id: PeerId, since: Option<int>, env: Env)
    requires Wf(w) && x != id && Since(w, TRun, since, env)
    ensures Stands(w, Accept(w, x), id, since, env)
  {
    AcceptWf(w, x);
    ClearUntouched(w.(conns := w.conns + [Inbound(x)], tracked := w.tracked + [|w.conns|]), x, id, since);
    UntouchedStands(w, Accept(w, x), id, since, env);
  }

  lemma HangUpStands(w: World, x: PeerId, env: Env, id: PeerId, since: Option<int>)
    requires Wf(w) && Since(w, TRun, since, env)
    ensures Stands(w, HangUp(w, x, env), id, since, env)
  {
    var list := OfPeer(w.tracked, w.conns, x);
    forall i | 0 <= i < |list| ensures list[i] < |w.conns| { assert list[i] in w.tracked; }
    CloseEachStands(w, list, env, id, since);
  }

  // ---------------------------------------------------------------- giving a denial up

  /** The peer has an open connection, and its queue is not denied. */
  ghost predicate IsOpen(w: World, k: nat, id: PeerId) {
    && k < |w.conns| && k in w.tracked && w.conns[k].state == Muxed && w.conns[k].peer == id
    && id in w.table && w.table[id] < |w.queues| && w.queues[w.table[id]].denial == NotDenied
  }

  predicate Elsewhere(w: World, t: Task, id: PeerId)
    requires TaskOk(w, t)
  {
    match t
    case TFail(c, _) => w.conns[c].peer != id
    case TError(c) => w.conns[c].peer != id
    case TClose(c, _) => w.conns[c].peer != id
    case _ => true
  }

  lemma {:induction false} RemoveLeaves(s: seq<nat>, x: nat, y: nat)
    requires y in s && x != y
    ensures y in Remove(s, x)
  {
    if s[0] != x && s[0] != y { RemoveLeaves(s[1..], x, y); }
  }

  /** A peer with an open connection is not dialled anew, so no call denies it. */
  lemma MicroOpen(w: World, t: Task, env: Env, k: nat, id: PeerId)
    requires Wf(w) && TaskOk(w, t) && !t.TFail? && IsOpen(w, k, id) && Elsewhere(w, t, id)
    ensures var m := Micro(w, t, env);
            IsOpen(m.0, k, id) && (m.1.Some? ==> TaskOk(m.0, m.1.value) && Elsewhere(m.0, m.1.value, id))
  {
    match t
    case TError(c) => ErrorOpen(w, c, env, k, id);
    case TClose(c, o) => CloseOpen(w, c, o, env, k, id);
    case TNext(q) => NextOpen(w, q, env, k, id);
    case _ =>
  }

  lemma ErrorOpen(w: World, c: nat, env: Env, k: nat, id: PeerId)
    requires Wf(w) && c < |w.conns| && IsOpen(w, k, id) && w.conns[c].peer != id
    ensures var m := ReportError(w, c, env);
            IsOpen(m.0, k, id) && (m.1.Some? ==> m.1.value.TAbort? && TaskOk(m.0, m.1.value))
  {
    assert OwnerOk(w, c);
  }

  lemma CloseOpen(w: World, c: nat, o: Option<Op>, env: Env, k: nat, id: PeerId)
    requires Wf(w) && c < |w.conns| && IsOpen(w, k, id) && w.conns[c].peer != id
    ensures var m := CloseConn(w, c, o, env);
            IsOpen(m.0, k, id) && (m.1.Some? ==> m.1.value.TNext? && TaskOk(m.0, m.1.value))
  {
    FireKeeps(Without(w.conns[c], o), Disconnect, env.setup);
    assert OwnerOk(w, c);
    RemoveLeaves(w.tracked, c, k);
  }

  lemma NextOpen(w: World, q: nat, env: Env, k: nat, id: PeerId)
    requires Wf(w) && q < |w.queues| && IsOpen(w, k, id)
    ensures var m := NextDial(w, q, env);
            IsOpen(m.0, k, id) && (m.1.Some? ==> TaskOk(m.0, m.1.value) && Elsewhere(m.0, m.1.value, id))
  {
    assert exists i :: 0 <= i < |w.tracked| && w.tracked[i] == k;
  }

  lemma {:induction false} ExecOpen(w: World, t: Task, env: Env, k: nat, id: PeerId)
    requires Wf(w) && TaskOk(w, t) && IsOpen(w, k, id) && Elsewhere(w, t, id)
    ensures IsOpen(Exec(w, t, env), k, id)
    decreases Backlog(w), Focus(w, t), Phase(t)
  {
    if t.TFail? {
      ExecOpen(w, TError(t.c), env, k, id);
      var r := UnfoldFail(w, t.c, t.op, env);
      ExecOpen(r, TClose(t.c, t.op), env, k, id);
    } else {
      MicroOpen(w, t, env, k, id);
      var w1, next := Unfold(w, t, env);
      if next.Some? { ExecOpen(w1, next.value, env, k, id); }
    }
  }

  lemma AnnouncedOpen(w: World, c: nat, d: Conn)
    requires Wf(w) && c in w.tracked && c < |w.conns| && d.owner == w.conns[c].owner && d.peer == w.conns[c].peer
    requires d.state == Muxed
    ensures IsOpen(Announced(w, c, d), c, d.peer)
  {
    StoreWf(w, c, d);
    GetQueueWf(Store(w, c, d), d.peer);
  }

  /** A connection that becomes muxed ends the denial of its peer. */
  lemma OpeningForgives(w: World, c: nat, env: Env)
    requires Safe(w, None) && c < |w.conns| && MuxOp in w.conns[c].ops && w.conns[c].state == Upgrading
    ensures DenialOf(Complete(w, c, MuxOp, true, env), w.conns[c].peer) == NotDenied
  {
    var k := w.conns[c];
    assert ConnOk(k);
    MuxDone(k, env.setup);
    OnlyMuxOpens(k, MuxOp, env.setup);
    var d := Fire(Delivered(k, MuxOp, env.setup), Done, env.setup).value;
    AnnouncedOpen(w, c, d);
    assert OwnerOk(w, c);
    if Wakes(d).Some? { ExecOpen(Announced(w, c, d), Wakes(d).value, env, c, k.peer); }
  }

  lemma AcceptWf(w: World, x: PeerId)
    requires Wf(w)
    ensures Wf(w.(conns := w.conns + [Inbound(x)], tracked := w.tracked + [|w.conns|]))
  {
    var m := w.(conns := w.conns + [Inbound(x)], tracked := w.tracked + [|w.conns|]);
    forall c | 0 <= c < |m.conns| ensures OwnerOk(m, c) { if c < |w.conns| { assert OwnerOk(w, c); } }
  }
}

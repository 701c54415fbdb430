/** What a completed operation comes to, in the terms of the states and of what is armed and awaited alone. */
module Progress {
  import opened Basics
  import opened Fsm
  import opened Connection
  import opened Scheduler
  import opened Turns
  import opened Slots
  import opened SafeTurns
  import opened Runs
  import Fates
  import opened Faults

  /** A transition reaches the connection, and nothing that follows touches it. */
  lemma Advanced(w: World, c: nat, d: Conn, env: Env) returns (r: World)
    requires Safe(w, None) && c < |w.conns| && ConnOk(Disarm(d)) && Further(w.conns[c], d)
    requires w.conns[c].state == Disconnected ==> d.state == Disconnected
    ensures r == Advance(w, c, d, env) && Safe(r, None) && c < |r.conns| && r.conns[c] == Disarm(d)
    ensures w.log <= r.log
  {
    AdvanceKeeps(w, c, d, env);
    Fates.AdvanceSays(w, c, d, env);
    Touched(w, c, d, env);
    r := Advance(w, c, d, env);
  }

  lemma Touched(w: World, c: nat, d: Conn, env: Env)
    requires Wf(w) && c < |w.conns| && d.owner == w.conns[c].owner && d.peer == w.conns[c].peer
    ensures var r := Advance(w, c, d, env); c < |r.conns| && r.conns[c] == Disarm(d)
  {
    var m := Announced(w, c, d);
    assert m.conns == w.conns[c := Disarm(d)];
    assert OwnerOk(w, c);
    if Wakes(d).Some? { ExecFrames(m, Wakes(d).value, env, c); }
  }

  /** Where an operation that reports takes the connection, and what it waits for there. */
  ghost predicate GoesTo(c: Conn, d: Conn, s: State, ops: set<Op>) {
    && d.state == s && d.ops == ops && d.muxer == (s == Muxed)
    && d.errorArmed == c.errorArmed && d.nextArmed == InFlight(s)
  }

  lemma OpsAt(c: Conn)
    requires ConnOk(c)
    ensures InFlight(c.state) ==> c.ops == {Awaited(c.state)}
    ensures c.state == Connected ==> c.ops == {}
  {
    if InFlight(c.state) { assert forall o :: o in c.ops <==> o == Awaited(c.state); }
    if c.state == Connected { assert forall o :: o !in c.ops; }
  }

  /** The event that a step of the dial fires as it succeeds, or as the upgrade fails. */
  function Fires(c: Conn, o: Op, ok: bool, setup: Setup): Option<Conn> {
    if ok then Fire(Delivered(c, o, setup), Done, setup) else Fire(Without(c, Some(o)), Fsm.Stop, setup)
  }

  /** The connection that a successful or failed step of the dial makes. */
  lemma FireGoes(c: Conn, o: Op, ok: bool, setup: Setup) returns (d: Conn, s: State)
    requires ConnOk(c) && o in c.ops && c.state != Disconnected
    requires (ok && (o == DialOp || o == ProtectOp || o == CryptoOp || o == MuxOp)) || (o == MuxOp && !ok)
    ensures Fires(c, o, ok, setup) == Some(d)
    ensures ConnOk(Disarm(d)) && Further(c, d)
    ensures s == if o == DialOp then (if setup.protector then Privatizing else Encrypting)
                 else if o == ProtectOp then Encrypting
                 else if o == CryptoOp then (if setup.muxers then Upgrading else Connected)
                 else if ok then Muxed else Connected
    ensures Disarm(d).state == s
  {
    assert ShapeOk(c);
    if o == DialOp { DialDone(c, setup); } else if o == ProtectOp { ProtectDone(c, setup); }
    else if o == CryptoOp { CryptoDone(c, setup); } else if ok { MuxDone(c, setup); } else { UpgradeStopped(c, setup); }
    d := Fires(c, o, ok, setup).value;
    s := d.state;
  }

  lemma GoesAre(c: Conn, d: Conn, s: State, o: Op, ok: bool, setup: Setup)
    requires ConnOk(c) && o in c.ops && c.state != Disconnected && ConnOk(Disarm(d)) && Further(c, d) && d.state == s
    requires InFlight(s) || s == Connected || s == Muxed
    requires s == Muxed ==> o == MuxOp && ok
    requires Fires(c, o, ok, setup) == Some(d)
    requires c.state == Dialing || c.state == Privatizing || c.state == Encrypting || c.state == Upgrading
    ensures GoesTo(c, Disarm(d), s,
                   if s == Muxed then (if setup.identify then {MuxerCloseOp, IdentifyOp} else {MuxerCloseOp})
                   else if s == Connected then {}
                   else if s == Dialing then {DialOp} else if s == Privatizing then {ProtectOp}
                   else if s == Encrypting then {CryptoOp} else {MuxOp})
  {
    OpsAt(Disarm(d));
    OpsAt(c);
    if s == Muxed { MuxGives(c, d, setup); }
  }

  lemma MuxGives(c: Conn, d: Conn, setup: Setup)
    requires c.state == Upgrading && c.ops == {MuxOp} && Fire(Delivered(c, MuxOp, setup), Done, setup) == Some(d)
    ensures d.ops == (if setup.identify then {MuxerCloseOp, IdentifyOp} else {MuxerCloseOp})
  {
    assert d == Enter(Delivered(c, MuxOp, setup), Muxed, setup);
  }

  /**
   * A step of a dial that succeeds, or an upgrade that fails, while the connection is in flight: the state it leads
   * to in the same turn, the one operation that is then awaited (the muxer's end, and an identify if one is
   * configured, on a muxed connection), and that `next` stays armed exactly while the connection is in flight.
   */
  lemma StepGoesOn(cfg: Config, w: World, c: nat, o: Op, ok: bool, env: Env) returns (r: World, s: State)
    requires Reachable(cfg, w) && CanTake(w, CompleteTurn(c, o, ok)) && w.conns[c].state != Disconnected
    requires (ok && (o == DialOp || o == ProtectOp || o == CryptoOp || o == MuxOp)) || (o == MuxOp && !ok)
    ensures r == Take(w, CompleteTurn(c, o, ok), env) && c < |r.conns| && c in r.tracked && w.log <= r.log
    ensures s == if o == DialOp then (if env.setup.protector then Privatizing else Encrypting)
                 else if o == ProtectOp then Encrypting
                 else if o == CryptoOp then (if env.setup.muxers then Upgrading else Connected)
                 else if ok then Muxed else Connected
    ensures r.conns[c].state == s
    ensures r.conns[c].ops ==
            if s == Muxed then (if env.setup.identify then {MuxerCloseOp, IdentifyOp} else {MuxerCloseOp})
            else if s == Connected then {}
            else if s == Privatizing then {ProtectOp} else if s == Encrypting then {CryptoOp} else {MuxOp}
    ensures r.conns[c].muxer == (s == Muxed) && r.conns[c].errorArmed == w.conns[c].errorArmed
    ensures r.conns[c].nextArmed == (s == Privatizing || s == Encrypting || s == Upgrading)
    ensures s == Privatizing || s == Encrypting || s == Upgrading ==> r == w.(conns := w.conns[c := r.conns[c]])
  {
    ReachableSafe(cfg, w);
    assert ConnOk(w.conns[c]);
    var d;
    d, s := FireGoes(w.conns[c], o, ok, env.setup);
    GoesAre(w.conns[c], d, s, o, ok, env.setup);
    r := Advanced(w, c, d, env);
    assert Complete(w, c, o, ok, env) == r;
    if InFlight(s) { InFlightQuiet(w, c, d, env); }
  }

  /** While a connection stays in flight no listener runs: nothing but the connection changes. */
  lemma InFlightQuiet(w: World, c: nat, d: Conn, env: Env)
    requires Wf(w) && c < |w.conns| && d.owner == w.conns[c].owner && d.peer == w.conns[c].peer && InFlight(d.state)
    ensures Advance(w, c, d, env) == w.(conns := w.conns[c := Disarm(d)])
  {
    assert OwnerOk(w, c);
  }

  /** A muxer that has ended completes the closing of its connection. */
  lemma EndCloses(cfg: Config, w: World, c: nat, ok: bool, env: Env) returns (r: World)
    requires Reachable(cfg, w) && CanTake(w, CompleteTurn(c, EndOp, ok))
    ensures r == Take(w, CompleteTurn(c, EndOp, ok), env) && c < |r.conns| && c !in r.tracked
    ensures w.conns[c].state == Disconnecting && r.conns[c].state == Disconnected && !r.conns[c].muxer
  {
    ReachableSafe(cfg, w);
    assert ConnOk(w.conns[c]);
    var d := EndFires(w.conns[c], env.setup);
    r := Advanced(w, c, d, env);
    assert Complete(w, c, EndOp, ok, env) == r;
    assert ConnsOk(r);
  }

  lemma EndFires(k: Conn, setup: Setup) returns (d: Conn)
    requires ConnOk(k) && EndOp in k.ops
    ensures Fire(Delivered(k, EndOp, setup), Done, setup) == Some(d) && ConnOk(Disarm(d)) && Further(k, d)
    ensures k.state == Disconnecting && d.state == Disconnected && !d.muxer
  {
    EndDone(k, setup);
    d := Fire(Delivered(k, EndOp, setup), Done, setup).value;
  }

  /** Only the bookkeeping of one connection changes: which operations it still waits for, and how often it closed. */
  ghost predicate OnlyBooks(w: World, r: World, c: nat) {
    && c < |w.conns| == |r.conns| && r == w.(conns := w.conns[c := r.conns[c]])
    && r.conns[c].state == w.conns[c].state && r.conns[c].ops <= w.conns[c].ops + {MuxerCloseOp, IdentifyOp}
    && r.conns[c].errorArmed == w.conns[c].errorArmed && r.conns[c].nextArmed == w.conns[c].nextArmed
  }

  lemma RemoveNone<T>(s: seq<T>, x: T)
    requires x !in s
    ensures Scheduler.Remove(s, x) == s
  {
    if s != [] {
      assert s[0] in s;
      RemoveNone(s[1..], x);
      assert s == [s[0]] + s[1..];
    }
  }

  /** A transition from DISCONNECTED to itself reaches no listener and no set. */
  lemma AdvanceClosed(w: World, c: nat, d: Conn, env: Env) returns (r: World)
    requires Safe(w, None) && c < |w.conns| && ConnOk(Disarm(d)) && Further(w.conns[c], d)
    requires w.conns[c].state == Disconnected == d.state
    ensures r == Advance(w, c, d, env) && r == w.(conns := w.conns[c := Disarm(d)])
  {
    assert ConnOk(w.conns[c]);
    RemoveNone(w.tracked, c);
    r := Advance(w, c, d, env);
  }

  /** A step of the dial that completes well after the connection has closed changes nothing but its bookkeeping. */
  lemma LateSuccess(cfg: Config, w: World, c: nat, o: Op, ok: bool, env: Env) returns (r: World)
    requires Reachable(cfg, w) && CanTake(w, CompleteTurn(c, o, ok)) && w.conns[c].state == Disconnected
    requires ok && (o == DialOp || o == ProtectOp || o == CryptoOp || o == MuxOp)
    ensures r == Take(w, CompleteTurn(c, o, ok), env) && OnlyBooks(w, r, c)
  {
    ReachableSafe(cfg, w);
    assert ConnOk(w.conns[c]);
    var d := LateFires(w.conns[c], o, env.setup);
    r := AdvanceClosed(w, c, d, env);
    assert Complete(w, c, o, ok, env) == r;
  }

  lemma LateFires(k: Conn, o: Op, setup: Setup) returns (d: Conn)
    requires ConnOk(k) && o in k.ops && k.state == Disconnected
    requires o == DialOp || o == ProtectOp || o == CryptoOp || o == MuxOp
    ensures Fire(Delivered(k, o, setup), Done, setup) == Some(d) && ConnOk(Disarm(d)) && Further(k, d)
    ensures d.state == Disconnected && d.ops == Delivered(k, o, setup).ops
    ensures d.dial == k.dial && d.trail == k.trail + [Disconnected]
  {
    if o == DialOp { DialDone(k, setup); } else if o == ProtectOp { ProtectDone(k, setup); }
    else if o == CryptoOp { CryptoDone(k, setup); } else { MuxDone(k, setup); }
    d := Fire(Delivered(k, o, setup), Done, setup).value;
    assert d == Enter(Delivered(k, o, setup), Disconnected, setup);
  }

  /**
   * An identify that succeeds, and whatever completes or closes while the muxer is ending,
   * changes no more than that.
   */
  lemma BooksOnly(cfg: Config, w: World, t: Turn, c: nat, env: Env) returns (r: World)
    requires Reachable(cfg, w) && CanTake(w, t) && c < |w.conns|
    requires t == CompleteTurn(c, IdentifyOp, true)
             || (w.conns[c].state == Disconnecting
                 && (t == CloseTurn(c, true) || t == CloseTurn(c, false) || t == CompleteTurn(c, IdentifyOp, false)
                     || t == CompleteTurn(c, MuxerCloseOp, true) || t == CompleteTurn(c, MuxerCloseOp, false)))
    ensures r == Take(w, t, env) && OnlyBooks(w, r, c)
    ensures r.conns[c] == w.conns[c].(ops := if t.CompleteTurn? then w.conns[c].ops - {t.op} else w.conns[c].ops)
  {
    if t.CloseTurn? {
      assert w.conns[c := w.conns[c]] == w.conns;
      r := w;
    } else {
      r := w.(conns := w.conns[c := w.conns[c].(ops := w.conns[c].ops - {t.op})]);
      BooksAre(w, c, t.op, t.ok, env);
    }
  }

  lemma BooksAre(w: World, c: nat, o: Op, ok: bool, env: Env)
    requires Wf(w) && c < |w.conns|
    requires (o == IdentifyOp && ok) || (w.conns[c].state == Disconnecting && (o == IdentifyOp || o == MuxerCloseOp))
    ensures Complete(w, c, o, ok, env) == w.(conns := w.conns[c := w.conns[c].(ops := w.conns[c].ops - {o})])
  {
  }

  /** An upgrade that fails after the connection has closed: the same. */
  lemma LateStop(cfg: Config, w: World, c: nat, env: Env) returns (r: World)
    requires Reachable(cfg, w) && CanTake(w, CompleteTurn(c, MuxOp, false)) && w.conns[c].state == Disconnected
    ensures r == Take(w, CompleteTurn(c, MuxOp, false), env) && OnlyBooks(w, r, c)
  {
    ReachableSafe(cfg, w);
    assert ConnOk(w.conns[c]);
    UpgradeStopped(w.conns[c], env.setup);
    SetConnWf(w, c, Without(w.conns[c], Some(MuxOp)));
    r := w.(conns := w.conns[c := Without(w.conns[c], Some(MuxOp))]);
    NoReport(r, c, env);
    assert Complete(w, c, MuxOp, false, env) == Exec(r, TError(c), env);
  }

  lemma NoReport(w: World, c: nat, env: Env)
    requires Wf(w) && c < |w.conns| && !w.conns[c].errorArmed
    ensures Exec(w, TError(c), env) == w
  {
    var m, next := Unfold(w, TError(c), env);
  }

  /** A connection that opens without a muxer resets the failures of the queue that wired it, and leaves its denial. */
  lemma PlainOpeningResets(cfg: Config, w: World, c: nat, o: Op, ok: bool, env: Env, q: nat) returns (r: World)
    requires Reachable(cfg, w) && CanTake(w, CompleteTurn(c, o, ok)) && w.conns[c].state != Disconnected
    requires (o == CryptoOp && ok && !env.setup.muxers) || (o == MuxOp && !ok)
    requires w.conns[c].owner == Some(q) && forall k: nat :: !env.failsNow(k)
    ensures r == Take(w, CompleteTurn(c, o, ok), env) && q < |w.queues| == |r.queues|
    ensures r.queues[q].denials == 0 && r.queues[q].denial == w.queues[q].denial
    ensures forall p :: 0 <= p < |w.queues| && p != q ==>
              r.queues[p].denials == w.queues[p].denials && r.queues[p].denial == w.queues[p].denial
  {
    ReachableSafe(cfg, w);
    assert ConnOk(w.conns[c]) && OwnerOk(w, c);
    var d, s := FireGoes(w.conns[c], o, ok, env.setup);
    r := PlainResets(w, c, d, env, q);
    assert Complete(w, c, o, ok, env) == r;
  }

  lemma PlainResets(w: World, c: nat, d: Conn, env: Env, q: nat) returns (r: World)
    requires Safe(w, None) && c < |w.conns| && ConnOk(Disarm(d)) && Further(w.conns[c], d) && d.state == Connected
    requires w.conns[c].state != Disconnected && w.conns[c].owner == Some(q) && forall k: nat :: !env.failsNow(k)
    ensures r == Advance(w, c, d, env) && q < |w.queues| == |r.queues|
    ensures forall p :: 0 <= p < |w.queues| ==>
              r.queues[p].denials == (if p == q then 0 else w.queues[p].denials)
              && r.queues[p].denial == w.queues[p].denial
  {
    assert OwnerOk(w, c) && ConnOk(w.conns[c]);
    PlainGreets(w, c, d, q);
    r := AdvanceCalm(w, c, d, env);
  }

  /** What follows the listeners of a new state denies and pardons no queue, unless a dial fails at once. */
  lemma AdvanceCalm(w: World, c: nat, d: Conn, env: Env) returns (r: World)
    requires Safe(w, None) && c < |w.conns| && ConnOk(Disarm(d)) && Further(w.conns[c], d)
    requires w.conns[c].state == Disconnected ==> d.state == Disconnected
    requires forall k: nat :: !env.failsNow(k)
    ensures r == Advance(w, c, d, env)
    ensures var m := Announced(w, c, d);
            && |r.queues| == |m.queues| && r.table == m.table
            && forall p :: 0 <= p < |m.queues| ==>
                 r.queues[p].denials == m.queues[p].denials && r.queues[p].denial == m.queues[p].denial
  {
    var m := AdvanceParts(w, c, d, env);
    r := Advance(w, c, d, env);
    if Wakes(d).Some? {
      forall p | 0 <= p < |m.queues|
        ensures r.queues[p].denials == m.queues[p].denials && r.queues[p].denial == m.queues[p].denial
      {
        ExecCalm(m, Wakes(d).value, env, p);
      }
    }
  }

  lemma PlainGreets(w: World, c: nat, d: Conn, q: nat)
    requires Wf(w) && c < |w.conns| && d.owner == w.conns[c].owner == Some(q) && d.peer == w.conns[c].peer
    requires d.state == Connected && d.dial.Some?
    ensures q < |w.queues| && Announced(w, c, d).queues == w.queues[q := w.queues[q].(denials := 0)]
  {
    assert OwnerOk(w, c);
  }

  /** A connection that becomes muxed pardons its peer: its queue is not denied and has no failures. */
  lemma MuxedOpeningPardons(cfg: Config, w: World, c: nat, env: Env) returns (r: World)
    requires Reachable(cfg, w) && CanTake(w, CompleteTurn(c, MuxOp, true)) && w.conns[c].state == Upgrading
    requires forall k: nat :: !env.failsNow(k)
    ensures r == Take(w, CompleteTurn(c, MuxOp, true), env)
    ensures var id := w.conns[c].peer;
            && id in r.table && r.table[id] < |r.queues|
            && r.queues[r.table[id]].denial == NotDenied && r.queues[r.table[id]].denials == 0
  {
    ReachableSafe(cfg, w);
    assert ConnOk(w.conns[c]) && OwnerOk(w, c);
    var d, s := FireGoes(w.conns[c], MuxOp, true, env.setup);
    MuxedPardons(w, c, d);
    r := AdvanceCalm(w, c, d, env);
  }

  lemma MuxedPardons(w: World, c: nat, d: Conn)
    requires Wf(w) && c < |w.conns| && d.owner == w.conns[c].owner && d.peer == w.conns[c].peer && d.state == Muxed
    ensures var m := Announced(w, c, d);
            && d.peer in m.table && m.table[d.peer] < |m.queues|
            && m.queues[m.table[d.peer]].denial == NotDenied && m.queues[m.table[d.peer]].denials == 0
  {
    StoreWf(w, c, d);
    GetQueueWf(Store(w, c, d), d.peer);
    assert OwnerOk(w, c);
  }
}

/**
 * Slots do not stay free while ids wait: each `run` starts one queue only, and still no id is left
 * waiting next to a free slot, as long as the waiting ids have queues.
 */
module WorkConservation {
  import opened Basics
  import opened Fsm
  import opened Connection
  import opened Scheduler
  import opened Turns
  import opened Slots
  import opened SafeTurns
  import opened Shutdown
  import opened Spared

  predicate NoneWaiting(w: World) { w.waiting == [] && w.cold == [] }

  /** Every waiting id has a queue in the table. */
  ghost predicate OrphanFree(w: World) {
    (forall id :: id in w.waiting ==> id in w.table) && (forall id :: id in w.cold ==> id in w.table)
  }

  /** No id waits while a slot is free, nor while the manager is stopped. */
  ghost predicate Served(w: World) {
    && OrphanFree(w)
    && (|w.dialing| < w.cfg.maxParallelDials ==> NoneWaiting(w))
    && (!w.running ==> NoneWaiting(w))
  }

  /** One `run` away from being served: one slot at most is free, or one id at most waits. */
  ghost predicate NearlyServed(w: World) {
    && OrphanFree(w)
    && (|w.dialing| + 1 < w.cfg.maxParallelDials ==> Backlog(w) <= 1)
    && (!w.running ==> NoneWaiting(w))
  }

  ghost predicate Serving(w: World, t: Task) {
    if t.TRun? then NearlyServed(w) else Served(w)
  }

  lemma RunServes(w: World)
    requires Ready(w, TRun) && NearlyServed(w)
    ensures Served(RunOnce(w).0) && RunOnce(w).1 != Some(TRun)
  {
    if w.running && |w.dialing| < w.cfg.maxParallelDials {
      if w.waiting != [] {
        assert w.waiting[0] in w.waiting;
        LaunchServes(w, w.(waiting := w.waiting[1..], popped := w.popped + [w.waiting[0]]), w.waiting[0]);
      } else if w.cold != [] {
        assert w.cold[0] in w.cold;
        LaunchServes(w, w.(cold := w.cold[1..]), w.cold[0]);
      }
    }
  }

  /** Popping an id that has a queue, and giving it the slot. */
  lemma LaunchServes(w: World, m: World, id: PeerId)
    requires NearlyServed(w) && id in w.table && id !in w.dialing && |w.dialing| < w.cfg.maxParallelDials && w.running
    requires m.cfg == w.cfg && m.table == w.table && m.dialing == w.dialing && m.running
    requires Backlog(m) + 1 == Backlog(w)
    requires forall x :: x in m.waiting ==> x in w.waiting
    requires forall x :: x in m.cold ==> x in w.cold
    ensures Served(Launch(m, id).0)
  {
    assert |w.dialing + {id}| == |w.dialing| + 1;
  }

  lemma StopServes(w: World, q: nat)
    requires Wf(w) && q < |w.queues| && Served(w)
    ensures var m := StopQueue(w, q); if m.1.Some? then NearlyServed(m.0) else Served(m.0)
  {
    var d := w.dialing - {w.queues[q].id};
    if w.queues[q].id in w.dialing {
      assert |d| == |w.dialing| - 1;
    } else {
      assert d == w.dialing;
    }
  }

  lemma OthersServe(w: World, t: Task, env: Env)
    requires Wf(w) && TaskOk(w, t) && !t.TFail? && !t.TRun? && !t.TStop? && Served(w)
    ensures var m := Micro(w, t, env); Served(m.0) && m.1 != Some(TRun)
  {
    var m := Micro(w, t, env);
    if t.TError? { assert OwnerOk(w, t.c); }
    SameServed(w, m.0);
  }

  lemma MicroServes(w: World, t: Task, env: Env)
    requires Ready(w, t) && !t.TFail? && Serving(w, t)
    ensures var m := Micro(w, t, env); if m.1.Some? then Serving(m.0, m.1.value) else Served(m.0)
  {
    if t.TRun? { RunServes(w); } else if t.TStop? { StopServes(w, t.q); } else { OthersServe(w, t, env); }
  }

  /** A whole cascade leaves no id waiting next to a free slot. */
  lemma {:induction false} ExecServes(w: World, t: Task, env: Env)
    requires Ready(w, t) && Serving(w, t)
    ensures Served(Exec(w, t, env))
    decreases Backlog(w), Focus(w, t), Phase(t)
  {
    if t.TFail? {
      ExecServes(w, TError(t.c), env);
      ExecKeeps(w, TError(t.c), env);
      ExecFrames(w, TError(t.c), env, t.c);
      var r := UnfoldFail(w, t.c, t.op, env);
      ExecServes(r, TClose(t.c, t.op), env);
    } else {
      MicroKeeps(w, t, env);
      MicroServes(w, t, env);
      var w1, next := Unfold(w, t, env);
      if next.Some? { ExecServes(w1, next.value, env); }
    }
  }

  // ---------------------------------------------------------------- turns

  /** Being served depends on the sets, the flag and the ids that have a queue. */
  lemma SameServed(w: World, r: World)
    requires Served(w) && r.cfg == w.cfg && r.running == w.running
    requires r.waiting == w.waiting && r.cold == w.cold && r.dialing == w.dialing
    requires forall id :: id in w.table ==> id in r.table
    ensures Served(r)
  {
  }

  lemma AddServes(w: World, id: PeerId, req: Request, priority: int, connected: bool, t1: int, t2: int, env: Env)
    requires Safe(w, None) && Served(w) && t1 <= t2 && (w.running || connected)
    ensures Served(Add(w, id, req, priority, connected, t1, t2, env))
  {
    var w0 := GetQueue(w, id);
    NewQueueKeeps(w, id, None);
    GetQueueWf(w, id);
    SameServed(w, w0);
    var q := w0.table[id];
    if ColdRefused(w0, id, priority) {
      SameServed(w0, w0.(log := w0.log + [Refused(id, req, DialAborted)]));
    } else {
      var w1 := Offer(w0, q, req, t1);
      OfferKeeps(w0, q, req, t1);
      SameServed(w0, w1);
      if connected {
        HoleIfIdle(w1, q);
        ExecServes(w1, TStart(q), env);
      } else {
        PlaceServes(w1, q, id, priority, t2, env);
      }
    }
  }

  lemma PlaceServes(w1: World, q: nat, id: PeerId, priority: int, t2: int, env: Env)
    requires q < |w1.queues| && Attached(w1, q) && w1.queues[q].id == id && w1.running && Served(w1)
    requires Safe(w1, if w1.queues[q].running then None else Some(q))
    requires !w1.queues[q].running ==> id !in w1.dialing
    requires !ColdRefused(w1, id, priority)
    ensures Served(Place(w1, q, id, priority, t2, env))
  {
    if IsDialAllowed(w1.queues[q], t2).1 {
      var w3 := PlaceNearlyServes(w1, q, id, priority, t2);
      ExecServes(w3, TRun, env);
    }
  }

  lemma PlaceNearlyServes(w1: World, q: nat, id: PeerId, priority: int, t2: int) returns (w3: World)
    requires q < |w1.queues| && Attached(w1, q) && w1.queues[q].id == id && w1.running && Served(w1)
    requires Safe(w1, if w1.queues[q].running then None else Some(q))
    requires !w1.queues[q].running ==> id !in w1.dialing
    requires !ColdRefused(w1, id, priority)
    ensures var d := IsDialAllowed(w1.queues[q], t2).0;
            w3 == if d.running then SetQueue(w1, q, d) else Enqueue(SetQueue(w1, q, d), id, priority)
    ensures Safe(w3, None) && NearlyServed(w3)
  {
    w3 := PlaceParts(w1, q, id, priority, t2);
    SameServed(w1, w1.(queues := w3.queues));
    if !w1.queues[q].running {
      RemoveDistinct(w1.cold, id);
      RemoveShortens(w1.cold, id);
    }
  }

  lemma AdvanceServes(w: World, c: nat, d: Conn, env: Env)
    requires Safe(w, None) && Served(w) && c < |w.conns|
    requires ConnOk(Disarm(d)) && Further(w.conns[c], d)
    requires w.conns[c].state == Disconnected ==> d.state == Disconnected
    ensures Served(Advance(w, c, d, env))
  {
    var w3 := AdvanceParts(w, c, d, env);
    SameServed(w, w3);
    if Wakes(d).Some? { ExecServes(w3, Wakes(d).value, env); }
  }

  lemma CloseWithServes(w: World, c: nat, err: bool, o: Option<Op>, env: Env)
    requires Safe(w, None) && Served(w) && c < |w.conns| && (o.Some? ==> o.value != EndOp)
    ensures Served(CloseWith(w, c, err, o, env))
  {
    if w.conns[c].state == Disconnecting {
      SameServed(w, CloseWith(w, c, err, o, env));
    } else if err {
      ExecServes(w, TFail(c, o), env);
    } else {
      ExecServes(w, TClose(c, o), env);
    }
  }

  lemma CompleteServes(w: World, c: nat, o: Op, ok: bool, env: Env)
    requires Safe(w, None) && Served(w) && c < |w.conns| && o in w.conns[c].ops
    ensures Served(Complete(w, c, o, ok, env))
  {
    var e := CompleteEnds(w, c, o, ok, env);
    match e
    case Moved(d) => AdvanceServes(w, c, d, env);
    case Reported(m) =>
      SameServed(w, m);
      ExecServes(m, TError(c), env);
    case Noted(m) => SameServed(w, m);
    case Shut(err) => CloseWithServes(w, c, err, Some(o), env);
  }

  lemma {:induction false} CloseEachServes(w: World, list: seq<nat>, env: Env)
    requires Safe(w, None) && Served(w) && forall i :: 0 <= i < |list| ==> list[i] < |w.conns|
    ensures Served(CloseEach(w, list, env))
    decreases |list|
  {
    if list != [] {
      CloseWithKeeps(w, list[0], false, None, env);
      CloseWithServes(w, list[0], false, None, env);
      CloseWithGrows(w, list[0], false, None, env);
      CloseEachServes(CloseWith(w, list[0], false, None, env), list[1..], env);
    }
  }

  // ---------------------------------------------------------------- dialling a stopped manager

  /** What keeps a dial to an unconnected peer from waiting: it is refused, or its queue runs already. */
  predicate NotQueued(w: World, id: PeerId, priority: int, t2: int)
    requires Wf(w)
  {
    ColdRefused(w, id, priority) || InForce(DenialOf(w, id), t2) || (id in w.table && w.queues[w.table[id]].running)
  }

  /** Exactly when dialling an unconnected peer of a stopped manager leaves no id waiting. */
  lemma StoppedDialServes(w: World, id: PeerId, req: Request, priority: int, t1: int, t2: int, env: Env)
    requires Safe(w, None) && Served(w) && !w.running && t1 <= t2
    ensures Served(Add(w, id, req, priority, false, t1, t2, env)) <==> NotQueued(w, id, priority, t2)
  {
    var w0 := GetQueue(w, id);
    GetQueueWf(w, id);
    SameServed(w, w0);
    var q := w0.table[id];
    if ColdRefused(w0, id, priority) {
      SameServed(w0, w0.(log := w0.log + [Refused(id, req, DialAborted)]));
    } else {
      var w1 := Offer(w0, q, req, t1);
      OfferWf(w0, q, req, t1);
      SameServed(w0, w1);
      OfferedAllowed(w, id, req, t1, t2);
      if IsDialAllowed(w1.queues[q], t2).1 { StoppedPlace(w1, q, id, priority, t2, env); }
    }
  }

  /** Whether the queue is allowed to dial, and runs, is the same before and after it is offered a request. */
  lemma OfferedAllowed(w: World, id: PeerId, req: Request, t1: int, t2: int)
    requires Wf(w) && t1 <= t2 && id in GetQueue(w, id).table && GetQueue(w, id).table[id] < |GetQueue(w, id).queues|
    ensures var w1 := Offer(GetQueue(w, id), GetQueue(w, id).table[id], req, t1);
            var d := w1.queues[GetQueue(w, id).table[id]];
            && IsDialAllowed(d, t2).1 == !InForce(DenialOf(w, id), t2)
            && d.running == (id in w.table && w.queues[w.table[id]].running)
  {
  }

  lemma StoppedPlace(w: World, q: nat, id: PeerId, priority: int, now: int, env: Env)
    requires Wf(w) && q < |w.queues| && Served(w) && !w.running && IsDialAllowed(w.queues[q], now).1 && id in w.table
    ensures Served(Place(w, q, id, priority, now, env)) <==> w.queues[q].running
  {
    var d := IsDialAllowed(w.queues[q], now).0;
    var w1 := SetQueue(w, q, d);
    SetQueueWf(w, q, d);
    EnqueueWf(w1, id, priority);
    var w2 := if d.running then w1 else Enqueue(w1, id, priority);
    var r, next := Unfold(w2, TRun, env);
    if d.running {
      SameServed(w, r);
    } else if priority <= PRIORITY_HIGH {
      assert id in Include(w1.waiting, id);
    } else {
      assert id in Include(w1.cold, id);
    }
  }

  // ---------------------------------------------------------------- the clean timer

  /** No id waits whose queue the timer would discard. */
  ghost predicate NoStaleWaits(w: World, connected: PeerId -> bool)
    requires Wf(w)
  {
    forall id :: Waits(w, id) && id in w.table ==> !Stale(w.queues[w.table[id]], connected(id))
  }

  lemma DiscardServes(w: World, x: PeerId, connected: PeerId -> bool, env: Env)
    requires Safe(w, None) && Served(w) && NoStaleWaits(w, connected)
    requires x in w.table && Stale(w.queues[w.table[x]], connected(x))
    ensures var r := Discard(w, x, env); Safe(r, None) && Served(r) && NoStaleWaits(r, connected)
  {
    var q := w.table[x];
    DiscardKeeps(w, x, env);
    ExecServes(w, TAbort(q), env);
    ExecLines(w, TAbort(q), env);
    var m := Exec(w, TAbort(q), env);
    assert !Waits(w, x) && !Waits(m, x);
    forall id | Waits(Drop(m, x), id) && id in Drop(m, x).table
      ensures !Stale(Drop(m, x).queues[Drop(m, x).table[id]], connected(id))
    {
      assert Waits(m, id) && Waits(w, id);
      TableApart(w, id, x);
      ExecSpares(w, TAbort(q), env, id);
    }
    DropServes(m, x);
  }

  lemma DropServes(m: World, x: PeerId)
    requires Served(m) && !Waits(m, x)
    ensures Served(Drop(m, x))
  {
  }

  /** The timer keeps the slots in use when no id waits whose queue it would discard. */
  lemma {:induction false} CleanServes(w: World, order: seq<PeerId>, connected: PeerId -> bool, env: Env)
    requires Safe(w, None) && Served(w) && NoStaleWaits(w, connected)
    ensures Served(Clean(w, order, connected, env))
    decreases |order|
  {
    if order != [] {
      var id := order[0];
      if id in w.table && Stale(w.queues[w.table[id]], connected(id)) {
        DiscardServes(w, id, connected, env);
        CleanServes(Discard(w, id, env), order[1..], connected, env);
      } else {
        CleanServes(w, order[1..], connected, env);
      }
    }
  }

  /** No queue that the timer would discard is running. */
  ghost predicate NoStaleRuns(w: World, connected: PeerId -> bool)
    requires Wf(w)
  {
    forall id :: id in w.table && Stale(w.queues[w.table[id]], connected(id)) ==> !w.queues[w.table[id]].running
  }

  /** Discarding a queue that does not run drops its requests and its entry, and runs nothing. */
  lemma DiscardStill(w: World, x: PeerId, env: Env) returns (r: World)
    requires Wf(w) && x in w.table && !w.queues[w.table[x]].running
    ensures Wf(r) && r == Discard(w, x, env)
    ensures r.table == w.table - {x} && r.waiting == w.waiting && r.cold == w.cold && |r.queues| == |w.queues|
    ensures forall q :: 0 <= q < |w.queues| && q != w.table[x] ==> r.queues[q] == w.queues[q]
  {
    var a, t1 := Unfold(w, TAbort(w.table[x]), env);
    var b, t2 := Unfold(a, TStop(w.table[x]), env);
    r := Discard(w, x, env);
  }

  /** The queue of the id is gone, or the timer is going to discard it. */
  ghost predicate Doomed(w: World, connected: PeerId -> bool, id: PeerId)
    requires Wf(w)
  {
    Waits(w, id) && (id in w.table ==> Stale(w.queues[w.table[id]], connected(id)))
  }

  lemma DiscardDooms(w: World, x: PeerId, connected: PeerId -> bool, env: Env, id: PeerId) returns (r: World)
    requires Wf(w) && NoStaleRuns(w, connected) && Doomed(w, connected, id)
    requires x in w.table && Stale(w.queues[w.table[x]], connected(x))
    ensures Wf(r) && r == Discard(w, x, env) && NoStaleRuns(r, connected) && Doomed(r, connected, id)
    ensures r.table == w.table - {x}
  {
    r := DiscardStill(w, x, env);
    forall y | y in r.table ensures r.queues[r.table[y]] == w.queues[w.table[y]] { TableApart(w, x, y); }
  }

  /** A waiting id whose queue the timer discards goes on waiting without one. */
  lemma {:induction false} CleanOrphans(w: World, order: seq<PeerId>, connected: PeerId -> bool, env: Env, id: PeerId)
    requires Wf(w) && NoStaleRuns(w, connected) && Doomed(w, connected, id) && (id in w.table ==> id in order)
    ensures Waits(Clean(w, order, connected, env), id) && id !in Clean(w, order, connected, env).table
    decreases |order|
  {
    if order != [] {
      var x := order[0];
      if x in w.table && Stale(w.queues[w.table[x]], connected(x)) {
        var m := DiscardDooms(w, x, connected, env, id);
        CleanOrphans(m, order[1..], connected, env, id);
      } else {
        CleanOrphans(w, order[1..], connected, env, id);
      }
    }
  }

  /** Exactly when the timer keeps the slots in use, if no queue that it would discard is running. */
  lemma CleanServesExactly(w: World, order: seq<PeerId>, connected: PeerId -> bool, env: Env)
    requires Safe(w, None) && Served(w) && Lists(order, w.table) && NoStaleRuns(w, connected)
    ensures Served(Clean(w, order, connected, env)) <==> NoStaleWaits(w, connected)
  {
    if NoStaleWaits(w, connected) {
      CleanServes(w, order, connected, env);
    } else {
      var id :| Waits(w, id) && id in w.table && Stale(w.queues[w.table[id]], connected(id));
      CleanOrphans(w, order, connected, env, id);
    }
  }

  // ---------------------------------------------------------------- all turns

  /**
   * The turns that can leave ids waiting next to free slots: cleaning away the queue of an id that
   * waits, and dialling a peer of a stopped manager so that its id has to wait.
   */
  ghost predicate MayStrand(w: World, t: Turn)
    requires Wf(w)
  {
    match t
    case CleanTurn(_, isConnected) => !NoStaleWaits(w, isConnected)
    case DialTurn(id, _, priority, connected, _, t2) => !w.running && !connected && !NotQueued(w, id, priority, t2)
    case _ => false
  }

  /** Every other turn keeps the slots in use while anything waits. */
  lemma TurnServes(w: World, t: Turn, env: Env)
    requires Safe(w, None) && Served(w) && CanTake(w, t) && !MayStrand(w, t)
    ensures Served(Take(w, t, env))
  {
    match t
    case DialTurn(id, req, priority, connected, t1, t2) =>
      if w.running || connected {
        AddServes(w, id, req, priority, connected, t1, t2, env);
      } else {
        StoppedDialServes(w, id, req, priority, t1, t2, env);
      }
    case CleanTurn(order, isConnected) => CleanServes(w, order, isConnected, env);
    case StopTurn(order) => StopDrains(w, order, env);
    case StartTurn =>
    case ClearTurn(id) => ClearKeeps(w, id, None); SameServed(w, ClearDenylist(w, id));
    case AcceptTurn(id) => SameServed(w, Accept(w, id));
    case CompleteTurn(c, op, ok) => CompleteServes(w, c, op, ok, env);
    case CloseTurn(c, err) => CloseWithServes(w, c, err, None, env);
    case HangUpTurn(id) =>
      var list := OfPeer(w.tracked, w.conns, id);
      forall i | 0 <= i < |list| ensures list[i] < |w.conns| { assert list[i] in w.tracked; }
      CloseEachServes(w, list, env);
  }

  /** Exactly when a turn keeps the slots in use, but for a timer that discards a running queue. */
  lemma TurnServesExactly(w: World, t: Turn, env: Env)
    requires Safe(w, None) && Served(w) && CanTake(w, t) && (t.CleanTurn? ==> NoStaleRuns(w, t.isConnected))
    ensures Served(Take(w, t, env)) <==> !MayStrand(w, t)
  {
    if !MayStrand(w, t) {
      TurnServes(w, t, env);
    } else {
      match t
      case CleanTurn(order, isConnected) => CleanServesExactly(w, order, isConnected, env);
      case DialTurn(id, req, priority, connected, t1, t2) => StoppedDialServes(w, id, req, priority, t1, t2, env);
    }
  }

  // ---------------------------------------------------------------- when it fails

  /**
   * With one slot free and at least two ids waiting, `run` puts the slot to use exactly when the
   * first id still has a queue: it gives up after popping one that has none.
   */
  lemma RunGivesUp(w: World, env: Env)
    requires Ready(w, TRun) && w.running && |w.dialing| + 1 == w.cfg.maxParallelDials && |w.waiting| >= 2
    requires OrphanFree(w.(waiting := w.waiting[1..]))
    ensures Served(Exec(w, TRun, env)) <==> w.waiting[0] in w.table
  {
    if w.waiting[0] in w.table {
      assert forall id :: id in w.waiting ==> id == w.waiting[0] || id in w.waiting[1..];
      ExecServes(w, TRun, env);
    } else {
      var w1, next := Unfold(w, TRun, env);
      assert next.None? && w1.waiting == w.waiting[1..];
    }
  }
}

/** Every running queue holds a slot, but for those that were dialled while their peer was connected. */
module Slotted {
  import opened Basics
  import opened Fsm
  import opened Connection
  import opened Scheduler
  import opened Turns
  import opened Slots
  import opened SafeTurns
  import opened Runs
  import Shutdown

  ghost predicate HoldSlots(w: World, free: set<PeerId>) {
    forall q {:trigger w.queues[q]} :: 0 <= q < |w.queues| && w.queues[q].running ==>
      w.queues[q].id in w.dialing || w.queues[q].id in free
  }

  /** A queue is only started if it holds a slot or needs none. */
  ghost predicate MayStart(w: World, t: Option<Task>, free: set<PeerId>) {
    t.Some? && t.value.TStart? ==>
      t.value.q < |w.queues| && (w.queues[t.value.q].id in w.dialing || w.queues[t.value.q].id in free)
  }

  lemma MicroSlots(w: World, t: Task, env: Env, free: set<PeerId>)
    requires Ready(w, t) && !t.TFail? && HoldSlots(w, free) && MayStart(w, Some(t), free)
    ensures var m := Micro(w, t, env); HoldSlots(m.0, free) && MayStart(m.0, m.1, free)
  {
    match t
    case TStop(q) => StopSlots(w, q, free);
    case TError(c) => ErrorSlots(w, c, env, free);
    case TNext(q) => NextSlots(w, q, env, free);
    case _ =>
  }

  lemma StopSlots(w: World, q: nat, free: set<PeerId>)
    requires Ready(w, TStop(q)) && HoldSlots(w, free)
    ensures var m := StopQueue(w, q); HoldSlots(m.0, free) && MayStart(m.0, m.1, free)
  {
    if w.queues[q].running {
      assert Attached(w, q);
      forall k | 0 <= k < |w.queues| && k != q && w.queues[k].running ensures w.queues[k].id != w.queues[q].id {
        assert Attached(w, k);
      }
    }
  }

  lemma ErrorSlots(w: World, c: nat, env: Env, free: set<PeerId>)
    requires Wf(w) && c < |w.conns| && HoldSlots(w, free)
    ensures var m := ReportError(w, c, env); HoldSlots(m.0, free) && MayStart(m.0, m.1, free)
  {
    assert OwnerOk(w, c);
  }

  lemma NextSlots(w: World, q: nat, env: Env, free: set<PeerId>)
    requires Wf(w) && q < |w.queues| && HoldSlots(w, free)
    ensures var m := NextDial(w, q, env); HoldSlots(m.0, free) && MayStart(m.0, m.1, free)
  {
  }

  lemma {:induction false} ExecSlots(w: World, t: Task, env: Env, free: set<PeerId>)
    requires Ready(w, t) && HoldSlots(w, free) && MayStart(w, Some(t), free)
    ensures HoldSlots(Exec(w, t, env), free)
    decreases Backlog(w), Focus(w, t), Phase(t)
  {
    if t.TFail? {
      ExecSlots(w, TError(t.c), env, free);
      ExecKeeps(w, TError(t.c), env);
      ExecFrames(w, TError(t.c), env, t.c);
      var r := UnfoldFail(w, t.c, t.op, env);
      ExecSlots(r, TClose(t.c, t.op), env, free);
    } else {
      MicroKeeps(w, t, env);
      MicroSlots(w, t, env, free);
      var w1, next := Unfold(w, t, env);
      if next.Some? { ExecSlots(w1, next.value, env, free); }
    }
  }

  /** The same queues run, besides new ones that do not, and the same ids hold slots. */
  ghost predicate SameRunning(w: World, m: World) {
    && |m.queues| >= |w.queues| && m.dialing == w.dialing
    && (forall q :: 0 <= q < |w.queues| ==>
          m.queues[q].running == w.queues[q].running && m.queues[q].id == w.queues[q].id)
    && (forall q :: |w.queues| <= q < |m.queues| ==> !m.queues[q].running)
  }

  lemma SameSlots(w: World, m: World, free: set<PeerId>)
    requires SameRunning(w, m) && HoldSlots(w, free)
    ensures HoldSlots(m, free)
  {
    forall q | 0 <= q < |m.queues| && m.queues[q].running
      ensures m.queues[q].id in m.dialing || m.queues[q].id in free {
      assert w.queues[q].running;
    }
  }

  lemma AddSlots(w: World, id: PeerId, req: Request, priority: int, connected: bool, t1: int, t2: int, env: Env,
                 free: set<PeerId>)
    requires Safe(w, None) && t1 <= t2 && HoldSlots(w, free) && (connected ==> id in free)
    ensures HoldSlots(Add(w, id, req, priority, connected, t1, t2, env), free)
  {
    NewQueueKeeps(w, id, None);
    GetQueueWf(w, id);
    SameSlots(w, GetQueue(w, id), free);
    if !ColdRefused(w, id, priority) {
      OfferedSlots(GetQueue(w, id), GetQueue(w, id).table[id], req, priority, connected, t1, t2, env, free);
    }
  }

  lemma OfferedSlots(w: World, q: nat, req: Request, priority: int, connected: bool, t1: int, t2: int, env: Env,
                     free: set<PeerId>)
    requires Safe(w, None) && t1 <= t2 && HoldSlots(w, free) && q < |w.queues| && Attached(w, q)
    requires (connected ==> w.queues[q].id in free) && !ColdRefused(w, w.queues[q].id, priority)
    ensures var m := Offer(w, q, req, t1);
            && Wf(m) && q < |m.queues|
            && HoldSlots(if connected then Exec(m, TStart(q), env)
                         else Place(m, q, w.queues[q].id, priority, t2, env), free)
  {
    var m := Offer(w, q, req, t1);
    OfferKeeps(w, q, req, t1);
    SameSlots(w, m, free);
    if connected {
      HoleIfIdle(m, q);
      ExecSlots(m, TStart(q), env, free);
    } else {
      if !w.queues[q].running { IdleHolds(w, q); }
      PlaceSlots(m, q, w.queues[q].id, priority, t2, env, free);
    }
  }

  lemma IdleHolds(w: World, q: nat)
    requires Safe(w, None) && q < |w.queues| && Attached(w, q) && !w.queues[q].running
    ensures w.queues[q].id !in w.dialing
  {
  }

  lemma PlaceSlots(w1: World, q: nat, id: PeerId, priority: int, t2: int, env: Env, free: set<PeerId>)
    requires q < |w1.queues| && Attached(w1, q) && w1.queues[q].id == id && HoldSlots(w1, free)
    requires Safe(w1, if w1.queues[q].running then None else Some(q))
    requires (!w1.queues[q].running ==> id !in w1.dialing) && !ColdRefused(w1, id, priority)
    ensures HoldSlots(Place(w1, q, id, priority, t2, env), free)
  {
    if IsDialAllowed(w1.queues[q], t2).1 {
      var w3 := PlaceParts(w1, q, id, priority, t2);
      PlacedRunning(w1, q, id, priority, t2, w3);
      SameSlots(w1, w3, free);
      ExecSlots(w3, TRun, env, free);
    }
  }

  lemma PlacedRunning(w1: World, q: nat, id: PeerId, priority: int, t2: int, w3: World)
    requires q < |w1.queues|
    requires var d := IsDialAllowed(w1.queues[q], t2).0;
             w3 == if d.running then SetQueue(w1, q, d) else Enqueue(SetQueue(w1, q, d), id, priority)
    ensures SameRunning(w1, w3)
  {
  }

  lemma {:induction false} CleanSlots(w: World, order: seq<PeerId>, connected: PeerId -> bool, env: Env,
                                     free: set<PeerId>)
    requires Safe(w, None) && HoldSlots(w, free)
    ensures HoldSlots(Clean(w, order, connected, env), free)
    decreases |order|
  {
    if order != [] {
      var x := order[0];
      if x in w.table && Stale(w.queues[w.table[x]], connected(x)) {
        ExecSlots(w, TAbort(w.table[x]), env, free);
        DiscardKeeps(w, x, env);
        CleanSlots(Discard(w, x, env), order[1..], connected, env, free);
      } else {
        CleanSlots(w, order[1..], connected, env, free);
      }
    }
  }

  lemma AdvanceSlots(w: World, c: nat, d: Conn, env: Env, free: set<PeerId>)
    requires Safe(w, None) && HoldSlots(w, free) && c < |w.conns|
    requires ConnOk(Disarm(d)) && Further(w.conns[c], d)
    requires w.conns[c].state == Disconnected ==> d.state == Disconnected
    ensures HoldSlots(Advance(w, c, d, env), free)
  {
    var m := AdvanceParts(w, c, d, env);
    AnnouncedRuns(w, c, d);
    SameSlots(w, m, free);
    if Wakes(d).Some? { ExecSlots(m, Wakes(d).value, env, free); }
  }

  lemma AnnouncedRuns(w: World, c: nat, d: Conn)
    requires Wf(w) && c < |w.conns| && d.owner == w.conns[c].owner && d.peer == w.conns[c].peer
    ensures SameRunning(w, Announced(w, c, d))
  {
    StoreWf(w, c, d);
    var w1 := Store(w, c, d);
    var w2 := if d.state == Muxed then ClearDenylist(w1, d.peer) else w1;
    assert SameRunning(w, w2) && w2.conns == w1.conns;
    if (d.state == Muxed || d.state == Connected) && d.owner.Some? && d.dial.Some? { GreetRuns(w, w2, c); }
  }

  lemma GreetRuns(w: World, m: World, c: nat)
    requires Wf(m) && SameRunning(w, m) && c < |m.conns| && m.conns[c].owner.Some? && m.conns[c].dial.Some?
    ensures SameRunning(w, Greet(m, c))
  {
    assert OwnerOk(m, c);
  }

  lemma CloseWithSlots(w: World, c: nat, err: bool, o: Option<Op>, env: Env, free: set<PeerId>)
    requires Safe(w, None) && HoldSlots(w, free) && c < |w.conns| && (o.Some? ==> o.value != EndOp)
    ensures HoldSlots(CloseWith(w, c, err, o, env), free)
  {
    if w.conns[c].state != Disconnecting { ExecSlots(w, if err then TFail(c, o) else TClose(c, o), env, free); }
  }

  lemma CompleteSlots(w: World, c: nat, o: Op, ok: bool, env: Env, free: set<PeerId>)
    requires Safe(w, None) && HoldSlots(w, free) && c < |w.conns| && o in w.conns[c].ops
    ensures HoldSlots(Complete(w, c, o, ok, env), free)
  {
    var e := CompleteEnds(w, c, o, ok, env);
    match e
    case Moved(d) => AdvanceSlots(w, c, d, env, free);
    case Reported(m) =>
      SameSlots(w, m, free);
      ExecSlots(m, TError(c), env, free);
    case Noted(m) => SameSlots(w, m, free);
    case Shut(err) => CloseWithSlots(w, c, err, Some(o), env, free);
  }

  lemma {:induction false} CloseEachSlots(w: World, list: seq<nat>, env: Env, free: set<PeerId>)
    requires Safe(w, None) && HoldSlots(w, free) && forall i :: 0 <= i < |list| ==> list[i] < |w.conns|
    ensures HoldSlots(CloseEach(w, list, env), free)
    decreases |list|
  {
    if list != [] {
      CloseWithKeeps(w, list[0], false, None, env);
      CloseWithSlots(w, list[0], false, None, env, free);
      CloseWithGrows(w, list[0], false, None, env);
      CloseEachSlots(CloseWith(w, list[0], false, None, env), list[1..], env, free);
    }
  }

  /** The peer that a turn dials while it is connected. */
  function Freed(t: Turn): set<PeerId> {
    if t.DialTurn? && t.connected then {t.id} else {}
  }

  lemma TurnSlots(w: World, t: Turn, env: Env, free: set<PeerId>)
    requires Safe(w, None) && CanTake(w, t) && HoldSlots(w, free) && Freed(t) <= free
    ensures HoldSlots(Take(w, t, env), free)
  {
    match t
    case DialTurn(id, req, priority, connected, t1, t2) =>
      AddSlots(w, id, req, priority, connected, t1, t2, env, free);
    case CleanTurn(order, isConnected) => CleanSlots(w, order, isConnected, env, free);
    case StopTurn(order) => StopSlotsAll(w, order, env, free);
    case StartTurn => SameSlots(w, w.(running := true), free);
    case ClearTurn(id) => ClearSlots(w, w, id, free);
    case AcceptTurn(id) => AcceptSlots(w, id, free);
    case CompleteTurn(c, op, ok) => CompleteSlots(w, c, op, ok, env, free);
    case CloseTurn(c, err) => CloseWithSlots(w, c, err, None, env, free);
    case HangUpTurn(id) =>
      var list := OfPeer(w.tracked, w.conns, id);
      forall i | 0 <= i < |list| ensures list[i] < |w.conns| { assert list[i] in w.tracked; }
      CloseEachSlots(w, list, env, free);
  }

  lemma ClearSlots(w: World, m: World, id: PeerId, free: set<PeerId>)
    requires Wf(m) && SameRunning(w, m) && HoldSlots(w, free)
    ensures HoldSlots(ClearDenylist(m, id), free)
  {
    SameSlots(w, m, free);
    SameSlots(m, ClearDenylist(m, id), free);
  }

  lemma AcceptSlots(w: World, id: PeerId, free: set<PeerId>)
    requires Wf(w) && HoldSlots(w, free)
    ensures HoldSlots(Accept(w, id), free)
  {
    var m := w.(conns := w.conns + [Inbound(id)], tracked := w.tracked + [|w.conns|]);
    forall c | 0 <= c < |m.conns| ensures OwnerOk(m, c) { if c < |w.conns| { assert OwnerOk(w, c); } }
    ClearSlots(w, m, id, free);
  }

  lemma StopSlotsAll(w: World, order: seq<PeerId>, env: Env, free: set<PeerId>)
    requires Safe(w, None) && Lists(order, w.table)
    ensures HoldSlots(StopManager(w, order, env), free)
  {
    Shutdown.StopDrains(w, order, env);
    QuietSlots(StopManager(w, order, env), free);
  }

  lemma QuietSlots(r: World, free: set<PeerId>)
    requires forall q :: 0 <= q < |r.queues| ==> Quiet(r, q)
    ensures HoldSlots(r, free)
  {
    assert forall q {:trigger r.queues[q]} :: 0 <= q < |r.queues| ==> Quiet(r, q);
  }

  // ---------------------------------------------------------------- runs

  /** The peers that a run dials while they are connected. */
  function FreedIn(run: seq<Scene>): set<PeerId> {
    if run == [] then {} else Freed(run[0].turn) + FreedIn(run[1..])
  }

  lemma {:induction false} PlaySlots(w: World, run: seq<Scene>, free: set<PeerId>)
    requires Safe(w, None) && CanPlay(w, run) && HoldSlots(w, free) && FreedIn(run) <= free
    ensures HoldSlots(Play(w, run), free)
    decreases |run|
  {
    if run != [] {
      var m := Unplay(w, run);
      TurnSlots(w, run[0].turn, run[0].env, free);
      TurnKeeps(w, run[0].turn, run[0].env);
      PlaySlots(m, run[1..], free);
    }
  }

  /** After every run, each running queue holds a slot, or was dialled in the run while its peer was connected. */
  lemma RunningHoldSlots(cfg: Config, run: seq<Scene>, q: nat)
    requires CanPlay(Init(cfg), run) && q < |Play(Init(cfg), run).queues| && Play(Init(cfg), run).queues[q].running
    ensures Play(Init(cfg), run).queues[q].id in Play(Init(cfg), run).dialing
            || Play(Init(cfg), run).queues[q].id in FreedIn(run)
  {
    InitSafe(cfg);
    PlaySlots(Init(cfg), run, FreedIn(run));
  }

  /**
   * In every run in which no peer is dialled while it is connected, exactly the dialing ids have a running queue, each
   * one of its own, so that no more queues run at once than the bound allows.
   */
  lemma DialsAreBounded(cfg: Config, run: seq<Scene>)
    requires CanPlay(Init(cfg), run) && forall i :: 0 <= i < |run| && run[i].turn.DialTurn? ==> !run[i].turn.connected
    ensures var w := Play(Init(cfg), run);
            && |w.dialing| <= cfg.maxParallelDials
            && (forall q {:trigger w.queues[q]} :: 0 <= q < |w.queues| && w.queues[q].running ==>
                  w.queues[q].id in w.dialing)
            && RunningApart(w)
            && (forall id :: id in w.dialing ==>
                  id in w.table && w.table[id] < |w.queues| && w.queues[w.table[id]].running)
  {
    InitSafe(cfg);
    NoneFreed(run);
    PlaySlots(Init(cfg), run, {});
    PlayKeeps(Init(cfg), run);
    PlayConfig(Init(cfg), run);
    RunApart(Play(Init(cfg), run));
  }

  /** No two running queues are for the same peer. */
  ghost predicate RunningApart(w: World) {
    forall p, q {:trigger w.queues[p], w.queues[q]} :: 0 <= p < q < |w.queues| ==>
      !w.queues[p].running || !w.queues[q].running || w.queues[p].id != w.queues[q].id
  }

  lemma RunApart(w: World)
    requires Safe(w, None)
    ensures RunningApart(w)
  {
    forall p, q | 0 <= p < q < |w.queues| && w.queues[p].running && w.queues[q].running
      ensures w.queues[p].id != w.queues[q].id
    {
      assert Attached(w, p) && Attached(w, q);
    }
  }

  lemma {:induction false} NoneFreed(run: seq<Scene>)
    requires forall i :: 0 <= i < |run| && run[i].turn.DialTurn? ==> !run[i].turn.connected
    ensures FreedIn(run) == {}
  {
    if run != [] {
      assert Freed(run[0].turn) == {};
      forall i | 0 <= i < |run[1..]| && run[1..][i].turn.DialTurn? ensures !run[1..][i].turn.connected {
        assert run[1..][i] == run[i + 1];
      }
      NoneFreed(run[1..]);
    }
  }
}

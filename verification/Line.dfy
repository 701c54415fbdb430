/** The normal waiting set is a queue: ids leave it in the order they entered, whatever else happens. */
module Line {
  import opened Basics
  import opened Fsm
  import opened Connection
  import opened Scheduler
  import opened Turns
  import opened Slots
  import opened SafeTurns
  import opened Shutdown

  /** The ids popped so far, followed by those still waiting. */
  function Entered(w: World): seq<PeerId> { w.popped + w.waiting }

  /** A cascade only takes ids from the front, and takes cold ones only when no other waits. */
  ghost predicate Drains(w: World, r: World) {
    && w.popped <= r.popped
    && Entered(r) == Entered(w)
    && (r.cold != w.cold ==> r.waiting == [])
  }

  /** A turn may also let ids in, at the end. */
  ghost predicate InLine(w: World, r: World) {
    w.popped <= r.popped && Entered(w) <= Entered(r)
  }

  lemma InLineTwice(w: World, m: World, r: World)
    requires InLine(w, m) && InLine(m, r)
    ensures InLine(w, r)
  {
  }

  lemma DrainsNothing(w: World, r: World)
    requires Drains(w, r) && w.waiting == []
    ensures r.waiting == [] && r.popped == w.popped
  {
    assert Entered(w) == w.popped;
    assert |Entered(r)| == |r.popped| + |r.waiting|;
  }

  lemma DrainsTwice(w: World, m: World, r: World)
    requires Drains(w, m) && Drains(m, r)
    ensures Drains(w, r)
  {
    if m.waiting == [] { DrainsNothing(m, r); }
  }

  lemma MicroDrains(w: World, t: Task, env: Env)
    requires Wf(w) && TaskOk(w, t) && !t.TFail?
    ensures Drains(w, Micro(w, t, env).0)
  {
    match t
    case TError(c) => assert OwnerOk(w, c);
    case TRun =>
      if w.waiting != [] {
        assert w.waiting == [w.waiting[0]] + w.waiting[1..];
        Associates(w.popped, [w.waiting[0]], w.waiting[1..]);
      }
    case _ =>
  }

  lemma {:induction false} ExecDrains(w: World, t: Task, env: Env)
    requires Wf(w) && TaskOk(w, t)
    ensures Drains(w, Exec(w, t, env))
    decreases Backlog(w), Focus(w, t), Phase(t)
  {
    if t.TFail? {
      ExecDrains(w, TError(t.c), env);
      var r := UnfoldFail(w, t.c, t.op, env);
      ExecDrains(r, TClose(t.c, t.op), env);
      DrainsTwice(w, r, Exec(r, TClose(t.c, t.op), env));
    } else {
      MicroDrains(w, t, env);
      var w1, next := Unfold(w, t, env);
      if next.Some? {
        ExecDrains(w1, next.value, env);
        DrainsTwice(w, w1, Exec(w1, next.value, env));
      }
    }
  }

  lemma AddInLine(w: World, id: PeerId, req: Request, priority: int, connected: bool, t1: int, t2: int, env: Env)
    requires Safe(w, None) && t1 <= t2
    ensures InLine(w, Add(w, id, req, priority, connected, t1, t2, env))
  {
    var m, t := AddParts(w, id, req, priority, connected, t1, t2, env);
    assert InLine(w, m);
    if t.Some? { ExecDrains(m, t.value, env); }
  }

  lemma AdvanceDrains(w: World, c: nat, d: Conn, env: Env)
    requires Wf(w) && c < |w.conns| && d.owner == w.conns[c].owner && d.peer == w.conns[c].peer
    ensures Drains(w, Advance(w, c, d, env))
  {
    AnnouncedBeside(w, c, d);
    assert OwnerOk(w, c);
    var w3 := Announced(w, c, d);
    if Wakes(d).Some? {
      assert OwnerOk(w3, c);
      ExecDrains(w3, Wakes(d).value, env);
    }
  }

  lemma FiredDrains(w: World, c: nat, k: Conn, e: Fsm.Event, env: Env)
    requires Wf(w) && c < |w.conns| && k.owner == w.conns[c].owner && k.peer == w.conns[c].peer
    ensures Drains(w, Fired(w, c, k, e, env))
  {
    match Fire(k, e, env.setup)
    case None =>
      SetConnWf(w, c, k);
      ExecDrains(w.(conns := w.conns[c := k]), TError(c), env);
    case Some(d) =>
      FireKeeps(k, e, env.setup);
      AdvanceDrains(w, c, d, env);
  }

  lemma CloseWithDrains(w: World, c: nat, err: bool, o: Option<Op>, env: Env)
    requires Wf(w) && c < |w.conns|
    ensures Drains(w, CloseWith(w, c, err, o, env))
  {
    if w.conns[c].state != Disconnecting {
      if err { ExecDrains(w, TFail(c, o), env); } else { ExecDrains(w, TClose(c, o), env); }
    }
  }

  lemma CompleteDrains(w: World, c: nat, o: Op, ok: bool, env: Env)
    requires Wf(w) && c < |w.conns|
    ensures Drains(w, Complete(w, c, o, ok, env))
  {
    var k := w.conns[c];
    if o == MuxerCloseOp || (o == IdentifyOp && !ok) { CloseWithDrains(w, c, o == IdentifyOp, Some(o), env); }
    else if o == MuxOp && !ok { FiredDrains(w, c, Without(k, Some(o)), Fsm.Stop, env); }
    else if o == EndOp || (ok && o != IdentifyOp) { FiredDrains(w, c, Delivered(k, o, env.setup), Done, env); }
    else if o != IdentifyOp { CloseWithDrains(w, c, true, Some(o), env); }
  }

  lemma {:induction false} CleanDrains(w: World, order: seq<PeerId>, connected: PeerId -> bool, env: Env)
    requires Wf(w)
    ensures Drains(w, Clean(w, order, connected, env))
    decreases |order|
  {
    if order != [] {
      var id := order[0];
      if id in w.table && Stale(w.queues[w.table[id]], connected(id)) {
        ExecDrains(w, TAbort(w.table[id]), env);
        CleanDrains(Discard(w, id, env), order[1..], connected, env);
        DrainsTwice(w, Discard(w, id, env), Clean(w, order, connected, env));
      } else {
        CleanDrains(w, order[1..], connected, env);
      }
    }
  }

  lemma {:induction false} CloseEachDrains(w: World, list: seq<nat>, env: Env)
    requires Wf(w) && forall i :: 0 <= i < |list| ==> list[i] < |w.conns|
    ensures Drains(w, CloseEach(w, list, env))
    decreases |list|
  {
    if list != [] {
      CloseWithDrains(w, list[0], false, None, env);
      CloseWithGrows(w, list[0], false, None, env);
      var m := CloseWith(w, list[0], false, None, env);
      CloseEachDrains(m, list[1..], env);
      DrainsTwice(w, m, CloseEach(m, list[1..], env));
    }
  }

  /** The turn asks for the peer at a high priority, which takes its id out of the cold set. */
  predicate Promotes(t: Turn, id: PeerId) {
    t.DialTurn? && t.id == id && t.priority <= PRIORITY_HIGH && !t.connected
  }

  /** A cold id stays, or the normal set has become empty. */
  ghost predicate ColdLast(w: World, r: World, id: PeerId) {
    id in w.cold ==> id in r.cold || r.waiting == []
  }

  lemma AddColdLast(w: World, id: PeerId, req: Request, priority: int, connected: bool, t1: int, t2: int, env: Env,
                    x: PeerId)
    requires Safe(w, None) && t1 <= t2 && (x != id || priority > PRIORITY_HIGH || connected)
    ensures ColdLast(w, Add(w, id, req, priority, connected, t1, t2, env), x)
  {
    var m, t := AddParts(w, id, req, priority, connected, t1, t2, env);
    if t.Some? { ExecDrains(m, t.value, env); }
  }

  /** A cold id leaves its set only by a promotion, by a stop, or when no other id waits. */
  lemma TurnColdLast(w: World, t: Turn, env: Env, id: PeerId)
    requires Safe(w, None) && CanTake(w, t) && !t.StopTurn? && !Promotes(t, id)
    ensures ColdLast(w, Take(w, t, env), id)
  {
    match t
    case DialTurn(x, req, priority, connected, t1, t2) => AddColdLast(w, x, req, priority, connected, t1, t2, env, id);
    case CleanTurn(order, isConnected) => CleanDrains(w, order, isConnected, env);
    case StartTurn =>
    case ClearTurn(x) =>
    case AcceptTurn(x) =>
    case CompleteTurn(c, op, ok) => CompleteDrains(w, c, op, ok, env);
    case CloseTurn(c, err) => CloseWithDrains(w, c, err, None, env);
    case HangUpTurn(x) =>
      var list := OfPeer(w.tracked, w.conns, x);
      forall i | 0 <= i < |list| ensures list[i] < |w.conns| { assert list[i] in w.tracked; }
      CloseEachDrains(w, list, env);
  }

  /** No turn but a stop takes an id out of its place. */
  lemma TurnInLine(w: World, t: Turn, env: Env)
    requires Safe(w, None) && CanTake(w, t) && !t.StopTurn?
    ensures InLine(w, Take(w, t, env))
  {
    match t
    case DialTurn(id, req, priority, connected, t1, t2) => AddInLine(w, id, req, priority, connected, t1, t2, env);
    case CleanTurn(order, isConnected) => CleanDrains(w, order, isConnected, env);
    case StartTurn =>
    case ClearTurn(id) =>
    case AcceptTurn(id) =>
    case CompleteTurn(c, op, ok) => CompleteDrains(w, c, op, ok, env);
    case CloseTurn(c, err) => CloseWithDrains(w, c, err, None, env);
    case HangUpTurn(id) =>
      var list := OfPeer(w.tracked, w.conns, id);
      forall i | 0 <= i < |list| ensures list[i] < |w.conns| { assert list[i] in w.tracked; }
      CloseEachDrains(w, list, env);
  }

  /**
   * The id at position `k` of the waiting set in `w` was popped by the (k+1)th pop since, or stands
   * at `k` less the pops since.
   */
  ghost predicate HoldsPlace(w: World, r: World, k: nat)
    requires k < |w.waiting|
  {
    |w.popped| <= |r.popped| &&
    var pops := |r.popped| - |w.popped|;
    if k < pops then r.popped[|w.popped| + k] == w.waiting[k]
    else k - pops < |r.waiting| && r.waiting[k - pops] == w.waiting[k]
  }

  /** What being in line means for one id: it keeps its place, or was popped exactly in its turn. */
  lemma KeepsPlace(w: World, r: World, k: nat)
    requires InLine(w, r) && k < |w.waiting|
    ensures HoldsPlace(w, r, k)
  {
    var place := |w.popped| + k;
    assert Entered(w)[place] == w.waiting[k];
    assert Entered(r)[place] == Entered(w)[place];
  }
}

/**
 * A queue that is denied until a deadline has no requests, and a cascade leaves the denial of a queue
 * without requests alone: so the clean timer never ends such a denial.
 */
module Barring {
  import opened Basics
  import opened Fsm
  import opened Connection
  import opened Scheduler
  import opened Turns
  import opened Slots
  import opened Spared

  // ---------------------------------------------------------------- denied queues are empty

  /** Every queue denied until a deadline is empty, but for one that is about to be aborted. */
  ghost predicate Barred(w: World, hole: Option<nat>) {
    forall q {:trigger w.queues[q]} :: 0 <= q < |w.queues| && w.queues[q].denial.Until? ==>
      w.queues[q].pending == [] || hole == Some(q)
  }

  function Hole(t: Option<Task>): Option<nat> {
    if t.Some? && t.value.TAbort? then Some(t.value.q) else None
  }

  lemma MicroBars(w: World, t: Task, env: Env)
    requires Wf(w) && TaskOk(w, t) && !t.TFail? && Barred(w, Hole(Some(t)))
    ensures var m := Micro(w, t, env); Barred(m.0, Hole(m.1))
  {
    match t
    case TError(c) => ErrorBars(w, c, env);
    case TNext(q) => NextBars(w, q, env);
    case _ =>
  }

  lemma ErrorBars(w: World, c: nat, env: Env)
    requires Wf(w) && c < |w.conns| && Barred(w, None)
    ensures var m := ReportError(w, c, env); Barred(m.0, Hole(m.1))
  {
    assert OwnerOk(w, c);
  }

  lemma NextBars(w: World, q: nat, env: Env)
    requires Wf(w) && q < |w.queues| && Barred(w, None)
    ensures var m := NextDial(w, q, env); Barred(m.0, Hole(m.1))
  {
  }

  lemma {:induction false} ExecBars(w: World, t: Task, env: Env)
    requires Wf(w) && TaskOk(w, t) && Barred(w, Hole(Some(t)))
    ensures Barred(Exec(w, t, env), None)
    decreases Backlog(w), Focus(w, t), Phase(t)
  {
    if t.TFail? {
      ExecBars(w, TError(t.c), env);
      var r := UnfoldFail(w, t.c, t.op, env);
      ExecBars(r, TClose(t.c, t.op), env);
    } else {
      MicroBars(w, t, env);
      var w1, next := Unfold(w, t, env);
      if next.Some? { ExecBars(w1, next.value, env); }
    }
  }

  /** A queue with requests is offered one more only while it is not denied. */
  lemma OfferBars(w: World, q: nat, req: Request, now: int)
    requires q < |w.queues| && Barred(w, None)
    ensures Barred(Offer(w, q, req, now), None)
  {
  }

  lemma AddBars(w: World, id: PeerId, req: Request, priority: int, connected: bool, t1: int, t2: int, env: Env)
    requires Wf(w) && Barred(w, None)
    ensures Barred(Add(w, id, req, priority, connected, t1, t2, env), None)
  {
    var w0 := GetQueue(w, id);
    GetQueueWf(w, id);
    var q := w0.table[id];
    if !ColdRefused(w0, id, priority) {
      var w1 := Offer(w0, q, req, t1);
      OfferWf(w0, q, req, t1);
      OfferBars(w0, q, req, t1);
      if connected { ExecBars(w1, TStart(q), env); } else { PlaceBars(w1, q, id, priority, t2, env); }
    }
  }

  lemma PlaceBars(w: World, q: nat, id: PeerId, priority: int, now: int, env: Env)
    requires Wf(w) && q < |w.queues| && Barred(w, None)
    ensures Barred(Place(w, q, id, priority, now, env), None)
  {
    var (d, allowed) := IsDialAllowed(w.queues[q], now);
    if allowed {
      var w1 := SetQueue(w, q, d);
      SetQueueWf(w, q, d);
      EnqueueWf(w1, id, priority);
      ExecBars(if d.running then w1 else Enqueue(w1, id, priority), TRun, env);
    }
  }

  lemma {:induction false} CleanBars(w: World, order: seq<PeerId>, connected: PeerId -> bool, env: Env)
    requires Wf(w) && Barred(w, None)
    ensures Barred(Clean(w, order, connected, env), None)
    decreases |order|
  {
    if order != [] {
      var x := order[0];
      if x in w.table && Stale(w.queues[w.table[x]], connected(x)) {
        ExecBars(w, TAbort(w.table[x]), env);
        CleanBars(Discard(w, x, env), order[1..], connected, env);
      } else {
        CleanBars(w, order[1..], connected, env);
      }
    }
  }

  lemma {:induction false} DiscardAllBars(w: World, order: seq<PeerId>, env: Env)
    requires Wf(w) && Barred(w, None)
    ensures Barred(DiscardAll(w, order, env), None)
    decreases |order|
  {
    if order != [] {
      var x := order[0];
      if x in w.table {
        ExecBars(w, TAbort(w.table[x]), env);
        DiscardAllBars(Discard(w, x, env), order[1..], env);
      } else {
        DiscardAllBars(w, order[1..], env);
      }
    }
  }

  lemma ClearBars(w: World, id: PeerId)
    requires Wf(w) && Barred(w, None)
    ensures Barred(ClearDenylist(w, id), None)
  {
    GetQueueWf(w, id);
  }

  lemma GreetBars(w: World, c: nat)
    requires Wf(w) && c < |w.conns| && w.conns[c].owner.Some? && w.conns[c].dial.Some? && Barred(w, None)
    ensures Barred(Greet(w, c), None)
  {
    assert OwnerOk(w, c);
  }

  lemma AnnouncedBars(w: World, c: nat, d: Conn)
    requires Wf(w) && c < |w.conns| && d.owner == w.conns[c].owner && d.peer == w.conns[c].peer && Barred(w, None)
    ensures Barred(Announced(w, c, d), None)
  {
    StoreWf(w, c, d);
    var w1 := Store(w, c, d);
    var w2 := if d.state == Muxed then ClearDenylist(w1, d.peer) else w1;
    if d.state == Muxed { ClearBars(w1, d.peer); }
    assert Barred(w2, None) && w2.conns == w1.conns;
    if (d.state == Muxed || d.state == Connected) && d.owner.Some? && d.dial.Some? { GreetBars(w2, c); }
  }

  lemma FiredBars(w: World, c: nat, k: Conn, e: Fsm.Event, env: Env)
    requires Wf(w) && c < |w.conns| && k.owner == w.conns[c].owner && k.peer == w.conns[c].peer && Barred(w, None)
    ensures Barred(Fired(w, c, k, e, env), None)
  {
    match Fire(k, e, env.setup)
    case None =>
      SetConnWf(w, c, k);
      ExecBars(w.(conns := w.conns[c := k]), TError(c), env);
    case Some(d) =>
      FireKeeps(k, e, env.setup);
      AdvanceBars(w, c, d, env);
  }

  lemma AdvanceBars(w: World, c: nat, d: Conn, env: Env)
    requires Wf(w) && c < |w.conns| && d.owner == w.conns[c].owner && d.peer == w.conns[c].peer && Barred(w, None)
    ensures Barred(Advance(w, c, d, env), None)
  {
    AnnouncedBars(w, c, d);
    assert OwnerOk(w, c);
    if Wakes(d).Some? { ExecBars(Announced(w, c, d), Wakes(d).value, env); }
  }

  lemma CloseWithBars(w: World, c: nat, err: bool, o: Option<Op>, env: Env)
    requires Wf(w) && c < |w.conns| && Barred(w, None)
    ensures Barred(CloseWith(w, c, err, o, env), None)
  {
    if w.conns[c].state != Disconnecting { ExecBars(w, if err then TFail(c, o) else TClose(c, o), env); }
  }

  lemma {:induction false} CloseEachBars(w: World, list: seq<nat>, env: Env)
    requires Wf(w) && (forall i :: 0 <= i < |list| ==> list[i] < |w.conns|) && Barred(w, None)
    ensures Barred(CloseEach(w, list, env), None)
    decreases |list|
  {
    if list != [] {
      CloseWithGrows(w, list[0], false, None, env);
      CloseWithBars(w, list[0], false, None, env);
      CloseEachBars(CloseWith(w, list[0], false, None, env), list[1..], env);
    }
  }

  lemma CompleteBars(w: World, c: nat, o: Op, ok: bool, env: Env)
    requires Wf(w) && c < |w.conns| && Barred(w, None)
    ensures Barred(Complete(w, c, o, ok, env), None)
  {
    var k := w.conns[c];
    if o == MuxerCloseOp || (o == IdentifyOp && !ok) { CloseWithBars(w, c, o == IdentifyOp, Some(o), env); }
    else if o == MuxOp && !ok { FiredBars(w, c, Without(k, Some(o)), Fsm.Stop, env); }
    else if o == EndOp || (ok && o != IdentifyOp) { FiredBars(w, c, Delivered(k, o, env.setup), Done, env); }
    else if o != IdentifyOp { CloseWithBars(w, c, true, Some(o), env); }
  }

  /** Every turn keeps the queues empty that are denied until a deadline. */
  lemma TurnBars(w: World, t: Turn, env: Env)
    requires Wf(w) && CanTake(w, t) && Barred(w, None)
    ensures Barred(Take(w, t, env), None)
  {
    match t
    case DialTurn(id, req, priority, connected, t1, t2) => AddBars(w, id, req, priority, connected, t1, t2, env);
    case CleanTurn(order, isConnected) => CleanBars(w, order, isConnected, env);
    case StopTurn(order) =>
      SameWf(w, w.(running := false, waiting := [], cold := []));
      DiscardAllBars(w.(running := false, waiting := [], cold := []), order, env);
    case StartTurn =>
    case ClearTurn(id) => ClearBars(w, id);
    case AcceptTurn(id) => AcceptBars(w, id);
    case CompleteTurn(c, op, ok) => CompleteBars(w, c, op, ok, env);
    case CloseTurn(c, err) => CloseWithBars(w, c, err, None, env);
    case HangUpTurn(id) =>
      var list := OfPeer(w.tracked, w.conns, id);
      forall i | 0 <= i < |list| ensures list[i] < |w.conns| { assert list[i] in w.tracked; }
      CloseEachBars(w, list, env);
  }

  lemma AcceptBars(w: World, id: PeerId)
    requires Wf(w) && Barred(w, None)
    ensures Barred(Accept(w, id), None)
  {
    var m := w.(conns := w.conns + [Inbound(id)], tracked := w.tracked + [|w.conns|]);
    forall c | 0 <= c < |m.conns| ensures OwnerOk(m, c) { if c < |w.conns| { assert OwnerOk(w, c); } }
    ClearBars(m, id);
  }

  // ---------------------------------------------------------------- queues without requests

  /** The task reports an error on a connection that the queue owns. */
  predicate Errs(w: World, t: Task, q: nat)
    requires TaskOk(w, t)
  {
    match t
    case TFail(c, _) => w.conns[c].owner == Some(q)
    case TError(c) => w.conns[c].owner == Some(q)
    case _ => false
  }

  /** The queue may have started or stopped, and is otherwise as it was. */
  ghost predicate Idles(w: World, r: World, q: nat) {
    q < |w.queues| == |r.queues| && r.queues[q] == w.queues[q].(running := r.queues[q].running)
  }

  lemma MicroIdles(w: World, t: Task, env: Env, q: nat)
    requires Wf(w) && TaskOk(w, t) && !t.TFail? && q < |w.queues| && w.queues[q].pending == [] && !Errs(w, t, q)
    ensures var m := Micro(w, t, env);
            Idles(w, m.0, q) && (m.1.Some? ==> TaskOk(m.0, m.1.value) && !Errs(m.0, m.1.value, q))
  {
    MicroShrinks(w, t, env);
    match t
    case TError(c) => ErrorSpares(w, c, env, q);
    case TNext(p) => NextIdles(w, p, env, q);
    case _ =>
  }

  lemma NextIdles(w: World, p: nat, env: Env, q: nat)
    requires Wf(w) && p < |w.queues| && q < |w.queues| && w.queues[q].pending == []
    ensures var m := NextDial(w, p, env);
            Idles(w, m.0, q) && (m.1.Some? ==> TaskOk(m.0, m.1.value) && !Errs(m.0, m.1.value, q))
  {
  }

  /** A cascade can start and stop a queue without requests, and deny it only by an error on its own connection. */
  lemma {:induction false} ExecIdles(w: World, t: Task, env: Env, q: nat)
    requires Wf(w) && TaskOk(w, t) && q < |w.queues| && w.queues[q].pending == [] && !Errs(w, t, q)
    ensures Idles(w, Exec(w, t, env), q)
    decreases Backlog(w), Focus(w, t), Phase(t)
  {
    if t.TFail? {
      ExecIdles(w, TError(t.c), env, q);
      var r := UnfoldFail(w, t.c, t.op, env);
      ExecIdles(r, TClose(t.c, t.op), env, q);
    } else {
      MicroIdles(w, t, env, q);
      var w1, next := Unfold(w, t, env);
      if next.Some? { ExecIdles(w1, next.value, env, q); }
    }
  }

}

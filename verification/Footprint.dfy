/** What a turn leaves alone: the connections it is not about; and the turns that change one thing only. */
module Footprint {
  import opened Basics
  import opened Fsm
  import opened Connection
  import opened Scheduler
  import opened Turns
  import opened Slots
  import opened SafeTurns
  import opened Runs
  import Shutdown

  /** The connection is as it was. */
  ghost predicate Kept(w: World, r: World, k: nat) {
    k < |w.conns| && k < |r.conns| && r.conns[k] == w.conns[k]
  }

  lemma ExecLeaves(w: World, m: World, t: Task, env: Env, k: nat)
    requires Kept(w, m, k) && Wf(m) && TaskOk(m, t) && Target(t) != Some(k)
    ensures Kept(w, Exec(m, t, env), k)
  {
    ExecFrames(m, t, env, k);
  }

  lemma AddTask(w: World, id: PeerId, req: Request, priority: int, connected: bool, t1: int, t2: int, env: Env)
    requires Wf(w)
    ensures forall k :: 0 <= k < |w.conns| ==> Kept(w, Add(w, id, req, priority, connected, t1, t2, env), k)
  {
    var w0 := GetQueue(w, id);
    GetQueueWf(w, id);
    var q := w0.table[id];
    if !ColdRefused(w0, id, priority) {
      var w1 := Offer(w0, q, req, t1);
      OfferWf(w0, q, req, t1);
      forall k | 0 <= k < |w.conns| ensures Kept(w, Add(w, id, req, priority, connected, t1, t2, env), k) {
        if connected { ExecLeaves(w, w1, TStart(q), env, k); } else { PlaceLeaves(w, w1, q, id, priority, t2, env, k); }
      }
    }
  }

  lemma PlaceLeaves(w: World, m: World, q: nat, id: PeerId, priority: int, now: int, env: Env, k: nat)
    requires Kept(w, m, k) && Wf(m) && q < |m.queues|
    ensures Kept(w, Place(m, q, id, priority, now, env), k)
  {
    var (d, allowed) := IsDialAllowed(m.queues[q], now);
    if allowed {
      var w1 := SetQueue(m, q, d);
      SetQueueWf(m, q, d);
      EnqueueWf(w1, id, priority);
      ExecLeaves(w, if d.running then w1 else Enqueue(w1, id, priority), TRun, env, k);
    }
  }

  lemma {:induction false} CleanLeavesConns(w: World, order: seq<PeerId>, connected: PeerId -> bool, env: Env, k: nat)
    requires Wf(w) && k < |w.conns|
    ensures Kept(w, Clean(w, order, connected, env), k)
    decreases |order|
  {
    if order != [] {
      var x := order[0];
      if x in w.table && Stale(w.queues[w.table[x]], connected(x)) {
        ExecLeaves(w, w, TAbort(w.table[x]), env, k);
        CleanLeavesConns(Discard(w, x, env), order[1..], connected, env, k);
      } else {
        CleanLeavesConns(w, order[1..], connected, env, k);
      }
    }
  }

  lemma AdvanceLeaves(w: World, c: nat, d: Conn, env: Env, k: nat)
    requires Wf(w) && c < |w.conns| && d.owner == w.conns[c].owner && d.peer == w.conns[c].peer
             && k < |w.conns| && k != c
    ensures Kept(w, Advance(w, c, d, env), k)
  {
    var m := Announced(w, c, d);
    assert m.conns == w.conns[c := Disarm(d)];
    assert OwnerOk(w, c);
    if Wakes(d).Some? { ExecLeaves(w, m, Wakes(d).value, env, k); }
  }

  lemma CloseWithLeaves(w: World, c: nat, err: bool, o: Option<Op>, env: Env, k: nat)
    requires Wf(w) && c < |w.conns| && k < |w.conns| && k != c
    ensures Kept(w, CloseWith(w, c, err, o, env), k)
  {
    if w.conns[c].state != Disconnecting { ExecLeaves(w, w, if err then TFail(c, o) else TClose(c, o), env, k); }
  }

  lemma FiredLeaves(w: World, c: nat, d: Conn, e: Fsm.Event, env: Env, k: nat)
    requires Wf(w) && c < |w.conns| && d.owner == w.conns[c].owner && d.peer == w.conns[c].peer
    requires k < |w.conns| && k != c
    ensures Kept(w, Fired(w, c, d, e, env), k)
  {
    match Fire(d, e, env.setup)
    case None =>
      SetConnWf(w, c, d);
      ExecLeaves(w, w.(conns := w.conns[c := d]), TError(c), env, k);
    case Some(next) =>
      FireKeeps(d, e, env.setup);
      AdvanceLeaves(w, c, next, env, k);
  }

  lemma CompleteLeaves(w: World, c: nat, o: Op, ok: bool, env: Env, k: nat)
    requires Wf(w) && c < |w.conns| && k < |w.conns| && k != c
    ensures Kept(w, Complete(w, c, o, ok, env), k)
  {
    var d := w.conns[c];
    if o == MuxerCloseOp || (o == IdentifyOp && !ok) { CloseWithLeaves(w, c, o == IdentifyOp, Some(o), env, k); }
    else if o == MuxOp && !ok { FiredLeaves(w, c, Without(d, Some(o)), Fsm.Stop, env, k); }
    else if o == EndOp || (ok && o != IdentifyOp) { FiredLeaves(w, c, Delivered(d, o, env.setup), Done, env, k); }
    else if o != IdentifyOp { CloseWithLeaves(w, c, true, Some(o), env, k); }
  }

  lemma {:induction false} CloseEachLeaves(w: World, list: seq<nat>, env: Env, k: nat)
    requires Wf(w) && (forall i :: 0 <= i < |list| ==> list[i] < |w.conns|) && k < |w.conns| && k !in list
    ensures Kept(w, CloseEach(w, list, env), k)
    decreases |list|
  {
    if list != [] {
      CloseWithGrows(w, list[0], false, None, env);
      CloseWithLeaves(w, list[0], false, None, env, k);
      CloseEachLeaves(CloseWith(w, list[0], false, None, env), list[1..], env, k);
    }
  }

  /** A turn is about the connection: it completes one of its operations, closes it, or hangs up its peer. */
  predicate IsAbout(w: World, t: Turn, k: nat)
    requires k < |w.conns|
  {
    match t
    case CompleteTurn(c, _, _) => c == k
    case CloseTurn(c, _) => c == k
    case HangUpTurn(id) => w.conns[k].peer == id
    case _ => false
  }

  /**
   * In every reachable state, a turn leaves every connection exactly as it is, and tracked or not as it is, that it
   * does not complete an operation of, close, or hang up the peer of; whatever else the turn sets off.
   */
  lemma TurnLeaves(cfg: Config, w: World, t: Turn, env: Env, k: nat) returns (r: World)
    requires Reachable(cfg, w) && CanTake(w, t) && k < |w.conns| && !IsAbout(w, t, k)
    ensures r == Take(w, t, env) && k < |r.conns| && r.conns[k] == w.conns[k]
    ensures k in r.tracked <==> k in w.tracked
  {
    ReachableSafe(cfg, w);
    TurnKept(w, t, env, k);
    TurnKeeps(w, t, env);
    r := Take(w, t, env);
    assert ConnsOk(w) && ConnsOk(r);
  }

  lemma TurnKept(w: World, t: Turn, env: Env, k: nat)
    requires Safe(w, None) && CanTake(w, t) && k < |w.conns| && !IsAbout(w, t, k)
    ensures Kept(w, Take(w, t, env), k)
  {
    match t
    case DialTurn(id, req, priority, connected, t1, t2) => AddTask(w, id, req, priority, connected, t1, t2, env);
    case CleanTurn(order, isConnected) => CleanLeavesConns(w, order, isConnected, env, k);
    case StopTurn(order) => Shutdown.StopDrains(w, order, env);
    case StartTurn =>
    case ClearTurn(id) =>
    case AcceptTurn(id) =>
    case CompleteTurn(c, op, ok) => CompleteLeaves(w, c, op, ok, env, k);
    case CloseTurn(c, err) => CloseWithLeaves(w, c, err, None, env, k);
    case HangUpTurn(id) =>
      var list := OfPeer(w.tracked, w.conns, id);
      forall i | 0 <= i < |list| ensures list[i] < |w.conns| { assert list[i] in w.tracked; }
      CloseEachLeaves(w, list, env, k);
  }

  // ---------------------------------------------------------------- turns that change one thing

  /** The queue of the peer is not denied and has no failures; every other queue, and all else, is as before. */
  ghost predicate OnlyPardons(w: World, r: World, id: PeerId) {
    && Wf(r) && r == w.(table := r.table, queues := r.queues) && id in r.table
    && (if id in w.table then
          && r.table == w.table && |r.queues| == |w.queues| && w.table[id] < |w.queues|
          && r.queues == w.queues[w.table[id] := w.queues[w.table[id]].(denial := NotDenied, denials := 0)]
        else
          && r.table == w.table[id := |w.queues|]
          && r.queues == w.queues + [DialQueue(id, [], NotDenied, 0, false)])
  }

  /** Clearing the denylist pardons one peer and changes nothing else. */
  lemma ClearPardons(w: World, id: PeerId, env: Env) returns (r: World)
    requires Wf(w)
    ensures r == Take(w, ClearTurn(id), env) && OnlyPardons(w, r, id)
  {
    GetQueueWf(w, id);
    r := Take(w, ClearTurn(id), env);
  }

  /** An inbound connection is muxed, tracked last, owned by no queue, and pardons its peer. */
  lemma AcceptPardons(w: World, id: PeerId, env: Env) returns (r: World)
    requires Wf(w)
    ensures r == Take(w, AcceptTurn(id), env)
    ensures OnlyPardons(w.(conns := w.conns +
                        [Conn(id, None, None, Muxed, true, false, false, {MuxerCloseOp}, [Muxed])],
                           tracked := w.tracked + [|w.conns|]), r, id)
  {
    var m := w.(conns := w.conns + [Inbound(id)], tracked := w.tracked + [|w.conns|]);
    forall c | 0 <= c < |m.conns| ensures OwnerOk(m, c) { if c < |w.conns| { assert OwnerOk(w, c); } }
    var a := ClearPardons(m, id, env);
    r := Take(w, AcceptTurn(id), env);
  }

  /** Starting the manager sets its flag and nothing else. */
  lemma StartOnlyFlags(w: World, env: Env)
    requires Wf(w)
    ensures Take(w, StartTurn, env) == w.(running := true)
  {
  }
}

/**
 * The invariant that manager, queues and connections keep together: the id sets exclude each other
 * and respect their bounds, no slot leaks, and no request is stranded. In the middle of a cascade
 * one queue, the hole, may be exempt: the one that is being started or asked for its next dial.
 */
module Slots {
  import opened Basics
  import opened Fsm
  import opened Connection
  import opened Scheduler

  /** The queue is the one the table holds for its id. */
  predicate Attached(w: World, q: nat)
    requires q < |w.queues|
  {
    w.queues[q].id in w.table && w.table[w.queues[q].id] == q
  }

  predicate LiveFor(w: World, c: nat, q: nat) {
    c < |w.conns| && w.conns[c].owner == Some(q) && InFlight(w.conns[c].state)
  }

  /** The queue owns a connection in flight, whose `next` is armed by ConnOk. */
  ghost predicate HasLive(w: World, q: nat) {
    exists c: nat :: LiveFor(w, c, q)
  }

  /** The three id sets exclude each other and respect their bounds. */
  ghost predicate SetsOk(w: World) {
    && Distinct(w.waiting) && Distinct(w.cold)
    && (forall id :: id in w.waiting ==> id !in w.cold && id !in w.dialing)
    && (forall id :: id in w.cold ==> id !in w.dialing)
    && |w.dialing| <= w.cfg.maxParallelDials
    && |w.cold| <= w.cfg.maxColdCalls
  }

  /** Every slot is held by a running queue. */
  ghost predicate DialingOk(w: World, hole: Option<nat>) {
    forall id :: id in w.dialing ==>
      id in w.table && w.table[id] < |w.queues| && (w.queues[w.table[id]].running || hole == Some(w.table[id]))
  }

  /** Every running queue is in the table and has a dial in flight. */
  ghost predicate RunningOk(w: World, hole: Option<nat>) {
    forall q {:trigger w.queues[q]} :: 0 <= q < |w.queues| && w.queues[q].running ==>
      Attached(w, q) && (hole == Some(q) || HasLive(w, q))
  }

  /** Every queue with requests is in the table and running, or waits for a slot. */
  ghost predicate PendingOk(w: World, hole: Option<nat>) {
    forall q {:trigger w.queues[q]} :: 0 <= q < |w.queues| && w.queues[q].pending != [] ==>
      Attached(w, q) &&
      (w.queues[q].running || w.queues[q].id in w.waiting || w.queues[q].id in w.cold || hole == Some(q))
  }

  /** Every connection is in order, and tracked until it has closed. */
  ghost predicate ConnsOk(w: World) {
    && Distinct(w.tracked)
    && (forall c {:trigger w.conns[c]} :: 0 <= c < |w.conns| ==>
          ConnOk(w.conns[c]) && (c in w.tracked <==> w.conns[c].state != Disconnected))
  }

  ghost predicate Safe(w: World, hole: Option<nat>) {
    Wf(w) && SetsOk(w) && DialingOk(w, hole) && RunningOk(w, hole) && PendingOk(w, hole) && ConnsOk(w)
  }

  ghost predicate Closable(w: World, c: nat, o: Option<Op>) {
    c < |w.conns| && w.conns[c].state != Disconnecting && (o.Some? ==> o.value != EndOp)
  }

  /** What holds when a task is about to run. */
  ghost predicate Ready(w: World, t: Task) {
    Wf(w) && TaskOk(w, t) &&
    match t
    case TRun => Safe(w, None)
    case TStart(q) => Attached(w, q) && Safe(w, if w.queues[q].running then None else Some(q))
    case TNext(q) => Safe(w, if w.queues[q].running then Some(q) else None)
    case TStop(q) => Safe(w, if w.queues[q].running then Some(q) else None)
      && (w.queues[q].running ==> w.queues[q].pending == [])
    case TAbort(q) => Safe(w, None)
    case TError(c) => Safe(w, None)
    case TClose(c, o) => Safe(w, None) && Closable(w, c, o)
    case TFail(c, o) => Safe(w, None) && Closable(w, c, o)
  }

  /** What a call promises to the call it ends with, or to the turn. */
  ghost predicate Leaves(m: (World, Option<Task>)) {
    if m.1.Some? then Ready(m.0, m.1.value) else Safe(m.0, None)
  }

  lemma DistinctTail<T>(s: seq<T>)
    requires Distinct(s) && s != []
    ensures Distinct(s[1..]) && s[0] !in s[1..]
  {
  }

  lemma HolesCover(w: World, q: nat)
    requires Safe(w, None)
    ensures Safe(w, Some(q))
  {
  }

  // ---------------------------------------------------------------- one call keeps it

  lemma LaunchKeeps(w: World, id: PeerId)
    requires Wf(w) && SetsOk(w) && id !in w.waiting && id !in w.cold && id !in w.dialing
    requires |w.dialing| < w.cfg.maxParallelDials
    requires var hole := if id in w.table then Some(w.table[id]) else None;
             DialingOk(w, None) && RunningOk(w, None) && PendingOk(w, hole) && ConnsOk(w)
    ensures Leaves(Launch(w, id))
  {
    if id in w.table {
      var q := w.table[id];
      var w1 := w.(dialing := w.dialing + {id});
      assert |w1.dialing| == |w.dialing| + 1;
      SlotTaken(w, w1, q);
    }
  }

  lemma SlotTaken(w: World, w1: World, q: nat)
    requires Wf(w) && q < |w.queues| && Attached(w, q) && w1 == w.(dialing := w.dialing + {w.queues[q].id})
    requires SetsOk(w1) && DialingOk(w, None) && RunningOk(w, None) && PendingOk(w, Some(q)) && ConnsOk(w)
    ensures Ready(w1, TStart(q))
  {
    forall c | 0 <= c < |w1.conns| ensures OwnerOk(w1, c) { assert OwnerOk(w, c); }
    forall k | 0 <= k < |w1.queues| && w1.queues[k].running
      ensures Attached(w1, k) && HasLive(w1, k)
    {
      assert Attached(w, k);
      LiveKept(w, w1, k);
    }
    forall k | 0 <= k < |w1.queues| && w1.queues[k].pending != []
      ensures Attached(w1, k)
    { assert Attached(w, k); }
  }

  lemma LiveKept(w: World, r: World, q: nat)
    requires HasLive(w, q)
    requires forall c: nat :: LiveFor(w, c, q) ==> LiveFor(r, c, q)
    ensures HasLive(r, q)
  {
    var c: nat :| LiveFor(w, c, q);
    assert LiveFor(r, c, q);
  }

  lemma RunKeeps(w: World)
    requires Ready(w, TRun)
    ensures Leaves(RunOnce(w))
  {
    if w.running && |w.dialing| < w.cfg.maxParallelDials {
      if w.waiting != [] {
        var id := w.waiting[0];
        var w1 := w.(waiting := w.waiting[1..], popped := w.popped + [id]);
        DistinctTail(w.waiting);
        assert id in w.waiting;
        PopKeeps(w, w1, id);
        LaunchKeeps(w1, id);
      } else if w.cold != [] {
        var id := w.cold[0];
        var w1 := w.(cold := w.cold[1..]);
        DistinctTail(w.cold);
        assert id in w.cold;
        PopKeeps(w, w1, id);
        LaunchKeeps(w1, id);
      }
    }
  }

  /** Taking an id out of a waiting set exempts at most its own queue. */
  lemma PopKeeps(w: World, w1: World, id: PeerId)
    requires Safe(w, None)
    requires w1 == w.(waiting := w1.waiting, cold := w1.cold, popped := w1.popped)
    requires forall x :: x in w1.waiting ==> x in w.waiting
    requires forall x :: x in w1.cold ==> x in w.cold
    requires forall x :: x in w.waiting ==> x == id || x in w1.waiting
    requires forall x :: x in w.cold ==> x == id || x in w1.cold
    requires Distinct(w1.waiting) && Distinct(w1.cold) && |w1.cold| <= |w.cold|
    ensures Wf(w1) && SetsOk(w1) && ConnsOk(w1) && DialingOk(w1, None) && RunningOk(w1, None)
    ensures PendingOk(w1, if id in w.table then Some(w.table[id]) else None)
  {
    forall c | 0 <= c < |w1.conns| ensures OwnerOk(w1, c) { assert OwnerOk(w, c); }
    forall k | 0 <= k < |w1.queues| && w1.queues[k].running
      ensures Attached(w1, k) && HasLive(w1, k)
    {
      assert Attached(w, k);
      LiveKept(w, w1, k);
    }
    forall k | 0 <= k < |w1.queues| && w1.queues[k].pending != []
      ensures Attached(w1, k)
    { assert Attached(w, k); }
  }

  /** Only one queue differs, and it keeps its id. */
  ghost predicate OneDiffers(w: World, r: World, q: nat) {
    && q < |w.queues| == |r.queues| && r.queues[q].id == w.queues[q].id
    && r.conns == w.conns && r.table == w.table && r.waiting == w.waiting && r.cold == w.cold
    && (forall k :: 0 <= k < |w.queues| && k != q ==> r.queues[k] == w.queues[k])
  }

  predicate IdWaits(w: World, q: nat)
    requires q < |w.queues|
  {
    w.queues[q].id in w.waiting || w.queues[q].id in w.cold
  }

  lemma QueueRunning(w: World, r: World, q: nat, hole: Option<nat>, hole': Option<nat>)
    requires RunningOk(w, hole) && OneDiffers(w, r, q) && (hole == None || hole == Some(q))
    requires r.queues[q].running ==> Attached(w, q) && (hole' == Some(q) || HasLive(w, q))
    ensures RunningOk(r, hole')
  {
    forall k | 0 <= k < |r.queues| && r.queues[k].running
      ensures Attached(r, k) && (hole' == Some(k) || HasLive(r, k))
    {
      if k != q { assert w.queues[k].running; }
      assert Attached(w, k);
      if hole' != Some(k) { LiveKept(w, r, k); }
    }
  }

  lemma QueuePending(w: World, r: World, q: nat, hole: Option<nat>, hole': Option<nat>)
    requires PendingOk(w, hole) && OneDiffers(w, r, q) && (hole == None || hole == Some(q))
    requires r.queues[q].pending != [] ==> Attached(w, q) && (r.queues[q].running || hole' == Some(q) || IdWaits(w, q))
    ensures PendingOk(r, hole')
  {
    forall k | 0 <= k < |r.queues| && r.queues[k].pending != []
      ensures Attached(r, k)
      ensures r.queues[k].running || r.queues[k].id in r.waiting || r.queues[k].id in r.cold || hole' == Some(k)
    {
      if k != q { assert w.queues[k].pending != []; }
      assert Attached(w, k);
    }
  }

  lemma QueueDialing(w: World, r: World, q: nat, hole: Option<nat>, hole': Option<nat>)
    requires TableOk(w) && DialingOk(w, hole) && OneDiffers(w, r, q) && r.dialing <= w.dialing
    requires hole == None || hole == Some(q)
    requires w.queues[q].id in r.dialing && Attached(w, q) ==> r.queues[q].running || hole' == Some(q)
    ensures DialingOk(r, hole')
  {
    forall id | id in r.dialing
      ensures id in r.table && r.table[id] < |r.queues| && (r.queues[r.table[id]].running || hole' == Some(r.table[id]))
    {
      assert id in w.dialing;
      assert w.queues[w.table[id]].id == id;
    }
  }

  /** Changing one queue keeps the invariant when its own entry is right afterwards. */
  lemma QueueChange(w: World, r: World, q: nat, hole: Option<nat>, hole': Option<nat>)
    requires Safe(w, hole) && OneDiffers(w, r, q)
    requires r == w.(queues := r.queues, dialing := r.dialing, log := r.log)
    requires r.dialing <= w.dialing && |r.dialing| <= |w.dialing|
    requires (hole == None || hole == Some(q)) && (hole' == None || hole' == Some(q))
    requires w.queues[q].id in r.dialing && Attached(w, q) ==> r.queues[q].running || hole' == Some(q)
    requires r.queues[q].running ==> Attached(w, q) && (hole' == Some(q) || HasLive(w, q))
    requires r.queues[q].pending != [] ==> Attached(w, q) && (r.queues[q].running || hole' == Some(q) || IdWaits(w, q))
    ensures Safe(r, hole')
  {
    OwnersKept(w, r);
    QueueDialing(w, r, q, hole, hole');
    QueueRunning(w, r, q, hole, hole');
    QueuePending(w, r, q, hole, hole');
  }

  lemma StartKeeps(w: World, q: nat)
    requires Ready(w, TStart(q))
    ensures Leaves(StartQueue(w, q))
  {
    if !w.queues[q].running {
      QueueChange(w, StartQueue(w, q).0, q, Some(q), Some(q));
    }
  }

  lemma StopKeeps(w: World, q: nat)
    requires Ready(w, TStop(q))
    ensures Leaves(StopQueue(w, q))
  {
    if w.queues[q].running {
      QueueChange(w, StopQueue(w, q).0, q, Some(q), None);
    }
  }

  lemma AbortKeeps(w: World, q: nat)
    requires Ready(w, TAbort(q))
    ensures Leaves(AbortQueue(w, q))
  {
    var w1 := AbortQueue(w, q).0;
    if w.queues[q].running { assert Attached(w, q); }
    QueueChange(w, w1, q, None, None);
    HolesCover(w1, q);
  }

  /** Changing one connection keeps the invariant when its queue, unless exempt, stays live. */
  lemma ConnChange(w: World, r: World, c: nat, hole': Option<nat>)
    requires Safe(w, None) && c < |w.conns|
    requires r == w.(conns := r.conns, tracked := r.tracked)
    requires |r.conns| == |w.conns| && ConnOk(r.conns[c])
    requires r.conns[c].owner == w.conns[c].owner && r.conns[c].peer == w.conns[c].peer
    requires forall k :: 0 <= k < |w.conns| && k != c ==> r.conns[k] == w.conns[k]
    requires Distinct(r.tracked)
             && forall k :: k in r.tracked <==> k in w.tracked && (k == c ==> r.conns[c].state != Disconnected)
    requires w.conns[c].state == Disconnected ==> r.conns[c].state == Disconnected
    requires InFlight(r.conns[c].state) || !InFlight(w.conns[c].state) || hole' == w.conns[c].owner
    ensures Safe(r, hole')
  {
    forall k | 0 <= k < |r.conns| ensures OwnerOk(r, k) { assert OwnerOk(w, k); }
    forall i | 0 <= i < |r.tracked| ensures r.tracked[i] < |r.conns| {
      assert r.tracked[i] in r.tracked;
      assert r.tracked[i] in w.tracked;
    }
    forall k | 0 <= k < |r.conns| ensures ConnOk(r.conns[k]) && (k in r.tracked <==> r.conns[k].state != Disconnected) {
      assert ConnOk(w.conns[k]);
    }
    ConnRunning(w, r, c, hole');
    forall k | 0 <= k < |r.queues| && r.queues[k].pending != []
      ensures Attached(r, k)
    { assert Attached(w, k); }
  }

  lemma ConnRunning(w: World, r: World, c: nat, hole': Option<nat>)
    requires RunningOk(w, None) && c < |w.conns| == |r.conns| && r.queues == w.queues && r.table == w.table
    requires forall k :: 0 <= k < |w.conns| && k != c ==> r.conns[k] == w.conns[k]
    requires r.conns[c].owner == w.conns[c].owner
    requires InFlight(r.conns[c].state) || !InFlight(w.conns[c].state) || hole' == w.conns[c].owner
    ensures RunningOk(r, hole')
  {
    forall k | 0 <= k < |r.queues| && r.queues[k].running
      ensures Attached(r, k) && (hole' == Some(k) || HasLive(r, k))
    {
      assert Attached(w, k);
      if hole' != Some(k) { LiveKept(w, r, k); }
    }
  }

  lemma RemoveDistinct<T>(s: seq<T>, x: T)
    requires Distinct(s)
    ensures Distinct(Remove(s, x))
    ensures forall y :: y in Remove(s, x) <==> y in s && y != x
  {
    if s != [] {
      DistinctTail(s);
      if s[0] != x {
        RemoveDistinct(s[1..], x);
        assert forall y :: y in s <==> y == s[0] || y in s[1..];
      } else {
        assert forall y :: y in s <==> y == s[0] || y in s[1..];
      }
    }
  }

  /** A transition stored and its queue woken when the dial is over. */
  lemma StoreKeeps(w: World, c: nat, d: Conn)
    requires Safe(w, None) && c < |w.conns|
    requires ConnOk(Disarm(d)) && Further(w.conns[c], d)
    requires w.conns[c].state == Disconnected ==> d.state == Disconnected
    ensures Leaves((Store(w, c, d), Wakes(d)))
  {
    var r := Store(w, c, d);
    var k := w.conns[c];
    assert ConnOk(k) && OwnerOk(w, c);
    RemoveDistinct(w.tracked, c);
    var hole := if InFlight(k.state) && !InFlight(d.state) then k.owner else None;
    ConnChange(w, r, c, hole);
    if Wakes(d).Some? {
      var q := k.owner.value;
      if !r.queues[q].running { Unholed(r, q); }
    }
  }

  /** A queue that is not running needs no exemption, unless it was just taken out of a set. */
  lemma Unholed(w: World, q: nat)
    requires Safe(w, Some(q)) && q < |w.queues| && !w.queues[q].running
    requires DialingOk(w, None) && PendingOk(w, None)
    ensures Safe(w, None)
  {
  }

  lemma CloseKeeps(w: World, c: nat, o: Option<Op>, env: Env)
    requires Ready(w, TClose(c, o))
    ensures Leaves(CloseConn(w, c, o, env))
  {
    assert ConnOk(w.conns[c]);
    Disconnects(w.conns[c], o, env.setup);
    StoreKeeps(w, c, Fire(Without(w.conns[c], o), Disconnect, env.setup).value);
  }

  lemma ErrorKeeps(w: World, c: nat, env: Env)
    requires Ready(w, TError(c))
    ensures Leaves(ReportError(w, c, env))
  {
    var k := w.conns[c];
    if k.errorArmed && k.owner.Some? {
      assert ConnOk(k) && OwnerOk(w, c);
      var w1 := w.(conns := w.conns[c := k.(errorArmed := false)]);
      ConnChange(w, w1, c, None);
      if !env.keeps(c) {
        var q := k.owner.value;
        DenyKeeps(w1, q, Denied(w.queues[q], w.cfg, env.now(c), env.draw(c)));
      }
    }
  }

  /** A denial changes nothing that the invariant is about. */
  lemma DenyKeeps(w: World, q: nat, d: DialQueue)
    requires Safe(w, None) && q < |w.queues|
    requires d == w.queues[q].(denial := d.denial, denials := d.denials)
    ensures Safe(SetQueue(w, q, d), None)
  {
    if d.running || d.pending != [] { assert Attached(w, q); }
    QueueChange(w, SetQueue(w, q, d), q, None, None);
  }

  /** The first request taken from a running queue, before a connection is found for it. */
  lemma TakeKeeps(w: World, q: nat, log: seq<Entry>)
    requires Safe(w, Some(q)) && q < |w.queues| && w.queues[q].running && w.queues[q].pending != []
    ensures Safe(SetQueue(w, q, w.queues[q].(pending := w.queues[q].pending[1..])).(log := log), Some(q))
  {
    assert Attached(w, q);
    QueueChange(w, SetQueue(w, q, w.queues[q].(pending := w.queues[q].pending[1..])).(log := log), q, Some(q), Some(q));
  }

  /** A new dial in flight fills the hole. */
  lemma DialKeeps(w: World, q: nat, req: Request)
    requires Safe(w, Some(q)) && q < |w.queues| && w.queues[q].running
    ensures var r := w.(conns := w.conns + [Dialled(w.queues[q].id, q, req)], tracked := w.tracked + [|w.conns|]);
            Safe(r, None) && LiveFor(r, |w.conns|, q)
  {
    var n := |w.conns|;
    var k := Dialled(w.queues[q].id, q, req);
    var r := w.(conns := w.conns + [k], tracked := w.tracked + [n]);
    assert ConnOk(k);
    forall c | 0 <= c < |r.conns| ensures OwnerOk(r, c) { if c < n { assert OwnerOk(w, c); } }
    forall c | 0 <= c < |r.conns| ensures ConnOk(r.conns[c]) && (c in r.tracked <==> r.conns[c].state != Disconnected) {
      if c < n { assert ConnOk(w.conns[c]); assert r.conns[c] == w.conns[c]; }
    }
    assert LiveFor(r, n, q);
    forall j | 0 <= j < |r.queues| && r.queues[j].running ensures Attached(r, j) && HasLive(r, j) {
      assert Attached(w, j);
      if j != q { LiveKept(w, r, j); }
    }
    forall j | 0 <= j < |r.queues| && r.queues[j].pending != []
      ensures Attached(r, j)
    { assert Attached(w, j); }
  }

  lemma NextKeeps(w: World, q: nat, env: Env)
    requires Ready(w, TNext(q))
    ensures Leaves(NextDial(w, q, env))
  {
    var d := w.queues[q];
    if d.running && d.pending != [] {
      var m := NextDial(w, q, env);
      TakeKeeps(w, q, m.0.log);
      if FirstMuxed(w.tracked, w.conns, d.id).None? {
        var w1 := SetQueue(w, q, d.(pending := d.pending[1..])).(log := m.0.log);
        DialKeeps(w1, q, d.pending[0]);
      }
    }
  }

  lemma MicroKeeps(w: World, t: Task, env: Env)
    requires Ready(w, t) && !t.TFail?
    ensures Leaves(Micro(w, t, env))
  {
    match t
    case TRun => RunKeeps(w);
    case TStart(q) => StartKeeps(w, q);
    case TNext(q) => NextKeeps(w, q, env);
    case TStop(q) => StopKeeps(w, q);
    case TAbort(q) => AbortKeeps(w, q);
    case TError(c) => ErrorKeeps(w, c, env);
    case TClose(c, o) => CloseKeeps(w, c, o, env);
  }

  // ---------------------------------------------------------------- so does a whole cascade

  function Target(t: Task): Option<nat> {
    match t
    case TError(c) => Some(c)
    case TClose(c, _) => Some(c)
    case TFail(c, _) => Some(c)
    case _ => None
  }

  lemma MicroFrames(w: World, t: Task, env: Env, k: nat)
    requires Wf(w) && TaskOk(w, t) && k < |w.conns| && !t.TFail?
    ensures var m := Micro(w, t, env);
            && |m.0.conns| >= |w.conns|
            && (Target(t) != Some(k) ==> m.0.conns[k] == w.conns[k])
            && (t.TError? ==> m.0.conns[k].(errorArmed := w.conns[k].errorArmed) == w.conns[k])
            && (m.1.Some? ==>
                  !m.1.value.TError? && (Target(m.1.value) == Some(k) ==> Target(t) == Some(k) && !t.TError?))
  {
  }

  /** A cascade touches no connection that existed before it, except the one it was called for. */
  lemma {:induction false} ExecFrames(w: World, t: Task, env: Env, k: nat)
    requires Wf(w) && TaskOk(w, t) && k < |w.conns|
    ensures var r := Exec(w, t, env);
            && (Target(t) != Some(k) ==> r.conns[k] == w.conns[k])
            && (t.TError? ==> r.conns[k].(errorArmed := w.conns[k].errorArmed) == w.conns[k])
    decreases Backlog(w), Focus(w, t), Phase(t)
  {
    if t.TFail? {
      ExecFrames(w, TError(t.c), env, k);
      var r := UnfoldFail(w, t.c, t.op, env);
      ExecFrames(r, TClose(t.c, t.op), env, k);
    } else {
      MicroFrames(w, t, env, k);
      var w1, next := Unfold(w, t, env);
      if next.Some? { ExecFrames(w1, next.value, env, k); }
    }
  }

  /** Every cascade started in a safe state leaves a safe state with no exemption. */
  lemma {:induction false} ExecKeeps(w: World, t: Task, env: Env)
    requires Ready(w, t)
    ensures Safe(Exec(w, t, env), None)
    decreases Backlog(w), Focus(w, t), Phase(t)
  {
    if t.TFail? {
      ExecKeeps(w, TError(t.c), env);
      ExecFrames(w, TError(t.c), env, t.c);
      var r := UnfoldFail(w, t.c, t.op, env);
      ExecKeeps(r, TClose(t.c, t.op), env);
    } else {
      MicroKeeps(w, t, env);
      var w1, next := Unfold(w, t, env);
      if next.Some? { ExecKeeps(w1, next.value, env); }
    }
  }
}

/**
 * The turns: everything that can start a cascade. A caller dials, stops, starts, clears or closes;
 * the clean timer fires; a connection comes in; an outside operation completes.
 */
module Turns {
  import opened Basics
  import opened Fsm
  import opened Connection
  import opened Scheduler

  /** A freshly constructed manager, which is running. */
  function Init(cfg: Config): World {
    World(cfg, true, [], [], {}, map[], [], [], [], [], [])
  }

  // ---------------------------------------------------------------- dialling

  /** The queue table with an entry for the id. */
  function GetQueue(w: World, id: PeerId): World {
    if id in w.table then w
    else w.(table := w.table[id := |w.queues|], queues := w.queues + [DialQueue(id, [], NotDenied, 0, false)])
  }

  /** Whether dialling is allowed at a time; a deadline that has passed is dropped. */
  function IsDialAllowed(d: DialQueue, now: int): (DialQueue, bool) {
    match d.denial
    case NotDenied => (d, true)
    case Until(deadline) => if now > deadline then (d.(denial := NotDenied), true) else (d, false)
    case Forever => (d, false)
  }

  /** The denial recorded for an id. */
  function DenialOf(w: World, id: PeerId): Denial
    requires Wf(w)
  {
    if id in w.table then w.queues[w.table[id]].denial else NotDenied
  }

  /** A denial still in force at a time. */
  predicate InForce(d: Denial, now: int) {
    d == Forever || (d.Until? && now <= d.deadline)
  }

  /** The queue's own `add`. */
  function Offer(w: World, q: nat, req: Request, now: int): World
    requires q < |w.queues|
  {
    var (d, allowed) := IsDialAllowed(w.queues[q], now);
    if allowed then
      SetQueue(w, q, d.(pending := d.pending + [req])).(log := w.log + [Accepted(d.id, req)])
    else
      w.(log := w.log + [Refused(d.id, req, DialDenied)])
  }

  function Include<T(==)>(s: seq<T>, x: T): seq<T> {
    if x in s then s else s + [x]
  }

  /** Puts the id in the waiting set its priority asks for. */
  function Enqueue(w: World, id: PeerId, priority: int): World {
    if priority <= PRIORITY_HIGH then w.(waiting := Include(w.waiting, id), cold := Remove(w.cold, id))
    else w.(cold := Include(w.cold, id))
  }

  /** A cold call is refused at once when there are too many, or when its peer already waits. */
  predicate ColdRefused(w: World, id: PeerId, priority: int) {
    priority > PRIORITY_HIGH && (|w.cold| >= w.cfg.maxColdCalls || id in w.waiting)
  }

  /** Without a connection: unless dialling is denied, the id waits for a slot, and the manager runs. */
  function Place(w: World, q: nat, id: PeerId, priority: int, now: int, env: Env): World
    requires Wf(w) && q < |w.queues|
  {
    var (d, allowed) := IsDialAllowed(w.queues[q], now);
    if !allowed then w
    else
      var w1 := SetQueue(w, q, d);
      SetQueueWf(w, q, d);
      var w2 := if d.running then w1 else Enqueue(w1, id, priority);
      EnqueueWf(w1, id, priority);
      Exec(w2, TRun, env)
  }

  /** The manager's `add`; the clock is read at `t1` and again at `t2`. */
  function Add(w: World, id: PeerId, req: Request, priority: int, connected: bool, t1: int, t2: int, env: Env): World
    requires Wf(w)
  {
    var w0 := GetQueue(w, id);
    GetQueueWf(w, id);
    var q := w0.table[id];
    if ColdRefused(w0, id, priority) then w0.(log := w0.log + [Refused(id, req, DialAborted)])
    else
      var w1 := Offer(w0, q, req, t1);
      OfferWf(w0, q, req, t1);
      if connected then Exec(w1, TStart(q), env) else Place(w1, q, id, priority, t2, env)
  }

  // ---------------------------------------------------------------- the manager

  function Drop(w: World, id: PeerId): World {
    w.(table := w.table - {id})
  }

  /** Aborts a queue and deletes it from the table. */
  function Discard(w: World, id: PeerId, env: Env): (r: World)
    requires Wf(w) && id in w.table
    ensures Wf(r) && r.cfg == w.cfg
  {
    var r := Exec(w, TAbort(w.table[id]), env);
    DropWf(r, id);
    Drop(r, id)
  }

  /** Whether the clean timer discards a queue. */
  predicate Stale(d: DialQueue, connected: bool) {
    d.denial == Forever || (d.denial == NotDenied && !d.running && d.pending == [] && !connected)
  }

  /** The clean timer, over the ids in the order the table lists them. */
  function Clean(w: World, order: seq<PeerId>, connected: PeerId -> bool, env: Env): (r: World)
    requires Wf(w)
    ensures Wf(r) && r.cfg == w.cfg
    decreases |order|
  {
    if order == [] then w
    else
      var id := order[0];
      var w1 := if id in w.table && Stale(w.queues[w.table[id]], connected(id)) then Discard(w, id, env) else w;
      Clean(w1, order[1..], connected, env)
  }

  function DiscardAll(w: World, order: seq<PeerId>, env: Env): (r: World)
    requires Wf(w)
    ensures Wf(r) && r.cfg == w.cfg
    decreases |order|
  {
    if order == [] then w
    else
      var id := order[0];
      var w1 := if id in w.table then Discard(w, id, env) else w;
      DiscardAll(w1, order[1..], env)
  }

  /** The manager's `stop`. */
  function StopManager(w: World, order: seq<PeerId>, env: Env): (r: World)
    requires Wf(w)
    ensures Wf(r) && r.cfg == w.cfg
  {
    var w1 := w.(running := false, waiting := [], cold := []);
    SameWf(w, w1);
    DiscardAll(w1, order, env)
  }

  function ClearDenylist(w: World, id: PeerId): (r: World)
    requires Wf(w)
    ensures Wf(r) && r.cfg == w.cfg
  {
    var w0 := GetQueue(w, id);
    GetQueueWf(w, id);
    var q := w0.table[id];
    SetQueueWf(w0, q, w0.queues[q].(denial := NotDenied, denials := 0));
    SetQueue(w0, q, w0.queues[q].(denial := NotDenied, denials := 0))
  }

  // ---------------------------------------------------------------- connections

  /** An inbound muxed connection is tracked, and clears its peer's denial. */
  function Accept(w: World, id: PeerId): (r: World)
    requires Wf(w)
    ensures Wf(r) && r.cfg == w.cfg
  {
    var w1 := w.(conns := w.conns + [Inbound(id)], tracked := w.tracked + [|w.conns|]);
    assert Wf(w1) by {
      forall c | 0 <= c < |w1.conns| ensures OwnerOk(w1, c) { if c < |w.conns| { assert OwnerOk(w, c); } }
    }
    ClearDenylist(w1, id)
  }

  /** The queue's `muxed` and `unmuxed` listeners: reset its failures and shake the request's protocol. */
  function Greet(w: World, c: nat): (r: World)
    requires Wf(w) && c < |w.conns| && w.conns[c].owner.Some? && w.conns[c].dial.Some?
    ensures Wf(r) && r.cfg == w.cfg && |r.queues| == |w.queues|
  {
    assert OwnerOk(w, c);
    var q := w.conns[c].owner.value;
    var d := w.queues[q].(denials := 0);
    SetQueueWf(w, q, d);
    var w1 := SetQueue(w, q, d);
    var w2 := w1.(log := w1.log + Shake(c, w.conns[c].dial.value, w.conns[c].state));
    SameWf(w1, w2);
    w2
  }

  /** What listens to the state a connection has moved to, except the queue's `next`. */
  function Announced(w: World, c: nat, d: Conn): (r: World)
    requires Wf(w) && c < |w.conns| && d.owner == w.conns[c].owner && d.peer == w.conns[c].peer
    ensures Wf(r) && r.cfg == w.cfg && c < |r.conns| && |r.queues| >= |w.queues|
  {
    StoreWf(w, c, d);
    var w1 := Store(w, c, d);
    var w2 := if d.state == Muxed then ClearDenylist(w1, d.peer) else w1;
    if (d.state == Muxed || d.state == Connected) && d.owner.Some? && d.dial.Some? then Greet(w2, c) else w2
  }

  /** What follows a transition: listeners run, and the owner goes on to its next dial. */
  function Advance(w: World, c: nat, d: Conn, env: Env): (r: World)
    requires Wf(w) && c < |w.conns| && d.owner == w.conns[c].owner && d.peer == w.conns[c].peer
    ensures Wf(r) && r.cfg == w.cfg
  {
    assert OwnerOk(w, c);
    match Wakes(d) case None => Announced(w, c, d) case Some(t) => Exec(Announced(w, c, d), t, env)
  }

  /** Fires an event at connection `c` after its fields changed to `k`. */
  function Fired(w: World, c: nat, k: Conn, e: Fsm.Event, env: Env): (r: World)
    requires Wf(w) && c < |w.conns| && k.owner == w.conns[c].owner && k.peer == w.conns[c].peer
    ensures Wf(r) && r.cfg == w.cfg
  {
    match Fire(k, e, env.setup)
    case None =>
      SetConnWf(w, c, k);
      Exec(w.(conns := w.conns[c := k]), TError(c), env)
    case Some(d) =>
      FireKeeps(k, e, env.setup);
      Advance(w, c, d, env)
  }

  /** `close`, with or without an error; `o` is the operation whose callback makes the call. */
  function CloseWith(w: World, c: nat, err: bool, o: Option<Op>, env: Env): (r: World)
    requires Wf(w) && c < |w.conns|
    ensures Wf(r) && r.cfg == w.cfg
  {
    if w.conns[c].state == Disconnecting then
      SetConnWf(w, c, Without(w.conns[c], o));
      w.(conns := w.conns[c := Without(w.conns[c], o)])
    else if err then Exec(w, TFail(c, o), env)
    else Exec(w, TClose(c, o), env)
  }

  /** An outside operation completes, well or badly. */
  function Complete(w: World, c: nat, o: Op, ok: bool, env: Env): (r: World)
    requires Wf(w) && c < |w.conns|
    ensures Wf(r) && r.cfg == w.cfg
  {
    var k := w.conns[c];
    match o
    case MuxerCloseOp => CloseWith(w, c, false, Some(o), env)
    case EndOp => Fired(w, c, Delivered(k, o, env.setup), Done, env)
    case IdentifyOp =>
      if ok then
        SetConnWf(w, c, Without(k, Some(o)));
        w.(conns := w.conns[c := Without(k, Some(o))])
      else CloseWith(w, c, true, Some(o), env)
    case MuxOp =>
      if ok then Fired(w, c, Delivered(k, o, env.setup), Done, env)
      else Fired(w, c, Without(k, Some(o)), Fsm.Stop, env)
    case _ =>
      if ok then Fired(w, c, Delivered(k, o, env.setup), Done, env)
      else CloseWith(w, c, true, Some(o), env)
  }

  /** The connections tracked for a peer, in the order they were added. */
  function OfPeer(tracked: seq<nat>, conns: seq<Conn>, id: PeerId): (r: seq<nat>)
    requires forall i :: 0 <= i < |tracked| ==> tracked[i] < |conns|
    ensures forall c :: c in r <==> c in tracked && conns[c].peer == id
  {
    if tracked == [] then []
    else
      var rest := OfPeer(tracked[1..], conns, id);
      assert forall c :: c in tracked <==> c == tracked[0] || c in tracked[1..];
      if conns[tracked[0]].peer == id then [tracked[0]] + rest else rest
  }

  function CloseEach(w: World, list: seq<nat>, env: Env): (r: World)
    requires Wf(w) && forall i :: 0 <= i < |list| ==> list[i] < |w.conns|
    ensures Wf(r) && r.cfg == w.cfg && |r.conns| >= |w.conns|
    decreases |list|
  {
    if list == [] then w
    else
      CloseWithGrows(w, list[0], false, None, env);
      CloseEach(CloseWith(w, list[0], false, None, env), list[1..], env)
  }

  /** `hangUp`: closes a copy of the list of the peer's connections. */
  function HangUp(w: World, id: PeerId, env: Env): (r: World)
    requires Wf(w)
    ensures Wf(r) && r.cfg == w.cfg
  {
    var list := OfPeer(w.tracked, w.conns, id);
    assert forall i :: 0 <= i < |list| ==> list[i] < |w.conns| by {
      forall i | 0 <= i < |list| ensures list[i] < |w.conns| { assert list[i] in w.tracked; }
    }
    CloseEach(w, list, env)
  }

  // ---------------------------------------------------------------- one turn

  datatype Turn =
    | DialTurn(id: PeerId, req: Request, priority: int, connected: bool, t1: int, t2: int)
    | CleanTurn(order: seq<PeerId>, isConnected: PeerId -> bool)
    | StopTurn(order: seq<PeerId>)
    | StartTurn
    | ClearTurn(id: PeerId)
    | AcceptTurn(id: PeerId)
    | CompleteTurn(c: nat, op: Op, ok: bool)
    | CloseTurn(c: nat, err: bool)
    | HangUpTurn(id: PeerId)

  /** The keys of the table, each once, in the order the engine enumerates them. */
  ghost predicate Lists(order: seq<PeerId>, table: map<PeerId, nat>) {
    Distinct(order) && forall id :: id in table <==> id in order
  }

  /** When a turn can happen: clocks do not go back, lists name the whole table, operations complete once. */
  ghost predicate CanTake(w: World, t: Turn) {
    match t
    case DialTurn(_, _, _, _, t1, t2) => t1 <= t2
    case CleanTurn(order, _) => Lists(order, w.table)
    case StopTurn(order) => Lists(order, w.table)
    case CompleteTurn(c, op, _) => c < |w.conns| && op in w.conns[c].ops
    case CloseTurn(c, _) => c < |w.conns|
    case _ => true
  }

  function Take(w: World, t: Turn, env: Env): (r: World)
    requires Wf(w) && CanTake(w, t)
    ensures Wf(r)
  {
    match t
    case DialTurn(id, req, priority, connected, t1, t2) =>
      AddWf(w, id, req, priority, connected, t1, t2, env);
      Add(w, id, req, priority, connected, t1, t2, env)
    case CleanTurn(order, isConnected) => Clean(w, order, isConnected, env)
    case StopTurn(order) => StopManager(w, order, env)
    case StartTurn => SameWf(w, w.(running := true)); w.(running := true)
    case ClearTurn(id) => ClearDenylist(w, id)
    case AcceptTurn(id) => Accept(w, id)
    case CompleteTurn(c, op, ok) => Complete(w, c, op, ok, env)
    case CloseTurn(c, err) => CloseWith(w, c, err, None, env)
    case HangUpTurn(id) => HangUp(w, id, env)
  }

  // ---------------------------------------------------------------- well-formedness

  lemma SameWf(w: World, r: World)
    requires Wf(w) && r.table == w.table && r.queues == w.queues && r.conns == w.conns && r.tracked == w.tracked
    ensures Wf(r)
  {
    forall c | 0 <= c < |r.conns| ensures OwnerOk(r, c) { assert OwnerOk(w, c); }
  }

  lemma GetQueueWf(w: World, id: PeerId)
    requires Wf(w)
    ensures Wf(GetQueue(w, id)) && id in GetQueue(w, id).table
  {
    var r := GetQueue(w, id);
    forall c | 0 <= c < |r.conns| ensures OwnerOk(r, c) { assert OwnerOk(w, c); }
  }

  lemma SetQueueWf(w: World, q: nat, d: DialQueue)
    requires Wf(w) && q < |w.queues| && d.id == w.queues[q].id
    ensures Wf(SetQueue(w, q, d))
  {
    OwnersKept(w, SetQueue(w, q, d));
  }

  lemma OfferWf(w: World, q: nat, req: Request, now: int)
    requires Wf(w) && q < |w.queues|
    ensures Wf(Offer(w, q, req, now))
  {
    OwnersKept(w, Offer(w, q, req, now));
  }

  lemma EnqueueWf(w: World, id: PeerId, priority: int)
    requires Wf(w)
    ensures Wf(Enqueue(w, id, priority))
  {
    SameWf(w, Enqueue(w, id, priority));
  }

  lemma AddWf(w: World, id: PeerId, req: Request, priority: int, connected: bool, t1: int, t2: int, env: Env)
    requires Wf(w)
    ensures Wf(Add(w, id, req, priority, connected, t1, t2, env))
  {
    var w0 := GetQueue(w, id);
    GetQueueWf(w, id);
    SameWf(w0, w0.(log := w0.log + [Refused(id, req, DialAborted)]));
    OfferWf(w0, w0.table[id], req, t1);
  }

  lemma DropWf(w: World, id: PeerId)
    requires Wf(w)
    ensures Wf(Drop(w, id))
  {
    var r := Drop(w, id);
    forall c | 0 <= c < |r.conns| ensures OwnerOk(r, c) { assert OwnerOk(w, c); }
  }

  lemma SetConnWf(w: World, c: nat, k: Conn)
    requires Wf(w) && c < |w.conns| && k.owner == w.conns[c].owner && k.peer == w.conns[c].peer
    ensures Wf(w.(conns := w.conns[c := k]))
  {
    OwnersKept(w, w.(conns := w.conns[c := k]));
  }

  lemma StoreWf(w: World, c: nat, d: Conn)
    requires Wf(w) && c < |w.conns| && d.owner == w.conns[c].owner && d.peer == w.conns[c].peer
    ensures Wf(Store(w, c, d))
  {
    var r := Store(w, c, d);
    OwnersKept(w, r);
    forall i | 0 <= i < |r.tracked| ensures r.tracked[i] < |r.conns| { assert r.tracked[i] in w.tracked; }
  }

  lemma CloseWithGrows(w: World, c: nat, err: bool, o: Option<Op>, env: Env)
    requires Wf(w) && c < |w.conns|
    ensures |CloseWith(w, c, err, o, env).conns| >= |w.conns|
  {
  }
}

/**
 * The dial scheduler on values: one state holding the manager, every dial queue and every
 * connection ever made, and the synchronous cascade between them. A task is a call that one of the
 * objects makes on another; Exec runs it to the end of the turn.
 */
module Scheduler {
  import opened Basics
  import opened Fsm
  import opened Connection
  import Backoff

  const PRIORITY_HIGH := 10

  /** The `denylisted` field: null, a time, or Infinity. */
  datatype Denial = NotDenied | Until(deadline: int) | Forever

  datatype DialQueue = DialQueue(id: PeerId, pending: seq<Request>, denial: Denial, denials: nat, running: bool)

  datatype Config = Config(maxParallelDials: nat, maxColdCalls: nat, denyAttempts: int, denyTtl: real)

  datatype Reason = DialAborted | DialDenied

  /** What the outside could have observed, in order. */
  datatype Entry =
    | Accepted(id: PeerId, req: Request)
    | Refused(id: PeerId, req: Request, why: Reason)
    | AbortedDial(id: PeerId, req: Request)
    | Started(id: PeerId, req: Request, conn: nat)
    | Shaken(conn: nat, req: Request, state: State)

  /**
   * `waiting`, `cold` and `dialing` are the manager's three id sets, the first two in insertion
   * order. `table` maps an id to its queue's position in `queues`; queues deleted from the table
   * stay in `queues`, as listeners may still hold them. `tracked` lists the tracked connections.
   * `popped` and `log` are history.
   */
  datatype World = World(
    cfg: Config,
    running: bool,
    waiting: seq<PeerId>,
    cold: seq<PeerId>,
    dialing: set<PeerId>,
    table: map<PeerId, nat>,
    queues: seq<DialQueue>,
    conns: seq<Conn>,
    tracked: seq<nat>,
    popped: seq<PeerId>,
    log: seq<Entry>)

  /**
   * What the outside decides during one turn. `failsNow(c)`: connection `c` cannot be dialled and
   * fails in the turn that creates it. `keeps(c)`: when `c` reports an error, its peer is identified
   * and connected. `draw(c)` and `now(c)`: the random number and the clock read when `c` is denied.
   */
  datatype Env = Env(setup: Setup, failsNow: nat -> bool, keeps: nat -> bool, draw: nat -> real, now: nat -> int)

  datatype Task =
    | TRun
    | TStart(q: nat)
    | TNext(q: nat)
    | TStop(q: nat)
    | TAbort(q: nat)
    | TFail(c: nat, op: Option<Op>)
    | TError(c: nat)
    | TClose(c: nat, op: Option<Op>)

  // ---------------------------------------------------------------- well-formed states

  ghost predicate TableOk(w: World) {
    forall id :: id in w.table ==> w.table[id] < |w.queues| && w.queues[w.table[id]].id == id
  }

  predicate OwnerOk(w: World, c: nat)
    requires c < |w.conns|
  {
    w.conns[c].owner.Some? ==>
      w.conns[c].owner.value < |w.queues| && w.queues[w.conns[c].owner.value].id == w.conns[c].peer
  }

  ghost predicate Wf(w: World) {
    && TableOk(w)
    && (forall c :: 0 <= c < |w.conns| ==> OwnerOk(w, c))
    && (forall i :: 0 <= i < |w.tracked| ==> w.tracked[i] < |w.conns|)
  }

  predicate TaskOk(w: World, t: Task) {
    match t
    case TRun => true
    case TStart(q) => q < |w.queues|
    case TNext(q) => q < |w.queues|
    case TStop(q) => q < |w.queues|
    case TAbort(q) => q < |w.queues|
    case TFail(c, _) => c < |w.conns|
    case TError(c) => c < |w.conns|
    case TClose(c, _) => c < |w.conns|
  }

  // ---------------------------------------------------------------- helpers

  function SetQueue(w: World, q: nat, d: DialQueue): World
    requires q < |w.queues|
  {
    w.(queues := w.queues[q := d])
  }

  /** The position of the first muxed connection tracked for a peer. */
  function FirstMuxed(tracked: seq<nat>, conns: seq<Conn>, id: PeerId): (r: Option<nat>)
    requires forall i :: 0 <= i < |tracked| ==> tracked[i] < |conns|
    ensures r.Some? ==> r.value in tracked && conns[r.value].peer == id && conns[r.value].state == Muxed
    ensures r.None? ==>
              forall i :: 0 <= i < |tracked| ==> conns[tracked[i]].peer != id || conns[tracked[i]].state != Muxed
  {
    if tracked == [] then None
    else if conns[tracked[0]].peer == id && conns[tracked[0]].state == Muxed then Some(tracked[0])
    else FirstMuxed(tracked[1..], conns, id)
  }

  /** The list without the first occurrence of an element. */
  function Remove<T(==)>(s: seq<T>, x: T): (r: seq<T>)
    ensures forall y :: y in r ==> y in s
  {
    if s == [] then [] else if s[0] == x then s[1..] else [s[0]] + Remove(s[1..], x)
  }

  function AbortEntries(id: PeerId, reqs: seq<Request>): (r: seq<Entry>)
    ensures |r| == |reqs| && forall i :: 0 <= i < |reqs| ==> r[i] == AbortedDial(id, reqs[i])
  {
    if reqs == [] then [] else [AbortedDial(id, reqs[0])] + AbortEntries(id, reqs[1..])
  }

  /** Stores a connection after a transition; one that has closed is no longer tracked. */
  function Store(w: World, c: nat, d: Conn): World
    requires c < |w.conns|
  {
    w.(conns := w.conns[c := Disarm(d)],
       tracked := if d.state == Disconnected then Remove(w.tracked, c) else w.tracked)
  }

  /** The queue's `next` is called when its connection stops being in flight. */
  function Wakes(d: Conn): Option<Task> {
    if d.owner.Some? && d.nextArmed && !Disarm(d).nextArmed then Some(TNext(d.owner.value)) else None
  }

  // ---------------------------------------------------------------- one call

  function Launch(w: World, id: PeerId): (World, Option<Task>) {
    if id in w.table then (w.(dialing := w.dialing + {id}), Some(TStart(w.table[id]))) else (w, None)
  }

  function RunOnce(w: World): (World, Option<Task>) {
    if !w.running || |w.dialing| >= w.cfg.maxParallelDials then (w, None)
    else if w.waiting != [] then
      Launch(w.(waiting := w.waiting[1..], popped := w.popped + [w.waiting[0]]), w.waiting[0])
    else if w.cold != [] then Launch(w.(cold := w.cold[1..]), w.cold[0])
    else (w, None)
  }

  function StartQueue(w: World, q: nat): (World, Option<Task>)
    requires q < |w.queues|
  {
    if w.queues[q].running then (w, None)
    else (SetQueue(w, q, w.queues[q].(running := true)), Some(TNext(q)))
  }

  function StopQueue(w: World, q: nat): (World, Option<Task>)
    requires q < |w.queues|
  {
    if w.queues[q].running then
      (SetQueue(w, q, w.queues[q].(running := false)).(dialing := w.dialing - {w.queues[q].id}), Some(TRun))
    else (w, None)
  }

  function AbortQueue(w: World, q: nat): (World, Option<Task>)
    requires q < |w.queues|
  {
    var d := w.queues[q];
    (SetQueue(w, q, d.(pending := [])).(log := w.log + AbortEntries(d.id, d.pending)), Some(TStop(q)))
  }

  /** The handshake for a request's protocol, if it names one. */
  function Shake(c: nat, req: Request, s: State): seq<Entry> {
    if req.protocol.Some? then [Shaken(c, req, s)] else []
  }

  function NextDial(w: World, q: nat, env: Env): (World, Option<Task>)
    requires Wf(w) && q < |w.queues|
  {
    var d := w.queues[q];
    if d.pending == [] || !d.running then (w, Some(TStop(q)))
    else
      var w1 := SetQueue(w, q, d.(pending := d.pending[1..]));
      match FirstMuxed(w.tracked, w.conns, d.id)
      case Some(c) =>
        (w1.(log := w.log + [Started(d.id, d.pending[0], c)] + Shake(c, d.pending[0], w.conns[c].state)),
         Some(TNext(q)))
      case None =>
        var c := |w.conns|;
        (w1.(conns := w.conns + [Dialled(d.id, q, d.pending[0])], tracked := w.tracked + [c],
             log := w.log + [Started(d.id, d.pending[0], c)]),
         if env.failsNow(c) then Some(TFail(c, Some(DialOp))) else None)
  }

  /** One more failed dial: denied for a while, or for good after enough failures. */
  function Denied(d: DialQueue, cfg: Config, now: int, draw: real): DialQueue {
    var n := d.denials + 1;
    if n >= cfg.denyAttempts then d.(denials := n, denial := Forever)
    else d.(denials := n, denial := Until(now + Backoff.Ttl(cfg.denyTtl, n, draw)))
  }

  function ReportError(w: World, c: nat, env: Env): (World, Option<Task>)
    requires Wf(w) && c < |w.conns|
  {
    var k := w.conns[c];
    if !k.errorArmed || k.owner.None? then (w, None)
    else
      var w1 := w.(conns := w.conns[c := k.(errorArmed := false)]);
      assert OwnerOk(w, c);
      if env.keeps(c) then (w1, None)
      else
        var q := k.owner.value;
        var d := Denied(w.queues[q], w.cfg, env.now(c), env.draw(c));
        (SetQueue(w1, q, d), if d.denial == Forever then None else Some(TAbort(q)))
  }

  function CloseConn(w: World, c: nat, o: Option<Op>, env: Env): (World, Option<Task>)
    requires c < |w.conns|
  {
    match Fire(Without(w.conns[c], o), Disconnect, env.setup)
    case None => (w.(conns := w.conns[c := Without(w.conns[c], o)]), None)
    case Some(d) => (Store(w, c, d), Wakes(d))
  }

  /** The effect of one call, and the call it ends with. A failed dial makes two and is not here. */
  function Micro(w: World, t: Task, env: Env): (World, Option<Task>)
    requires Wf(w) && TaskOk(w, t) && !t.TFail?
  {
    match t
    case TRun => RunOnce(w)
    case TStart(q) => StartQueue(w, q)
    case TNext(q) => NextDial(w, q, env)
    case TStop(q) => StopQueue(w, q)
    case TAbort(q) => AbortQueue(w, q)
    case TError(c) => ReportError(w, c, env)
    case TClose(c, o) => CloseConn(w, c, o, env)
  }

  // ---------------------------------------------------------------- the cascade ends

  function Backlog(w: World): nat { |w.waiting| + |w.cold| }

  function Focus(w: World, t: Task): nat
    requires Wf(w) && TaskOk(w, t)
  {
    match t
    case TRun => 0
    case TStart(q) => |w.queues[q].pending|
    case TNext(q) => |w.queues[q].pending|
    case TStop(q) => |w.queues[q].pending|
    case TAbort(q) => |w.queues[q].pending|
    case TFail(c, _) => OwnerPending(w, c)
    case TError(c) => OwnerPending(w, c)
    case TClose(c, _) => OwnerPending(w, c)
  }

  function OwnerPending(w: World, c: nat): nat
    requires Wf(w) && c < |w.conns|
  {
    assert OwnerOk(w, c);
    if w.conns[c].owner.Some? then |w.queues[w.conns[c].owner.value].pending| else 0
  }

  function Phase(t: Task): nat {
    match t
    case TRun => 0
    case TStop(_) => 1
    case TAbort(_) => 2
    case TNext(_) => 2
    case TStart(_) => 3
    case TError(_) => 3
    case TClose(_, _) => 3
    case TFail(_, _) => 4
  }

  /** What a cascade never undoes: nothing is added to any list of work, nothing known is renamed. */
  ghost predicate Shrinks(w: World, r: World) {
    && r.cfg == w.cfg && r.running == w.running && r.table == w.table
    && Backlog(r) <= Backlog(w)
    && |r.queues| == |w.queues|
    && (forall q :: 0 <= q < |w.queues| ==>
          r.queues[q].id == w.queues[q].id && |r.queues[q].pending| <= |w.queues[q].pending|)
    && |r.conns| >= |w.conns|
    && (forall c :: 0 <= c < |w.conns| ==> r.conns[c].owner == w.conns[c].owner && r.conns[c].peer == w.conns[c].peer)
  }

  predicate Smaller(w: World, t: Task, w1: World, t1: Task)
    requires Wf(w) && TaskOk(w, t) && Wf(w1) && TaskOk(w1, t1)
  {
    || Backlog(w1) < Backlog(w)
    || (Backlog(w1) == Backlog(w) && Focus(w1, t1) < Focus(w, t))
    || (Backlog(w1) == Backlog(w) && Focus(w1, t1) == Focus(w, t) && Phase(t1) < Phase(t))
  }

  /** Owners stay right when ids, owners and peers stay as they are. */
  lemma OwnersKept(w: World, r: World)
    requires Wf(w) && |r.queues| == |w.queues| && |r.conns| >= |w.conns|
    requires forall q :: 0 <= q < |w.queues| ==> r.queues[q].id == w.queues[q].id
    requires forall c :: 0 <= c < |w.conns| ==>
               r.conns[c].owner == w.conns[c].owner && r.conns[c].peer == w.conns[c].peer
    ensures forall c :: 0 <= c < |w.conns| ==> OwnerOk(r, c)
  {
    forall c | 0 <= c < |w.conns| ensures OwnerOk(r, c) { assert OwnerOk(w, c); }
  }

  lemma MicroShrinks(w: World, t: Task, env: Env)
    requires Wf(w) && TaskOk(w, t) && !t.TFail?
    ensures var m := Micro(w, t, env);
            Wf(m.0) && Shrinks(w, m.0) && (m.1.Some? ==> TaskOk(m.0, m.1.value) && Smaller(w, t, m.0, m.1.value))
  {
    match t
    case TClose(c, o) => CloseShrinks(w, c, o, env);
    case TError(c) => ErrorShrinks(w, c, env);
    case TNext(q) => NextShrinks(w, q, env);
    case _ => QueueShrinks(w, t, env);
  }

  lemma QueueShrinks(w: World, t: Task, env: Env)
    requires Wf(w) && TaskOk(w, t) && (t.TRun? || t.TStart? || t.TStop? || t.TAbort?)
    ensures var m := Micro(w, t, env);
            Wf(m.0) && Shrinks(w, m.0) && (m.1.Some? ==> TaskOk(m.0, m.1.value) && Smaller(w, t, m.0, m.1.value))
  {
    match t
    case TRun => RunShrinks(w);
    case TStart(q) => OneQueueShrinks(w, q, w.queues[q].(running := true), w.dialing, []);
    case TStop(q) => OneQueueShrinks(w, q, w.queues[q].(running := false), w.dialing - {w.queues[q].id}, []);
    case TAbort(q) =>
      var d := w.queues[q];
      OneQueueShrinks(w, q, d.(pending := []), w.dialing, AbortEntries(d.id, d.pending));
  }

  lemma RunShrinks(w: World)
    requires Wf(w)
    ensures var m := RunOnce(w);
            Wf(m.0) && Shrinks(w, m.0) && (m.1.Some? ==> TaskOk(m.0, m.1.value) && Backlog(m.0) < Backlog(w))
  {
    ListsShrink(w, RunOnce(w).0);
  }

  lemma ListsShrink(w: World, r: World)
    requires Wf(w) && Backlog(r) <= Backlog(w) && r.cfg == w.cfg && r.running == w.running && r.table == w.table
    requires r.queues == w.queues && r.conns == w.conns && r.tracked == w.tracked
    ensures Wf(r) && Shrinks(w, r)
  {
    OwnersKept(w, r);
  }

  /** A change of one queue that gives it no more work. */
  lemma OneQueueShrinks(w: World, q: nat, d: DialQueue, dialing: set<PeerId>, log: seq<Entry>)
    requires Wf(w) && q < |w.queues| && d.id == w.queues[q].id && |d.pending| <= |w.queues[q].pending|
    ensures var r := w.(queues := w.queues[q := d], dialing := dialing, log := w.log + log); Wf(r) && Shrinks(w, r)
    ensures w.log + [] == w.log
  {
    OwnersKept(w, w.(queues := w.queues[q := d], dialing := dialing, log := w.log + log));
  }

  /** Runs a task, and everything it calls, to the end. */
  function Exec(w: World, t: Task, env: Env): (r: World)
    requires Wf(w) && TaskOk(w, t)
    ensures Wf(r) && Shrinks(w, r)
    decreases Backlog(w), Focus(w, t), Phase(t)
  {
    if t.TFail? then
      var r := Exec(w, TError(t.c), env);
      assert OwnerOk(w, t.c);
      Exec(r, TClose(t.c, t.op), env)
    else
      MicroShrinks(w, t, env);
      var m := Micro(w, t, env);
      if m.1.None? then m.0 else Exec(m.0, m.1.value, env)
  }

  /** One step of a cascade: its own effect, then the call it ends with. */
  lemma Unfold(w: World, t: Task, env: Env) returns (w1: World, next: Option<Task>)
    requires Wf(w) && TaskOk(w, t) && !t.TFail?
    ensures (w1, next) == Micro(w, t, env)
    ensures Wf(w1) && Shrinks(w, w1)
    ensures next.None? ==> Exec(w, t, env) == w1
    ensures next.Some? ==>
              TaskOk(w1, next.value) && Smaller(w, t, w1, next.value) && Exec(w, t, env) == Exec(w1, next.value, env)
  {
    MicroShrinks(w, t, env);
    w1, next := Micro(w, t, env).0, Micro(w, t, env).1;
  }

  /** A failed dial reports its error first, and closes afterwards. */
  lemma UnfoldFail(w: World, c: nat, o: Option<Op>, env: Env) returns (r: World)
    requires Wf(w) && c < |w.conns|
    ensures r == Exec(w, TError(c), env) && Wf(r) && c < |r.conns| && Shrinks(w, r)
    ensures Focus(r, TClose(c, o)) <= Focus(w, TFail(c, o))
    ensures Exec(w, TFail(c, o), env) == Exec(r, TClose(c, o), env)
  {
    r := Exec(w, TError(c), env);
    assert OwnerOk(w, c) && OwnerOk(r, c);
  }

  lemma FireKeeps(c: Conn, e: Fsm.Event, setup: Setup)
    ensures Fire(c, e, setup).Some? ==>
              var d := Fire(c, e, setup).value; d.owner == c.owner && d.peer == c.peer && d.dial == c.dial
  {
    match Table(c.state, e)
    case Invalid =>
    case To(n) => SettleKeeps(Enter(c, n, setup), setup);
  }

  lemma {:induction false} SettleKeeps(c: Conn, setup: Setup)
    ensures var d := Settle(c, setup); d.owner == c.owner && d.peer == c.peer && d.dial == c.dial
    decreases Distance(c.state)
  {
    match Reaction(c, setup)
    case None =>
    case Some(e) =>
      match Table(c.state, e)
      case Invalid =>
      case To(n) => SettleKeeps(Enter(c, n, setup), setup);
  }

  lemma CloseShrinks(w: World, c: nat, o: Option<Op>, env: Env)
    requires Wf(w) && c < |w.conns|
    ensures var m := CloseConn(w, c, o, env);
            Wf(m.0) && Shrinks(w, m.0) &&
            (m.1.Some? ==> TaskOk(m.0, m.1.value) && Smaller(w, TClose(c, o), m.0, m.1.value))
  {
    FireKeeps(Without(w.conns[c], o), Disconnect, env.setup);
    var m := CloseConn(w, c, o, env);
    assert OwnerOk(w, c);
    OwnersKept(w, m.0);
    if m.0.tracked != w.tracked {
      forall i | 0 <= i < |m.0.tracked| ensures m.0.tracked[i] < |m.0.conns| {
        assert m.0.tracked[i] in w.tracked;
      }
    }
  }

  lemma ErrorShrinks(w: World, c: nat, env: Env)
    requires Wf(w) && c < |w.conns|
    ensures var m := ReportError(w, c, env);
            Wf(m.0) && Shrinks(w, m.0) &&
            (m.1.Some? ==> TaskOk(m.0, m.1.value) && Smaller(w, TError(c), m.0, m.1.value))
  {
    assert OwnerOk(w, c);
    OwnersKept(w, ReportError(w, c, env).0);
  }

  lemma NextShrinks(w: World, q: nat, env: Env)
    requires Wf(w) && q < |w.queues|
    ensures var m := NextDial(w, q, env);
            Wf(m.0) && Shrinks(w, m.0) &&
            (m.1.Some? ==> TaskOk(m.0, m.1.value) && Smaller(w, TNext(q), m.0, m.1.value))
  {
    var d := w.queues[q];
    if d.pending == [] || !d.running {
      ListsShrink(w, w);
    } else {
      var shorter := d.(pending := d.pending[1..]);
      match FirstMuxed(w.tracked, w.conns, d.id)
      case Some(c) =>
        var shake := Shake(c, d.pending[0], w.conns[c].state);
        OneQueueShrinks(w, q, shorter, w.dialing, [Started(d.id, d.pending[0], c)] + shake);
        assert w.log + ([Started(d.id, d.pending[0], c)] + shake) == w.log + [Started(d.id, d.pending[0], c)] + shake;
      case None =>
        OneQueueShrinks(w, q, shorter, w.dialing, [Started(d.id, d.pending[0], |w.conns|)]);
        NewConnShrinks(SetQueue(w, q, shorter).(log := w.log + [Started(d.id, d.pending[0], |w.conns|)]),
                       q, d.pending[0]);
    }
  }

  /** A new connection for a queue's request. */
  lemma NewConnShrinks(w: World, q: nat, req: Request)
    requires Wf(w) && q < |w.queues|
    ensures var r := w.(conns := w.conns + [Dialled(w.queues[q].id, q, req)], tracked := w.tracked + [|w.conns|]);
            Wf(r) && Shrinks(w, r) && OwnerPending(r, |w.conns|) == |w.queues[q].pending|
  {
    OwnersKept(w, w.(conns := w.conns + [Dialled(w.queues[q].id, q, req)], tracked := w.tracked + [|w.conns|]));
  }
}

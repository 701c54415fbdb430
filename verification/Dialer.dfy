/**
 * The dial queue manager and its queues as objects that call each other. Every method is proved
 * against the scheduler on values: `model` is what the objects represent.
 */
module Dialer {
  import opened Basics
  import opened Fsm
  import opened Connection
  import opened ConnectionFsm
  import opened Tracking
  import opened Scheduler
  import opened Turns

  class Queue {
    ghost const ref: nat             // its number among all queues
    const id: PeerId
    const manager: DialQueueManager
    var queue: seq<Request>
    var denylisted: Denial
    var denylistCount: nat
    var isRunning: bool

    ghost function Model(): DialQueue
      reads this
    {
      DialQueue(id, queue, denylisted, denylistCount, isRunning)
    }

    constructor (id: PeerId, manager: DialQueueManager, ghost ref: nat)
      ensures this.ref == ref && this.manager == manager && Model() == DialQueue(id, [], NotDenied, 0, false)
    {
      this.ref, this.id, this.manager := ref, id, manager;
      queue, denylisted, denylistCount, isRunning := [], NotDenied, 0, false;
    }

    /** This queue is one of its manager's, and the manager is in order. */
    ghost predicate Ours()
      reads manager, manager.connection, manager.qs, manager.cs
    {
      manager.Valid() && ref < |manager.qs| && manager.qs[ref] == this
    }

    method MarkStarted()
      requires Ours() && !isRunning
      modifies this`isRunning, manager`model
      ensures Ours() && isRunning && manager.model == StartQueue(old(manager.model), ref).0
    {
      isRunning := true;
      manager.model := StartQueue(manager.model, ref).0;
      manager.QueueSet(old(manager.model), ref);
    }

    method MarkStopped()
      requires Ours() && isRunning
      modifies this`isRunning, manager`dialingQueues, manager`model
      ensures Ours() && !isRunning && manager.model == StopQueue(old(manager.model), ref).0
    {
      isRunning := false;
      manager.dialingQueues := manager.dialingQueues - {id};
      manager.model := StopQueue(manager.model, ref).0;
      manager.QueueSet(old(manager.model), ref);
    }

    /** Starts the queue unless it is running. */
    method Start(env: Env)
      requires Ours()
      modifies manager, manager.connection, manager.qs, manager.cs
      ensures Ours() && manager.Grown()
      ensures manager.model == Exec(old(manager.model), TStart(ref), env)
      decreases Backlog(manager.model), |queue|, 3
    {
      ghost var w1, next := Calls(manager.model, TStart(ref), env);
      if !isRunning {
        MarkStarted();
        Next(env);
      }
    }

    /** Stops the queue if it is running, and lets the manager go on. */
    method Stop(env: Env)
      requires Ours()
      modifies manager, manager.connection, manager.qs, manager.cs
      ensures Ours() && manager.Grown()
      ensures manager.model == Exec(old(manager.model), TStop(ref), env)
      decreases Backlog(manager.model), |queue|, 1
    {
      ghost var w1, next := Calls(manager.model, TStop(ref), env);
      if isRunning {
        MarkStopped();
        manager.Run(env);
      }
    }

    /** Takes the first request. */
    method TakeRequest() returns (req: Request)
      requires Ours() && queue != []
      modifies this`queue, manager`model
      ensures Ours() && req == old(queue)[0] && queue == old(queue)[1..] && isRunning == old(isRunning)
      ensures var d := old(manager.model).queues[ref];
              manager.model == SetQueue(old(manager.model), ref, d.(pending := d.pending[1..]))
    {
      req := queue[0];
      queue := queue[1..];
      manager.model := SetQueue(manager.model, ref, Model());
      manager.QueueSet(old(manager.model), ref);
    }

    /** Takes every request out, first to last. */
    method Drain() returns (aborted: seq<Request>)
      modifies this`queue
      ensures queue == [] && aborted == old(queue)
    {
      aborted := [];
      while |queue| > 0
        invariant aborted + queue == old(queue)
      {
        aborted, queue := aborted + [queue[0]], queue[1..];
      }
    }

    /** Answers every request with an abort. */
    method AbortAll() returns (aborted: seq<Request>)
      requires Ours()
      modifies this`queue, manager`model
      ensures Ours() && queue == [] && aborted == old(queue)
      ensures manager.model == AbortQueue(old(manager.model), ref).0
    {
      aborted := Drain();
      manager.model := AbortQueue(manager.model, ref).0;
      manager.QueueSet(old(manager.model), ref);
    }

    /** Answers every request with an abort and stops the queue. */
    method Abort(env: Env)
      requires Ours()
      modifies manager, manager.connection, manager.qs, manager.cs
      ensures Ours() && manager.Grown()
      ensures manager.model == Exec(old(manager.model), TAbort(ref), env)
      decreases Backlog(manager.model), |queue|, 2
    {
      ghost var w1, next := Calls(manager.model, TAbort(ref), env);
      var _ := AbortAll();
      Stop(env);
    }

    /** Counts a failure and sets the denial. */
    method MarkDenied(now: int, draw: real)
      requires Ours()
      modifies this`denylisted, this`denylistCount, manager`model
      ensures Ours()
      ensures var d := old(manager.model).queues[ref];
              manager.model == SetQueue(old(manager.model), ref, Denied(d, manager.cfg, now, draw))
      ensures denylisted == manager.model.queues[ref].denial
    {
      denylistCount := denylistCount + 1;
      if denylistCount >= manager.cfg.denyAttempts {
        denylisted := Forever;
      } else {
        denylisted := Until(now + Backoff.Ttl(manager.cfg.denyTtl, denylistCount, draw));
      }
      manager.model := SetQueue(manager.model, ref, Model());
      manager.QueueSet(old(manager.model), ref);
    }

    /** Whether dialling is allowed at a time; a deadline that has passed is dropped. */
    method IsDialAllowed(now: int) returns (allowed: bool)
      requires Ours()
      modifies this`denylisted, manager`model
      ensures Ours()
      ensures var (d, ok) := Turns.IsDialAllowed(old(manager.model).queues[ref], now);
              allowed == ok && manager.model == SetQueue(old(manager.model), ref, d)
    {
      allowed := true;
      if denylisted != NotDenied {
        if denylisted.Until? && now > denylisted.deadline {
          denylisted := NotDenied;
        } else {
          allowed := false;
        }
      }
      manager.model := SetQueue(manager.model, ref, Model());
      manager.QueueSet(old(manager.model), ref);
    }

    /** Puts a request at the end of the queue. */
    method Push(req: Request)
      requires Ours()
      modifies this`queue, manager`model
      ensures Ours()
      ensures var d := old(manager.model).queues[ref];
              manager.model == SetQueue(old(manager.model), ref, d.(pending := d.pending + [req]))
    {
      queue := queue + [req];
      manager.model := SetQueue(manager.model, ref, Model());
      manager.QueueSet(old(manager.model), ref);
    }

    /** Accepts or refuses a request; the queue is not started. */
    method Add(req: Request, now: int)
      requires Ours()
      modifies this`denylisted, this`queue, manager`model
      ensures Ours() && manager.model == Offer(old(manager.model), ref, req, now)
    {
      var allowed := IsDialAllowed(now);
      if allowed {
        Push(req);
        manager.Note([Accepted(id, req)]);
      } else {
        manager.Note([Refused(id, req, DialDenied)]);
      }
    }

    /** Forgets the denial and the failures. */
    method Pardon()
      requires Ours()
      modifies this`denylisted, this`denylistCount, manager`model
      ensures Ours()
      ensures manager.model ==
              SetQueue(old(manager.model), ref, old(manager.model).queues[ref].(denial := NotDenied, denials := 0))
    {
      denylisted, denylistCount := NotDenied, 0;
      manager.model := SetQueue(manager.model, ref, Model());
      manager.QueueSet(old(manager.model), ref);
    }

    /** Forgets the failures, after a good connection. */
    method Recover()
      requires Ours()
      modifies this`denylistCount, manager`model
      ensures Ours()
      ensures manager.model == SetQueue(old(manager.model), ref, old(manager.model).queues[ref].(denials := 0))
    {
      denylistCount := 0;
      manager.model := SetQueue(manager.model, ref, Model());
      manager.QueueSet(old(manager.model), ref);
    }

    /** One more failed dial: the queue is denied, and aborted unless it is denied for good. */
    method Deny(now: int, draw: real, env: Env)
      requires Ours()
      modifies manager, manager.connection, manager.qs, manager.cs
      ensures Ours() && manager.Grown()
      ensures var w := old(manager.model);
              var d := Denied(w.queues[ref], w.cfg, now, draw);
              Wf(SetQueue(w, ref, d)) &&
              manager.model == if d.denial == Forever then SetQueue(w, ref, d)
                               else Exec(SetQueue(w, ref, d), TAbort(ref), env)
      decreases Backlog(manager.model), |queue|, 3
    {
      MarkDenied(now, draw);
      if denylisted != Forever { Abort(env); }
    }

    /** Runs the next dial, or stops when there is none. */
    method Next(env: Env)
      requires Ours()
      modifies manager, manager.connection, manager.qs, manager.cs
      ensures Ours() && manager.Grown()
      ensures manager.model == Exec(old(manager.model), TNext(ref), env)
      decreases Backlog(manager.model), |queue|, 2, 1, 0
    {
      ghost var w1, next := NextCalls(manager.model, ref, env);
      if |queue| < 1 || !isRunning {
        Stop(env);
      } else {
        Proceed(env);
      }
    }

    /** What the next dial comes to: one over an open connection, one that fails at once, or one that is under way. */
    ghost function Proceeds(w: World, env: Env): World
      requires Wf(w) && ref < |w.queues| && w.queues[ref].pending != [] && Wf(Matched(w, ref))
    {
      var m, c := Matched(w, ref), |w.conns|;
      if FirstMuxed(w.tracked, w.conns, w.queues[ref].id).Some? then Exec(m, TNext(ref), env)
      else if env.failsNow(c) then Exec(m, TFail(c, Some(DialOp)), env)
      else m
    }

    /** Runs the next dial of a queue that has one. */
    method Proceed(env: Env)
      requires Ours() && queue != [] && isRunning && Wf(Matched(manager.model, ref))
      modifies manager, manager.connection, manager.qs, manager.cs
      ensures Ours() && manager.Grown()
      ensures manager.model == Proceeds(old(manager.model), env)
      decreases Backlog(manager.model), |queue|, 2, 0, 1
    {
      var open := manager.Find(id);
      match open {
        case Some(c) => Reuse(c, env);
        case None => DialNew(env);
      }
    }

    /** Takes the first request over an open connection, and goes on with the next dial at once. */
    method Reuse(c: ConnectionFSM<Queue>, env: Env)
      requires Ours() && queue != [] && isRunning && Wf(Matched(manager.model, ref))
      requires FirstMuxed(manager.model.tracked, manager.model.conns, id) == Some(c.ref)
      requires c.state == manager.model.conns[c.ref].state
      modifies manager, manager.connection, manager.qs, manager.cs
      ensures Ours() && manager.Grown()
      ensures manager.model == Exec(Matched(old(manager.model), ref), TNext(ref), env)
      decreases Backlog(manager.model), |queue|, 2, 0, 0
    {
      var req := TakeRequest();
      manager.Note([Started(id, req, c.ref)] + Shake(c.ref, req, c.state));
      Next(env);
    }

    /** Takes the first request, makes a connection for it and dials, which may fail at once. */
    method DialNew(env: Env)
      requires Ours() && queue != [] && isRunning && Wf(Matched(manager.model, ref))
      requires FirstMuxed(manager.model.tracked, manager.model.conns, id).None?
      modifies manager, manager.connection, manager.qs, manager.cs
      ensures Ours() && manager.Grown()
      ensures var m, n := Matched(old(manager.model), ref), |old(manager.model).conns|;
              manager.model == if env.failsNow(n) then Exec(m, TFail(n, Some(DialOp)), env) else m
      decreases Backlog(manager.model), |queue|, 2, 0, 0
    {
      var c := Connect();
      if env.failsNow(c.ref) { manager.Fail(c, Some(DialOp), env); }
    }

    /** Takes the first request and makes a connection for it. */
    method Connect() returns (c: ConnectionFSM<Queue>)
      requires Ours() && queue != [] && isRunning
      requires FirstMuxed(manager.model.tracked, manager.model.conns, id).None?
      modifies this`queue, manager`model, manager`serial, manager`cs, manager.connection
      ensures Ours() && manager.Grown()
      ensures manager.model == Matched(old(manager.model), ref)
      ensures c.ref == |old(manager.model).conns| && manager.Has(c) && |queue| < |old(queue)|
      ensures OwnerPending(manager.model, c.ref) < |old(queue)|
    {
      var req := TakeRequest();
      c := manager.Make(this, req);
      assert OwnerOk(manager.model, c.ref);
    }
  }

  /** The state in which a queue has taken its first request and has a connection for it. */
  ghost function Matched(w: World, q: nat): World
    requires Wf(w) && q < |w.queues| && w.queues[q].pending != []
  {
    var d := w.queues[q];
    var w1 := SetQueue(w, q, d.(pending := d.pending[1..]));
    match FirstMuxed(w.tracked, w.conns, d.id)
    case Some(c) => w1.(log := w.log + ([Started(d.id, d.pending[0], c)] + Shake(c, d.pending[0], w.conns[c].state)))
    case None =>
      w1.(conns := w.conns + [Dialled(d.id, q, d.pending[0])], tracked := w.tracked + [|w.conns|],
          log := w.log + [Started(d.id, d.pending[0], |w.conns|)])
  }

  lemma NextCalls(w: World, q: nat, env: Env) returns (w1: World, next: Option<Task>)
    requires Wf(w) && q < |w.queues|
    ensures Wf(w1)
    ensures var d := w.queues[q];
            if d.pending == [] || !d.running then w1 == w && next == Some(TStop(q))
            else
              w1 == Matched(w, q) &&
              next == (if FirstMuxed(w.tracked, w.conns, d.id).Some? then Some(TNext(q))
                       else if env.failsNow(|w.conns|) then Some(TFail(|w.conns|, Some(DialOp))) else None)
    ensures next.None? ==> Exec(w, TNext(q), env) == w1
    ensures next.Some? ==>
              TaskOk(w1, next.value) && Smaller(w, TNext(q), w1, next.value)
              && Exec(w, TNext(q), env) == Exec(w1, next.value, env)
  {
    w1, next := Unfold(w, TNext(q), env);
    var d := w.queues[q];
    if d.pending != [] && d.running {
      match FirstMuxed(w.tracked, w.conns, d.id)
      case Some(c) => Associates(w.log, [Started(d.id, d.pending[0], c)], Shake(c, d.pending[0], w.conns[c].state));
      case None =>
    }
  }

  /** While the manager is stopped, aborting a queue starts nothing. */
  lemma HaltedAbort(w: World, q: nat, env: Env)
    requires Wf(w) && q < |w.queues| && !w.running
    ensures Exec(w, TAbort(q), env).conns == w.conns
  {
    var a, t1 := Unfold(w, TAbort(q), env);
    var b, t2 := Unfold(a, TStop(q), env);
    if t2.Some? { var c, t3 := Unfold(b, TRun, env); }
  }

  /** The queues from position i on are in the table under their ids. */
  ghost predicate Listed(table: map<PeerId, Queue>, order: seq<PeerId>, list: seq<Queue>, i: nat) {
    && |list| == |order|
    && (forall j :: i <= j < |order| ==> order[j] in table && table[order[j]] == list[j])
  }

  lemma ListedNext(table: map<PeerId, Queue>, order: seq<PeerId>, list: seq<Queue>, i: nat)
    requires Listed(table, order, list, i) && i < |order|
    requires Distinct(order)
    ensures Listed(table, order, list, i + 1) && Listed(table - {order[i]}, order, list, i + 1)
  {
  }

  /** The states that the clean timer goes through, one queue after the other. */
  ghost predicate Visits(ws: seq<World>, order: seq<PeerId>, isConnected: PeerId -> bool, env: Env) {
    && |ws| == |order| + 1
    && (forall i :: 0 <= i < |order| ==> Visited(ws[i], order[i], isConnected, env, ws[i + 1]))
  }

  ghost predicate Visited(w: World, id: PeerId, isConnected: PeerId -> bool, env: Env, r: World) {
    && Wf(w)
    && r == if id in w.table && Stale(w.queues[w.table[id]], isConnected(id)) then Discard(w, id, env) else w
  }

  lemma {:induction false} CleanVisits(w: World, order: seq<PeerId>, isConnected: PeerId -> bool, env: Env)
    returns (ws: seq<World>)
    requires Wf(w)
    ensures Visits(ws, order, isConnected, env) && ws[0] == w && ws[|order|] == Clean(w, order, isConnected, env)
    decreases |order|
  {
    if order == [] {
      ws := [w];
    } else {
      var m := if order[0] in w.table && Stale(w.queues[w.table[order[0]]], isConnected(order[0]))
              then Discard(w, order[0], env) else w;
      var rest := CleanVisits(m, order[1..], isConnected, env);
      ws := [w] + rest;
      forall i | 0 <= i < |order| ensures Visited(ws[i], order[i], isConnected, env, ws[i + 1]) {
        if i > 0 { assert Visited(rest[i - 1], order[1..][i - 1], isConnected, env, rest[i]); }
      }
    }
  }

  /** It makes no difference whether the connection is changed before or as it moves. */
  lemma AdvanceAfter(w: World, c: nat, d: Conn, env: Env)
    requires Wf(w) && c < |w.conns| && d.owner == w.conns[c].owner && d.peer == w.conns[c].peer
    ensures Wf(w.(conns := w.conns[c := d]))
    ensures Turns.Advance(w.(conns := w.conns[c := d]), c, d, env) == Turns.Advance(w, c, d, env)
  {
    SetConnWf(w, c, d);
    assert w.conns[c := d][c := Disarm(d)] == w.conns[c := Disarm(d)];
    assert Store(w.(conns := w.conns[c := d]), c, d) == Store(w, c, d);
  }

  lemma FiredAfter(w: World, c: nat, k: Conn, e: Fsm.Event, env: Env)
    requires Wf(w) && c < |w.conns| && k.owner == w.conns[c].owner && k.peer == w.conns[c].peer
    ensures Wf(w.(conns := w.conns[c := k]))
    ensures Turns.Fired(w.(conns := w.conns[c := k]), c, k, e, env) == Turns.Fired(w, c, k, e, env)
  {
    SetConnWf(w, c, k);
    FireKeeps(k, e, env.setup);
    var m := w.(conns := w.conns[c := k]);
    match Fire(k, e, env.setup)
    case None => assert m.conns[c := k] == m.conns;
    case Some(d) =>
      assert w.conns[c := k][c := Disarm(d)] == w.conns[c := Disarm(d)];
      assert Store(m, c, d) == Store(w, c, d);
  }

  /** The connection's owner is the queue it names. */
  ghost predicate Owned(c: ConnectionFSM<Queue>, qs: seq<Queue>) {
    c.owner.Some? && c.ownerRef.Some? && c.ownerRef.value < |qs| && c.owner.value == qs[c.ownerRef.value]
  }

  /** One step of a cascade, without what the step leaves alone. */
  lemma Calls(w: World, t: Task, env: Env) returns (w1: World, next: Option<Task>)
    requires Wf(w) && TaskOk(w, t) && !t.TFail?
    ensures (w1, next) == Micro(w, t, env) && Wf(w1)
    ensures next.None? ==> Exec(w, t, env) == w1
    ensures next.Some? ==>
              TaskOk(w1, next.value) && Smaller(w, t, w1, next.value) && Exec(w, t, env) == Exec(w1, next.value, env)
  {
    w1, next := Unfold(w, t, env);
  }

  /** Closing a connection calls its owner's `next` at most, which has no more to do than the owner had. */
  lemma CloseCalls(w: World, c: nat, o: Option<Op>, env: Env) returns (w1: World, next: Option<Task>)
    requires Wf(w) && c < |w.conns|
    ensures (w1, next) == Scheduler.CloseConn(w, c, o, env) && Wf(w1)
    ensures next.None? ==> Exec(w, TClose(c, o), env) == w1
    ensures next.Some? ==>
              && w.conns[c].owner.Some? && next == Some(TNext(w.conns[c].owner.value)) && TaskOk(w1, next.value)
              && Backlog(w1) == Backlog(w) && OwnerOk(w, c)
              && |w1.queues[w.conns[c].owner.value].pending| <= OwnerPending(w, c)
              && Exec(w, TClose(c, o), env) == Exec(w1, next.value, env)
  {
    w1, next := Unfold(w, TClose(c, o), env);
    FireKeeps(Without(w.conns[c], o), Fsm.Disconnect, env.setup);
    assert OwnerOk(w, c);
  }

  /** A failed dial makes two calls, the second with no more to do than the first. */
  lemma FailCalls(w: World, c: nat, o: Option<Op>, env: Env) returns (r: World)
    requires Wf(w) && c < |w.conns|
    ensures r == Exec(w, TError(c), env) && Wf(r) && c < |r.conns|
    ensures Backlog(r) < Backlog(w) || (Backlog(r) == Backlog(w) && OwnerPending(r, c) <= OwnerPending(w, c))
    ensures Exec(w, TFail(c, o), env) == Exec(r, TClose(c, o), env)
  {
    r := UnfoldFail(w, c, o, env);
  }

  class DialQueueManager {
    const cfg: Config
    const connection: ConnectionManager<Queue>
    var queue: seq<PeerId>
    var coldCallQueue: seq<PeerId>
    var dialingQueues: set<PeerId>
    var queues: map<PeerId, Queue>
    var isRunning: bool
    var serial: nat                             // how many connections have been made
    ghost var model: World
    ghost var qs: seq<Queue>                    // every queue ever made
    ghost var cs: seq<ConnectionFSM<Queue>>     // every connection ever made

    /** The fields of the manager itself. */
    ghost predicate OwnFields()
      reads this
    {
      && model.cfg == cfg && model.running == isRunning
      && model.waiting == queue && model.cold == coldCallQueue && model.dialing == dialingQueues
      && queues.Keys == model.table.Keys
      && (forall id :: id in queues ==> model.table[id] < |qs| && queues[id] == qs[model.table[id]])
    }

    ghost predicate QueuesMatch()
      reads this, qs
    {
      && |qs| == |model.queues|
      && (forall i :: 0 <= i < |qs| ==> qs[i].ref == i && qs[i].manager == this && qs[i].Model() == model.queues[i])
    }

    ghost predicate ConnsMatch()
      reads this, cs
    {
      && serial == |cs| == |model.conns|
      && (forall i :: 0 <= i < |cs| ==> cs[i].ref == i && cs[i].Wired() && cs[i].Model() == model.conns[i])
      && (forall i :: 0 <= i < |cs| && cs[i].owner.Some? ==> Owned(cs[i], qs))
    }

    /** The connections with these numbers. */
    ghost predicate Numbered(list: seq<ConnectionFSM<Queue>>, refs: seq<nat>)
      reads this
    {
      && |list| == |refs|
      && (forall i :: 0 <= i < |refs| ==> refs[i] < |cs| && list[i] == cs[refs[i]])
    }

    ghost predicate TrackedMatch()
      reads this, connection
    {
      Numbered(connection.tracked, model.tracked)
    }

    ghost predicate Valid()
      reads this, connection, qs, cs
    {
      Wf(model) && OwnFields() && QueuesMatch() && ConnsMatch() && connection.Valid() && TrackedMatch()
    }

    /** The queues known before are the queues known now; connections may have been added. */
    twostate predicate Grown()
      reads this
    {
      qs == old(qs) && old(cs) <= cs && forall i :: |old(cs)| <= i < |cs| ==> fresh(cs[i])
    }

    constructor (cfg: Config)
      ensures Valid() && model == Init(cfg) && qs == [] && cs == [] && fresh(connection)
      ensures isRunning && queue == [] && coldCallQueue == [] && dialingQueues == {}
              && queues == map[] && this.cfg == cfg
    {
      this.cfg := cfg;
      connection := new ConnectionManager<Queue>();
      queue, coldCallQueue, dialingQueues, queues, isRunning, serial := [], [], {}, map[], true, 0;
      model, qs, cs := Init(cfg), [], [];
    }

    /** A change of one queue's fields and of the dialing set keeps the state well-formed. */
    lemma QueueSet(w: World, q: nat)
      requires Wf(w) && q < |w.queues| && |model.queues| == |w.queues| && model.queues[q].id == w.queues[q].id
      requires forall k :: 0 <= k < |w.queues| && k != q ==> model.queues[k] == w.queues[k]
      requires model == w.(queues := model.queues, dialing := model.dialing, log := model.log)
      ensures Wf(model)
    {
      OwnersKept(w, model);
    }

    /** Takes the id that is next in line out of its set. */
    method TakeId() returns (id: Option<PeerId>)
      requires Valid()
      modifies this`queue, this`coldCallQueue, this`model
      ensures Valid()
      ensures var w := old(model);
              if w.waiting != [] then
                id == Some(w.waiting[0]) && model == w.(waiting := w.waiting[1..], popped := w.popped + [w.waiting[0]])
              else if w.cold != [] then id == Some(w.cold[0]) && model == w.(cold := w.cold[1..])
              else id == None && model == w
    {
      id := None;
      if |queue| > 0 {
        id := Some(queue[0]);
        model := model.(waiting := queue[1..], popped := model.popped + [queue[0]]);
        queue := queue[1..];
      } else if |coldCallQueue| > 0 {
        id := Some(coldCallQueue[0]);
        model := model.(cold := coldCallQueue[1..]);
        coldCallQueue := coldCallQueue[1..];
      }
      SameWf(old(model), model);
    }

    /** Gives the slot to the queue of an id, if there is one. */
    method Occupy(id: PeerId) returns (q: Option<Queue>)
      requires Valid()
      modifies this`dialingQueues, this`model
      ensures Valid() && model == Launch(old(model), id).0
      ensures q.Some? ==>
                q.value.Ours() && q.value.manager == this && Launch(old(model), id).1 == Some(TStart(q.value.ref))
      ensures q.None? ==> Launch(old(model), id).1 == None
    {
      if id !in queues { return None; }
      dialingQueues := dialingQueues + {id};
      model := Launch(model, id).0;
      SameWf(old(model), model);
      q := Some(queues[id]);
    }

    /** Takes the next waiting id out of its set, if a slot is free; its queue gets the slot. */
    method PickNext() returns (q: Option<Queue>)
      requires Valid()
      modifies this`queue, this`coldCallQueue, this`dialingQueues, this`model
      ensures Valid() && model == RunOnce(old(model)).0
      ensures q.Some? ==>
                q.value.Ours() && q.value.manager == this && RunOnce(old(model)).1 == Some(TStart(q.value.ref))
      ensures q.None? ==> RunOnce(old(model)).1 == None
    {
      q := None;
      if isRunning && |dialingQueues| < cfg.maxParallelDials {
        var id := TakeId();
        if id.Some? { q := Occupy(id.value); }
      }
    }

    /** Starts the queue of the next waiting id, if a slot is free. */
    method Run(env: Env)
      requires Valid()
      modifies this, connection, qs, cs
      ensures Valid() && Grown()
      ensures model == Exec(old(model), TRun, env)
      decreases Backlog(model), 0, 0
    {
      ghost var w1, next := Calls(model, TRun, env);
      var q := PickNext();
      if q.Some? { q.value.Start(env); }
    }

    /** Appends to the log what a call made known. */
    ghost method Note(entries: seq<Entry>)
      requires Valid()
      modifies this`model
      ensures Valid() && model == old(model).(log := old(model).log + entries)
    {
      model := model.(log := model.log + entries);
      SameWf(old(model), model);
    }

    /** The tracked muxed connection to a peer, if there is one. */
    method Find(id: PeerId) returns (r: Option<ConnectionFSM<Queue>>)
      requires Valid()
      ensures match FirstMuxed(model.tracked, model.conns, id)
              case None => r == None
              case Some(c) => c < |cs| && r == Some(cs[c]) && cs[c].ref == c && cs[c].state == model.conns[c].state
    {
      r := connection.GetOne(id);
      SameFirst(connection.tracked, model.tracked, id);
    }

    lemma {:induction false} SameFirst(list: seq<ConnectionFSM<Queue>>, tracked: seq<nat>, id: PeerId)
      requires ConnsMatch() && Numbered(list, tracked)
      ensures match FirstMuxed(tracked, model.conns, id)
              case None => FirstMuxedIn(list, id) == None
              case Some(c) => c < |cs| && FirstMuxedIn(list, id) == Some(cs[c])
    {
      if tracked != [] {
        assert cs[tracked[0]].Model() == model.conns[tracked[0]];
        SameFirst(list[1..], tracked[1..], id);
      }
    }

    /** The manager made this connection. */
    ghost predicate Has(c: ConnectionFSM<Queue>)
      reads this
    {
      c.ref < |cs| && cs[c.ref] == c
    }

    /** A wired connection told to dial, not tracked yet. */
    static method DialOut(id: PeerId, q: Queue, req: Request, ref: nat) returns (c: ConnectionFSM<Queue>)
      ensures fresh(c) && c.ref == ref && c.Wired() && c.owner == Some(q) && c.Model() == Dialled(id, q.ref, req)
    {
      c := new ConnectionFSM<Queue>.Outbound(id, q, req, q.ref, ref);
      var _ := c.Transition(Fsm.Dial, Setup(false, false, false));
    }

    /** Makes a connection for a queue's request, tracks it, and tells it to dial. */
    method Make(q: Queue, req: Request) returns (c: ConnectionFSM<Queue>)
      requires q.manager == this && q.Ours()
      modifies this`serial, this`cs, this`model, connection
      ensures Valid() && fresh(c) && qs == old(qs) && cs == old(cs) + [c] && c.ref == |old(cs)|
      ensures var w := old(model);
              model == w.(conns := w.conns + [Dialled(q.id, q.ref, req)], tracked := w.tracked + [|w.conns|],
                          log := w.log + [Started(q.id, req, |w.conns|)])
    {
      c := DialOut(q.id, q, req, serial);
      Register(c);
      Note([Started(q.id, req, c.ref)]);
    }

    lemma NotTracked(c: ConnectionFSM<Queue>)
      requires Valid() && c !in cs
      ensures c !in connection.tracked
    {
      forall i | 0 <= i < |connection.tracked| ensures connection.tracked[i] != c {
        assert cs[model.tracked[i]] in cs;
      }
    }

    /** Counts a new connection. */
    method Own(c: ConnectionFSM<Queue>)
      requires Valid() && c.ref == serial && c.Wired()
      requires c.owner.Some? ==> Owned(c, qs) && c.owner.value.id == c.theirB58Id
      modifies this`serial, this`cs, this`model
      ensures Valid() && qs == old(qs) && cs == old(cs) + [c]
      ensures model == old(model).(conns := old(model).conns + [c.Model()])
    {
      if c.owner.Some? { assert qs[c.ownerRef.value].Model() == model.queues[c.ownerRef.value]; }
      serial := serial + 1;
      cs := cs + [c];
      model := model.(conns := model.conns + [c.Model()]);
      forall k | 0 <= k < |model.conns| ensures OwnerOk(model, k) {
        if k < |old(model).conns| { assert OwnerOk(old(model), k); }
      }
    }

    lemma TrackedWf(w: World, c: nat)
      requires Wf(w) && c < |w.conns|
      ensures Wf(w.(tracked := w.tracked + [c]))
    {
      var r := w.(tracked := w.tracked + [c]);
      forall k | 0 <= k < |r.conns| ensures OwnerOk(r, k) { assert OwnerOk(w, k); }
    }

    /** Tracks a connection. */
    method Track(c: ConnectionFSM<Queue>)
      requires Valid() && Has(c) && c !in connection.tracked
      modifies this`model, connection
      ensures Valid() && model == old(model).(tracked := old(model).tracked + [c.ref])
    {
      AddTracked(c);
      CatchUp(c);
    }

    /** Everything in order, but the table has one more connection than the model. */
    ghost predicate AheadBy(c: ConnectionFSM<Queue>)
      reads this, connection, qs, cs
    {
      && Wf(model) && OwnFields() && QueuesMatch() && ConnsMatch() && connection.Valid() && Has(c)
      && Numbered(connection.tracked, model.tracked + [c.ref])
    }

    ghost method CatchUp(c: ConnectionFSM<Queue>)
      requires AheadBy(c)
      modifies this`model
      ensures Valid() && model == old(model).(tracked := old(model).tracked + [c.ref])
    {
      TrackedWf(model, c.ref);
      model := model.(tracked := model.tracked + [c.ref]);
    }

    /** Adds a connection to the table, which is then ahead of the model. */
    method AddTracked(c: ConnectionFSM<Queue>)
      requires Valid() && Has(c) && c !in connection.tracked
      modifies connection
      ensures AheadBy(c)
    {
      connection.Add(c);
    }

    /** Tracks a new connection. */
    method Register(c: ConnectionFSM<Queue>)
      requires Valid() && c !in cs && c.ref == serial && c.Wired()
      requires c.owner.Some? ==> Owned(c, qs) && c.owner.value.id == c.theirB58Id
      modifies this`serial, this`cs, this`model, connection
      ensures Valid() && qs == old(qs) && cs == old(cs) + [c]
      ensures var w := old(model); model == w.(conns := w.conns + [c.Model()], tracked := w.tracked + [|w.conns|])
    {
      NotTracked(c);
      Own(c);
      Track(c);
    }

    /** A dial that failed: reports the error, then closes. */
    method Fail(c: ConnectionFSM<Queue>, o: Option<Op>, env: Env)
      requires Valid() && Has(c)
      modifies this, connection, qs, cs
      ensures Valid() && Grown()
      ensures model == Exec(old(model), TFail(c.ref, o), env)
      decreases Backlog(model), OwnerPending(model, c.ref), 5
    {
      ghost var r := FailCalls(model, c.ref, o, env);
      ReportError(c, env);
      CloseConn(c, o, env);
    }

    /** The queue that wired a connection is one of this manager's. */
    lemma OwnerOurs(c: ConnectionFSM<Queue>)
      requires Valid() && Has(c)
      ensures OwnerOk(model, c.ref) && model.conns[c.ref] == c.Model()
      ensures c.owner.Some? ==>
                c.ownerRef.Some? && c.owner.value.manager == this
                && c.owner.value.Ours() && c.owner.value.ref == c.ownerRef.value
    {
      assert cs[c.ref].Model() == model.conns[c.ref];
      assert OwnerOk(model, c.ref);
    }

    /** Reports an error on a connection: its listener runs once, and denies the queue that attached it. */
    method ReportError(c: ConnectionFSM<Queue>, env: Env)
      requires Valid() && Has(c)
      modifies this, connection, qs, cs
      ensures Valid() && Grown()
      ensures model == Exec(old(model), TError(c.ref), env)
      decreases Backlog(model), OwnerPending(model, c.ref), 4
    {
      ghost var w1, next := Calls(model, TError(c.ref), env);
      OwnerOurs(c);
      if c.errorArmed && c.owner.Some? {
        Unhook(c);
        if !env.keeps(c.ref) { c.owner.value.Deny(env.now(c.ref), env.draw(c.ref), env); }
      }
    }

    /** Everything in order, but the model may not know yet what changed in one connection. */
    ghost predicate OutOfStep(c: ConnectionFSM<Queue>)
      reads this, connection, qs, cs
    {
      && Wf(model) && OwnFields() && QueuesMatch() && connection.Valid() && TrackedMatch() && Has(c)
      && serial == |cs| == |model.conns|
      && (forall i :: 0 <= i < |cs| ==>
            cs[i].ref == i && cs[i].Wired() && (i == c.ref || cs[i].Model() == model.conns[i]))
      && (forall i :: 0 <= i < |cs| && cs[i].owner.Some? ==> Owned(cs[i], qs))
      && model.conns[c.ref].owner == c.ownerRef && model.conns[c.ref].peer == c.theirB58Id
    }

    /** Tells the model what changed in a connection. */
    ghost method Sync(c: ConnectionFSM<Queue>)
      requires OutOfStep(c)
      modifies this`model
      ensures Valid() && model == old(model).(conns := old(model).conns[c.ref := c.Model()])
    {
      SetConnWf(model, c.ref, c.Model());
      model := model.(conns := model.conns[c.ref := c.Model()]);
    }

    /** Uses up the error listener. */
    method Unhook(c: ConnectionFSM<Queue>)
      requires Valid() && Has(c)
      modifies c`errorArmed, this`model
      ensures Valid()
      ensures model == old(model).(conns := old(model).conns[c.ref := old(model).conns[c.ref].(errorArmed := false)])
    {
      assert cs[c.ref].Model() == model.conns[c.ref];
      c.errorArmed := false;
      Sync(c);
    }

    /** Closes a connection: it disconnects, its listeners run, and the queue that wired it goes on. */
    method CloseConn(c: ConnectionFSM<Queue>, o: Option<Op>, env: Env)
      requires Valid() && Has(c)
      modifies this, connection, qs, cs
      ensures Valid() && Grown()
      ensures model == Exec(old(model), TClose(c.ref, o), env)
      decreases Backlog(model), OwnerPending(model, c.ref), 4
    {
      ghost var w1, next := CloseCalls(model, c.ref, o, env);
      OwnerOurs(c);
      var wakes := Disconnect(c, o, env.setup);
      if wakes { c.owner.value.Next(env); }
    }

    /** Fires `disconnect` and runs what listens to it; returns whether the owner's `next` is called. */
    method Disconnect(c: ConnectionFSM<Queue>, o: Option<Op>, setup: Setup) returns (wakes: bool)
      requires Valid() && Has(c)
      modifies c, connection, this`model
      ensures Valid()
      ensures var k := Without(old(model).conns[c.ref], o);
              match Fire(k, Fsm.Disconnect, setup)
              case None => !wakes && model == old(model).(conns := old(model).conns[c.ref := k])
              case Some(d) => wakes == Wakes(d).Some? && model == Store(old(model), c.ref, d)
    {
      Forget(c, o);
      var moved := Move(c, Fsm.Disconnect, setup);
      wakes := false;
      if moved { wakes := Settled(c); }
    }

    /** An operation's callback has returned. */
    ghost method Forget(c: ConnectionFSM<Queue>, o: Option<Op>)
      requires Valid() && Has(c)
      modifies c`ops, this`model
      ensures Valid()
      ensures model == old(model).(conns := old(model).conns[c.ref := Without(old(model).conns[c.ref], o)])
    {
      assert cs[c.ref].Model() == model.conns[c.ref];
      if o.Some? { c.ops := c.ops - {o.value}; }
      Sync(c);
    }

    /** Fires an event at a connection. */
    method Move(c: ConnectionFSM<Queue>, e: Fsm.Event, setup: Setup) returns (moved: bool)
      requires Valid() && Has(c)
      modifies c, this`model
      ensures Valid()
      ensures var k := old(model).conns[c.ref];
              moved == Fire(k, e, setup).Some? &&
              model == old(model).(conns := old(model).conns[c.ref := if moved then Fire(k, e, setup).value else k])
    {
      assert cs[c.ref].Model() == model.conns[c.ref];
      moved := c.Transition(e, setup);
      Sync(c);
    }

    /** The listeners of the state a connection has moved to, except the queue's `next`. */
    method Settled(c: ConnectionFSM<Queue>) returns (wakes: bool)
      requires Valid() && Has(c)
      modifies c`nextArmed, c`errorArmed, connection, this`model
      ensures Valid()
      ensures var d := old(model).conns[c.ref];
              wakes == Wakes(d).Some? && model == Store(old(model), c.ref, d)
    {
      assert cs[c.ref].Model() == model.conns[c.ref];
      if c.state == Disconnected { Untrack(c); }
      wakes := UseUp(c);
    }

    /** Uses up the one-shot listeners of the state reached. */
    method UseUp(c: ConnectionFSM<Queue>) returns (wakes: bool)
      requires Valid() && Has(c)
      modifies c`nextArmed, c`errorArmed, this`model
      ensures Valid()
      ensures var d := old(model).conns[c.ref];
              wakes == Wakes(d).Some? && model == old(model).(conns := old(model).conns[c.ref := Disarm(d)])
    {
      assert cs[c.ref].Model() == model.conns[c.ref];
      wakes := c.owner.Some? && c.nextArmed && !InFlight(c.state);
      c.nextArmed, c.errorArmed := c.nextArmed && InFlight(c.state), c.errorArmed && c.state != Disconnected;
      Sync(c);
    }

    lemma UntrackedWf(w: World, c: nat)
      requires Wf(w)
      ensures Wf(w.(tracked := Scheduler.Remove<nat>(w.tracked, c)))
    {
      var r := w.(tracked := Scheduler.Remove<nat>(w.tracked, c));
      forall k | 0 <= k < |r.conns| ensures OwnerOk(r, k) { assert OwnerOk(w, k); }
      forall i | 0 <= i < |r.tracked| ensures r.tracked[i] < |r.conns| { assert r.tracked[i] in w.tracked; }
    }

    /** Removing a connection from a list removes its number from the list of their numbers. */
    lemma {:induction false} SameRemove(list: seq<ConnectionFSM<Queue>>, tracked: seq<nat>, c: ConnectionFSM<Queue>)
      requires ConnsMatch() && Has(c) && Numbered(list, tracked)
      ensures Numbered(Scheduler.Remove(list, c), Scheduler.Remove<nat>(tracked, c.ref))
    {
      if tracked != [] {
        assert cs[tracked[0]].ref == tracked[0];
        SameRemove(list[1..], tracked[1..], c);
      }
    }

    /** A closed connection is no longer tracked. */
    method Untrack(c: ConnectionFSM<Queue>)
      requires Valid() && Has(c)
      modifies connection, this`model
      ensures Valid() && model == old(model).(tracked := Scheduler.Remove<nat>(old(model).tracked, c.ref))
    {
      Splice(c);
      FollowUp(c);
    }

    /** Everything in order, but the table has one connection less than the model. */
    ghost predicate BehindBy(c: ConnectionFSM<Queue>)
      reads this, connection, qs, cs
    {
      && Wf(model) && OwnFields() && QueuesMatch() && ConnsMatch() && connection.Valid() && Has(c)
      && Numbered(connection.tracked, Scheduler.Remove<nat>(model.tracked, c.ref))
    }

    method Splice(c: ConnectionFSM<Queue>)
      requires Valid() && Has(c)
      modifies connection
      ensures BehindBy(c)
    {
      SameRemove(connection.tracked, model.tracked, c);
      connection.Remove(c);
    }

    ghost method FollowUp(c: ConnectionFSM<Queue>)
      requires BehindBy(c)
      modifies this`model
      ensures Valid() && model == old(model).(tracked := Scheduler.Remove<nat>(old(model).tracked, c.ref))
    {
      UntrackedWf(model, c.ref);
      model := model.(tracked := Scheduler.Remove<nat>(model.tracked, c.ref));
    }

    // ---------------------------------------------------------------- turns

    /** As Grown, and queues may have been added. */
    twostate predicate Extended()
      reads this
    {
      && old(qs) <= qs && (forall i :: |old(qs)| <= i < |qs| ==> fresh(qs[i]))
      && old(cs) <= cs && (forall i :: |old(cs)| <= i < |cs| ==> fresh(cs[i]))
    }

    /** The queue of an id; one is made if there is none. */
    method GetQueue(id: PeerId) returns (q: Queue)
      requires Valid()
      modifies this`queues, this`qs, this`model
      ensures Valid() && Extended() && cs == old(cs)
      ensures model == Turns.GetQueue(old(model), id)
      ensures q.manager == this && q.Ours() && q.id == id && id in model.table && model.table[id] == q.ref
    {
      if id !in queues {
        q := new Queue(id, this, |qs|);
        Enlist(q);
      } else {
        q := queues[id];
      }
    }

    /** Adds a new queue to the table. */
    method Enlist(q: Queue)
      requires Valid() && q.id !in queues && q.manager == this
      requires q.ref == |qs| && q.Model() == DialQueue(q.id, [], NotDenied, 0, false)
      modifies this`queues, this`qs, this`model
      ensures Valid() && qs == old(qs) + [q] && cs == old(cs)
      ensures model == Turns.GetQueue(old(model), q.id)
    {
      GetQueueWf(model, q.id);
      queues, qs, model := queues[q.id := q], qs + [q], Turns.GetQueue(model, q.id);
      assert OwnFields();
    }

    /** Lets an id wait for a slot. */
    method Enqueue(id: PeerId, priority: int)
      requires Valid()
      modifies this`queue, this`coldCallQueue, this`model
      ensures Valid() && model == Turns.Enqueue(old(model), id, priority)
    {
      if priority <= PRIORITY_HIGH {
        queue := Include(queue, id);
        coldCallQueue := Scheduler.Remove(coldCallQueue, id);
      } else {
        coldCallQueue := Include(coldCallQueue, id);
      }
      EnqueueWf(model, id, priority);
      model := Turns.Enqueue(model, id, priority);
    }

    /** Without a connection: unless dialling is denied, the id waits for a slot, and the manager runs. */
    method Place(q: Queue, priority: int, now: int, env: Env)
      requires q.manager == this && q.Ours()
      modifies this, connection, qs, cs
      ensures Valid() && Grown()
      ensures model == Turns.Place(old(model), q.ref, q.id, priority, now, env)
    {
      var allowed := q.IsDialAllowed(now);
      if allowed {
        if !q.isRunning { Enqueue(q.id, priority); }
        Run(env);
      }
    }

    /** Adds a dial request and sees that its queue runs when it can. */
    method Add(id: PeerId, req: Request, priority: int, connected: bool, t1: int, t2: int, env: Env)
      requires Valid()
      modifies this, connection, qs, cs
      ensures Valid() && Extended()
      ensures model == Turns.Add(old(model), id, req, priority, connected, t1, t2, env)
    {
      var q := GetQueue(id);
      if priority > PRIORITY_HIGH && (|coldCallQueue| >= cfg.maxColdCalls || id in queue) {
        Note([Refused(id, req, DialAborted)]);
      } else {
        Admit(q, req, priority, connected, t1, t2, env);
      }
    }

    /** Offers a request to its queue; the queue of a connected peer starts outside the slots. */
    method Admit(q: Queue, req: Request, priority: int, connected: bool, t1: int, t2: int, env: Env)
      requires q.manager == this && q.Ours()
      modifies this, connection, qs, cs
      ensures Valid() && Grown()
      ensures var w := Offer(old(model), q.ref, req, t1);
              Wf(w) && model == if connected then Exec(w, TStart(q.ref), env)
                                else Turns.Place(w, q.ref, q.id, priority, t2, env)
    {
      q.Add(req, t1);
      if connected {
        q.Start(env);
      } else {
        Place(q, priority, t2, env);
      }
    }

    /** Lets the manager run again; it does not run at once. */
    method Start()
      requires Valid()
      modifies this`isRunning, this`model
      ensures Valid() && model == old(model).(running := true)
    {
      SameWf(model, model.(running := true));
      isRunning, model := true, model.(running := true);
    }

    /** Takes a peer off the denylist. */
    method ClearDenylist(id: PeerId)
      requires Valid()
      modifies this, connection, qs, cs
      ensures Valid() && Extended() && cs == old(cs)
      ensures model == Turns.ClearDenylist(old(model), id)
    {
      var q := GetQueue(id);
      q.Pardon();
    }

    /** Aborts a queue and deletes it. */
    method Discard(q: Queue, env: Env)
      requires q.manager == this && q.Ours() && q.id in queues && queues[q.id] == q
      modifies this, connection, qs, cs
      ensures Valid() && Grown()
      ensures model == Turns.Discard(old(model), q.id, env) && queues == old(queues) - {q.id}
    {
      q.Abort(env);
      SameQueues();
      Delete(q.id);
    }

    /** The table holds the same queues as long as the model's table is the same. */
    twostate lemma SameQueues()
      requires old(Valid()) && Valid() && qs == old(qs) && model.table == old(model.table)
      ensures queues == old(queues)
    {
      assert queues.Keys == old(queues).Keys;
      forall id | id in queues ensures queues[id] == old(queues)[id] {
        assert queues[id] == qs[model.table[id]];
      }
    }

    /** Deletes a queue from the table. */
    method Delete(id: PeerId)
      requires Valid()
      modifies this`queues, this`model
      ensures Valid() && model == Drop(old(model), id) && queues == old(queues) - {id}
    {
      DropWf(model, id);
      queues, model := queues - {id}, Drop(model, id);
    }

    /** All queues, in the order in which the engine lists their ids. */
    method Values(order: seq<PeerId>) returns (list: seq<Queue>)
      requires Valid() && Lists(order, model.table)
      ensures Listed(queues, order, list, 0)
    {
      list := [];
      for i := 0 to |order|
        invariant |list| == i && forall j :: 0 <= j < i ==> order[j] in queues && queues[order[j]] == list[j]
      {
        assert order[i] in order;
        list := list + [queues[order[i]]];
      }
    }

    /** The two sets are emptied, and nothing runs any more. */
    method Halt()
      requires Valid()
      modifies this`isRunning, this`queue, this`coldCallQueue, this`model
      ensures Valid() && model == old(model).(running := false, waiting := [], cold := [])
    {
      SameWf(model, model.(running := false, waiting := [], cold := []));
      isRunning, queue, coldCallQueue, model := false, [], [], model.(running := false, waiting := [], cold := []);
    }

    /** Stops the manager: every queue is aborted and deleted, in the order in which the engine lists them. */
    method Stop(order: seq<PeerId>, env: Env)
      requires Valid() && Lists(order, model.table)
      modifies this, connection, qs, cs
      ensures Valid() && qs == old(qs) && cs == old(cs)
      ensures model == StopManager(old(model), order, env)
    {
      Halt();
      var list := Values(order);
      DiscardEach(order, list, env);
    }

    method DiscardAt(ghost order: seq<PeerId>, list: seq<Queue>, i: nat, env: Env)
      requires Valid() && Listed(queues, order, list, i) && i < |list| && Distinct(order) && !isRunning
      modifies this, connection, qs, cs
      ensures Valid() && qs == old(qs) && cs == old(cs) && Listed(queues, order, list, i + 1) && !isRunning
      ensures DiscardAll(model, order[i + 1..], env) == DiscardAll(old(model), order[i..], env)
    {
      ListedNext(queues, order, list, i);
      HaltedAbort(model, list[i].ref, env);
      Discard(list[i], env);
      assert order[i..][0] == order[i] && order[i..][1..] == order[i + 1..];
    }

    /** Discards the queues one after the other; none of it starts a dial. */
    method DiscardEach(ghost order: seq<PeerId>, list: seq<Queue>, env: Env)
      requires Valid() && Distinct(order) && Listed(queues, order, list, 0) && !isRunning
      modifies this, connection, qs, cs
      ensures Valid() && qs == old(qs) && cs == old(cs)
      ensures model == DiscardAll(old(model), order, env)
    {
      for i := 0 to |list|
        invariant Valid() && qs == old(qs) && cs == old(cs) && Listed(queues, order, list, i) && !isRunning
        invariant DiscardAll(model, order[i..], env) == DiscardAll(old(model), order, env)
      {
        DiscardAt(order, list, i, env);
      }
    }

    /** What the clean timer does with one queue. */
    method Visit(q: Queue, connected: bool, env: Env)
      requires q.manager == this && q.Ours() && q.id in queues && queues[q.id] == q
      modifies this, connection, qs, cs
      ensures Valid() && Grown()
      ensures var gone := Stale(old(model).queues[q.ref], connected);
              && model == (if gone then Turns.Discard(old(model), q.id, env) else old(model))
              && queues == if gone then old(queues) - {q.id} else old(queues)
    {
      if q.denylisted == Forever {
        Discard(q, env);
      } else if q.denylisted == NotDenied && !q.isRunning && |q.queue| < 1 && !connected {
        Discard(q, env);
      }
    }

    method VisitAt(order: seq<PeerId>, list: seq<Queue>, i: nat,
                   isConnected: PeerId -> bool, env: Env, ghost ws: seq<World>)
      requires Valid() && Listed(queues, order, list, i) && i < |list| && Distinct(order)
      requires Visits(ws, order, isConnected, env) && model == ws[i]
      modifies this, connection, qs, cs
      ensures Valid() && Grown() && Listed(queues, order, list, i + 1) && model == ws[i + 1]
    {
      ListedNext(queues, order, list, i);
      Visit(list[i], isConnected(order[i]), env);
    }

    /** The clean timer: discards the queues that are no longer valid. */
    method Clean(order: seq<PeerId>, isConnected: PeerId -> bool, env: Env)
      requires Valid() && Lists(order, model.table)
      modifies this, connection, qs, cs
      ensures Valid() && Grown()
      ensures model == Turns.Clean(old(model), order, isConnected, env)
    {
      var list := Values(order);
      ghost var ws := CleanVisits(model, order, isConnected, env);
      VisitEach(order, list, isConnected, env, ws);
    }

    method VisitEach(order: seq<PeerId>, list: seq<Queue>, isConnected: PeerId -> bool, env: Env, ghost ws: seq<World>)
      requires Valid() && Distinct(order) && Listed(queues, order, list, 0)
      requires Visits(ws, order, isConnected, env) && model == ws[0]
      modifies this, connection, qs, cs
      ensures Valid() && Grown() && model == ws[|order|]
    {
      for i := 0 to |list|
        invariant Valid() && Grown() && Listed(queues, order, list, i) && model == ws[i]
      {
        VisitAt(order, list, i, isConnected, env, ws);
      }
    }

    // ---------------------------------------------------------------- connections

    /** An inbound muxed connection is tracked, and clears its peer's denial. */
    method Accept(id: PeerId)
      requires Valid()
      modifies this, connection, qs, cs
      ensures Valid() && Extended()
      ensures model == Turns.Accept(old(model), id)
    {
      Receive(id);
      ClearDenylist(id);
    }

    /** Makes and tracks an inbound connection. */
    method Receive(id: PeerId)
      requires Valid()
      modifies this`serial, this`cs, this`model, connection
      ensures Valid() && Grown()
      ensures var w := old(model); model == w.(conns := w.conns + [Inbound(id)], tracked := w.tracked + [|w.conns|])
    {
      var c := new ConnectionFSM<Queue>.Inc(id, serial);
      Register(c);
    }

    /** Closes a connection, reporting an error if there is one. */
    method Close(c: ConnectionFSM<Queue>, err: bool, o: Option<Op>, env: Env)
      requires Valid() && Has(c)
      modifies this, connection, qs, cs
      ensures Valid() && Grown()
      ensures model == CloseWith(old(model), c.ref, err, o, env)
    {
      OwnerOurs(c);
      if c.state == Disconnecting {
        Forget(c, o);
      } else if err {
        Fail(c, o, env);
      } else {
        CloseConn(c, o, env);
      }
    }

    /** The queue's `muxed` and `unmuxed` listeners: reset its failures and shake the request's protocol. */
    method Greet(c: ConnectionFSM<Queue>)
      requires Valid() && Has(c) && c.owner.Some? && c.dial.Some?
      modifies this, connection, qs, cs
      ensures Valid() && Grown()
      ensures old(model).conns[c.ref].owner.Some? && old(model).conns[c.ref].dial.Some?
      ensures model == Turns.Greet(old(model), c.ref)
    {
      OwnerOurs(c);
      c.owner.value.Recover();
      Note(Shake(c.ref, c.dial.value, c.state));
    }

    /** What follows a transition: listeners run, and the owner goes on to its next dial. */
    method Advance(c: ConnectionFSM<Queue>, env: Env)
      requires Valid() && Has(c)
      modifies this, connection, qs, cs
      ensures Valid() && Extended()
      ensures model == Turns.Advance(old(model), c.ref, old(model).conns[c.ref], env)
    {
      OwnerOurs(c);
      var wakes := Announce(c);
      if wakes { c.owner.value.Next(env); }
    }

    /** Runs what listens to the state a connection has moved to, except the queue's `next`. */
    method Announce(c: ConnectionFSM<Queue>) returns (wakes: bool)
      requires Valid() && Has(c)
      modifies this, connection, qs, cs
      ensures Valid() && Extended() && cs == old(cs)
      ensures var d := old(model).conns[c.ref];
              model == Announced(old(model), c.ref, d) && wakes == Wakes(d).Some?
    {
      OwnerOurs(c);
      wakes := Settled(c);
      Welcome(c);
    }

    /** A connection that has opened clears its peer's denial, and serves the request it was made for. */
    method Welcome(c: ConnectionFSM<Queue>)
      requires Valid() && Has(c)
      modifies this, connection, qs, cs
      ensures Valid() && Extended() && cs == old(cs)
      ensures var w, k := old(model), old(model).conns[c.ref];
              var w2 := if k.state == Muxed then Turns.ClearDenylist(w, k.peer) else w;
              Wf(w2) && |w2.conns| == |w.conns| && w2.conns[c.ref] == k &&
              model == if (k.state == Muxed || k.state == Connected) && k.owner.Some? && k.dial.Some?
                       then Turns.Greet(w2, c.ref) else w2
    {
      OwnerOurs(c);
      if c.state == Muxed { ClearDenylist(c.theirB58Id); }
      if (c.state == Muxed || c.state == Connected) && c.owner.Some? && c.dial.Some? { Greet(c); }
    }

    /** What an operation hands over as it reports success. */
    method Deliver(c: ConnectionFSM<Queue>, o: Op, setup: Setup)
      requires Valid() && Has(c)
      modifies c`muxer, c`ops, this`model
      ensures Valid()
      ensures model == old(model).(conns := old(model).conns[c.ref := Delivered(old(model).conns[c.ref], o, setup)])
    {
      assert cs[c.ref].Model() == model.conns[c.ref];
      c.ops, c.muxer := Delivered(c.Model(), o, setup).ops, o == MuxOp || (o != EndOp && c.muxer);
      Sync(c);
    }

    /** Fires an event at a connection; what the table does not allow is reported as an error. */
    method Fired(c: ConnectionFSM<Queue>, e: Fsm.Event, env: Env)
      requires Valid() && Has(c)
      modifies this, connection, qs, cs
      ensures Valid() && Extended()
      ensures model == Turns.Fired(old(model), c.ref, old(model).conns[c.ref], e, env)
    {
      ghost var w := model;
      FireKeeps(w.conns[c.ref], e, env.setup);
      var moved := Move(c, e, env.setup);
      if moved {
        AdvanceAfter(w, c.ref, model.conns[c.ref], env);
        Advance(c, env);
      } else {
        ReportError(c, env);
      }
    }

    /** An operation reports success, and the event that goes with it is fired. */
    method Succeed(c: ConnectionFSM<Queue>, o: Op, env: Env)
      requires Valid() && Has(c)
      modifies this, connection, qs, cs
      ensures Valid() && Extended()
      ensures var w := old(model);
              model == Turns.Fired(w, c.ref, Delivered(w.conns[c.ref], o, env.setup), Done, env)
    {
      FiredAfter(model, c.ref, Delivered(model.conns[c.ref], o, env.setup), Done, env);
      Deliver(c, o, env.setup);
      Fired(c, Done, env);
    }

    /** The upgrade gives up. */
    method GiveUp(c: ConnectionFSM<Queue>, o: Op, env: Env)
      requires Valid() && Has(c)
      modifies this, connection, qs, cs
      ensures Valid() && Extended()
      ensures var w := old(model);
              model == Turns.Fired(w, c.ref, Without(w.conns[c.ref], Some(o)), Fsm.Stop, env)
    {
      FiredAfter(model, c.ref, Without(model.conns[c.ref], Some(o)), Fsm.Stop, env);
      Forget(c, Some(o));
      Fired(c, Fsm.Stop, env);
    }

    /** An outside operation completes, well or badly. */
    method Complete(c: ConnectionFSM<Queue>, o: Op, ok: bool, env: Env)
      requires Valid() && Has(c)
      modifies this, connection, qs, cs
      ensures Valid() && Extended()
      ensures model == Turns.Complete(old(model), c.ref, o, ok, env)
    {
      match o {
        case MuxerCloseOp => Close(c, false, Some(o), env);
        case EndOp => Succeed(c, o, env);
        case IdentifyOp => if ok { Forget(c, Some(o)); } else { Close(c, true, Some(o), env); }
        case MuxOp => if ok { Succeed(c, o, env); } else { GiveUp(c, o, env); }
        case _ => Conclude(c, o, ok, env);
      }
    }

    /** An operation of the dial itself completes: the connection goes on, or fails. */
    method Conclude(c: ConnectionFSM<Queue>, o: Op, ok: bool, env: Env)
      requires Valid() && Has(c)
      modifies this, connection, qs, cs
      ensures Valid() && Extended()
      ensures var w := old(model);
              model == if ok then Turns.Fired(w, c.ref, Delivered(w.conns[c.ref], o, env.setup), Done, env)
                       else CloseWith(w, c.ref, true, Some(o), env)
    {
      if ok { Succeed(c, o, env); } else { Close(c, true, Some(o), env); }
    }

    /** Hangs up: closes every connection of a copy of the peer's list. */
    method HangUp(id: PeerId, env: Env)
      requires Valid()
      modifies this, connection, qs, cs
      ensures Valid() && Grown()
      ensures model == Turns.HangUp(old(model), id, env)
    {
      var list := connection.GetAllById(id);
      SameOfPeer(connection.tracked, model.tracked, id);
      CloseAll(list, OfPeer(model.tracked, model.conns, id), env);
    }

    lemma {:induction false} SameOfPeer(list: seq<ConnectionFSM<Queue>>, tracked: seq<nat>, id: PeerId)
      requires ConnsMatch() && Numbered(list, tracked)
      ensures Numbered(For(list, id), OfPeer(tracked, model.conns, id))
    {
      if tracked != [] {
        assert cs[tracked[0]].Model() == model.conns[tracked[0]];
        SameOfPeer(list[1..], tracked[1..], id);
      }
    }

    method CloseAt(list: seq<ConnectionFSM<Queue>>, ghost refs: seq<nat>, i: nat, env: Env)
      requires Valid() && Numbered(list, refs) && i < |list|
      modifies this, connection, qs, cs
      ensures Valid() && Grown() && Numbered(list, refs)
      ensures CloseEach(model, refs[i + 1..], env) == CloseEach(old(model), refs[i..], env)
    {
      assert cs[refs[i]].ref == refs[i];
      Close(list[i], false, None, env);
      assert refs[i..][0] == refs[i] && refs[i..][1..] == refs[i + 1..];
    }

    method CloseAll(list: seq<ConnectionFSM<Queue>>, ghost refs: seq<nat>, env: Env)
      requires Valid() && Numbered(list, refs)
      modifies this, connection, qs, cs
      ensures Valid() && Grown()
      ensures model == CloseEach(old(model), refs, env)
    {
      for i := 0 to |list|
        invariant Valid() && Grown() && Numbered(list, refs)
        invariant CloseEach(model, refs[i..], env) == CloseEach(old(model), refs, env)
      {
        CloseAt(list, refs, i, env);
      }
    }
  }
}

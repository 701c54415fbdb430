/**
 * The switch: the objects of the dial scheduler, driven by everything that can start a turn. After every
 * call the objects represent a state that some run reaches, so what holds in all such states holds of
 * their fields.
 */
module Switch {
  import opened Basics
  import opened Fsm
  import opened Connection
  import opened ConnectionFsm
  import opened Tracking
  import opened Scheduler
  import opened Turns
  import opened Slots
  import opened SafeTurns
  import opened Dialer
  import opened Denials
  import opened Runs

  class Switch {
    const dialer: DialQueueManager

    /** The objects agree with a state that a run from the start reaches. */
    ghost predicate InOrder()
      reads this, dialer, dialer.connection, dialer.qs, dialer.cs
    {
      dialer.Valid() && Reachable(dialer.cfg, dialer.model)
    }

    constructor (cfg: Config)
      ensures InOrder() && fresh(dialer) && fresh(dialer.connection) && dialer.cfg == cfg && dialer.qs == []
      ensures dialer.cs == []
    {
      dialer := new DialQueueManager(cfg);
      new;
      assert CanPlay(Init(cfg), []) && Play(Init(cfg), []) == Init(cfg);
    }

    // ---------------------------------------------------------------- turns

    /** Dials a peer. The answer is the first thing noted: the request is aborted, denied or accepted. */
    method Dial(id: PeerId, req: Request, priority: int, connected: bool, t1: int, t2: int, env: Env)
      requires InOrder() && t1 <= t2
      modifies dialer, dialer.connection, dialer.qs, dialer.cs
      ensures InOrder() && dialer.Extended()
      ensures dialer.model == Take(old(dialer.model), DialTurn(id, req, priority, connected, t1, t2), env)
    {
      TurnReaches(dialer.cfg, dialer.model, DialTurn(id, req, priority, connected, t1, t2), env);
      dialer.Add(id, req, priority, connected, t1, t2, env);
    }

    /** The clean timer fires. */
    method Clean(order: seq<PeerId>, isConnected: PeerId -> bool, env: Env)
      requires InOrder() && Lists(order, dialer.model.table)
      modifies dialer, dialer.connection, dialer.qs, dialer.cs
      ensures InOrder() && dialer.Extended()
      ensures dialer.model == Take(old(dialer.model), CleanTurn(order, isConnected), env)
    {
      TurnReaches(dialer.cfg, dialer.model, CleanTurn(order, isConnected), env);
      dialer.Clean(order, isConnected, env);
    }

    /** Stops the dialer, after which nothing waits, runs or is asked for. */
    method Stop(order: seq<PeerId>, env: Env)
      requires InOrder() && Lists(order, dialer.model.table)
      modifies dialer, dialer.connection, dialer.qs, dialer.cs
      ensures InOrder() && dialer.qs == old(dialer.qs) && dialer.cs == old(dialer.cs)
      ensures dialer.queue == [] && dialer.coldCallQueue == [] && dialer.dialingQueues == {} && dialer.queues == map[]
      ensures forall q :: q in dialer.qs ==> q.queue == [] && !q.isRunning
      ensures dialer.model == Take(old(dialer.model), StopTurn(order), env)
    {
      TurnReaches(dialer.cfg, dialer.model, StopTurn(order), env);
      StopDrainsAlways(dialer.cfg, dialer.model, order, env);
      dialer.Stop(order, env);
      assert dialer.queues.Keys == {};
      forall q | q in dialer.qs ensures q.queue == [] && !q.isRunning {
        QueueModel(q);
        assert Quiet(dialer.model, q.ref);
      }
    }

    /** Starts the dialer. */
    method Start(env: Env)
      requires InOrder()
      modifies dialer
      ensures InOrder() && dialer.model == Take(old(dialer.model), StartTurn, env)
    {
      TurnReaches(dialer.cfg, dialer.model, StartTurn, env);
      dialer.Start();
    }

    /** Takes a peer off the denylist. */
    method ClearDenylist(id: PeerId, env: Env)
      requires InOrder()
      modifies dialer, dialer.connection, dialer.qs, dialer.cs
      ensures InOrder() && dialer.Extended() && dialer.model == Take(old(dialer.model), ClearTurn(id), env)
    {
      TurnReaches(dialer.cfg, dialer.model, ClearTurn(id), env);
      dialer.ClearDenylist(id);
    }

    /** An inbound connection has been muxed. */
    method Accept(id: PeerId, env: Env)
      requires InOrder()
      modifies dialer, dialer.connection, dialer.qs, dialer.cs
      ensures InOrder() && dialer.Extended() && dialer.model == Take(old(dialer.model), AcceptTurn(id), env)
    {
      TurnReaches(dialer.cfg, dialer.model, AcceptTurn(id), env);
      dialer.Accept(id);
    }

    /** An outside operation of a connection completes, which it does once. */
    method Complete(c: ConnectionFSM<Queue>, o: Op, ok: bool, env: Env)
      requires InOrder() && dialer.Has(c) && o in c.ops
      modifies dialer, dialer.connection, dialer.qs, dialer.cs
      ensures InOrder() && dialer.Extended() && dialer.model == Take(old(dialer.model), CompleteTurn(c.ref, o, ok), env)
    {
      dialer.OwnerOurs(c);
      TurnReaches(dialer.cfg, dialer.model, CompleteTurn(c.ref, o, ok), env);
      dialer.Complete(c, o, ok, env);
    }

    /** A connection is closed, with an error or without. */
    method Close(c: ConnectionFSM<Queue>, err: bool, env: Env)
      requires InOrder() && dialer.Has(c)
      modifies dialer, dialer.connection, dialer.qs, dialer.cs
      ensures InOrder() && dialer.Extended() && dialer.model == Take(old(dialer.model), CloseTurn(c.ref, err), env)
    {
      TurnReaches(dialer.cfg, dialer.model, CloseTurn(c.ref, err), env);
      dialer.Close(c, err, None, env);
    }

    /** Hangs up a peer, after which every connection that was tracked for it is closing or closed. */
    method HangUp(id: PeerId, env: Env)
      requires InOrder()
      modifies dialer, dialer.connection, dialer.qs, dialer.cs
      ensures InOrder() && dialer.Extended() && dialer.model == Take(old(dialer.model), HangUpTurn(id), env)
      ensures forall c :: c in old(dialer.connection.tracked) && c.theirB58Id == id ==> IsClosing(c)
    {
      TurnReaches(dialer.cfg, dialer.model, HangUpTurn(id), env);
      ghost var w, list, cs := dialer.model, dialer.connection.tracked, dialer.cs;
      TrackedFor(id, env);
      dialer.HangUp(id, env);
      forall c | c in list && c.theirB58Id == id ensures IsClosing(c) {
        assert dialer.cs[c.ref] == cs[c.ref];
        ClosesNow(c);
      }
    }

    /** Closing or closed, and no longer tracked once it has closed. */
    ghost predicate IsClosing(c: ConnectionFSM<Queue>)
      reads c, dialer.connection
    {
      c.state == Disconnecting || (c.state == Disconnected && c !in dialer.connection.tracked)
    }

    lemma ClosesNow(c: ConnectionFSM<Queue>)
      requires InOrder() && dialer.Has(c) && Closing(dialer.model.conns[c.ref].state)
      ensures IsClosing(c)
    {
      dialer.OwnerOurs(c);
      TrackedUntilClosed(c);
    }

    /** Every connection tracked for a peer will be closing once the peer is hung up. */
    lemma TrackedFor(id: PeerId, env: Env)
      requires InOrder()
      ensures forall c :: c in dialer.connection.tracked && c.theirB58Id == id ==>
                dialer.Has(c) && c.ref < |Take(dialer.model, HangUpTurn(id), env).conns|
                && Closing(Take(dialer.model, HangUpTurn(id), env).conns[c.ref].state)
    {
      forall c | c in dialer.connection.tracked && c.theirB58Id == id
        ensures dialer.Has(c) && c.ref < |Take(dialer.model, HangUpTurn(id), env).conns|
                && Closing(Take(dialer.model, HangUpTurn(id), env).conns[c.ref].state)
      {
        var i :| 0 <= i < |dialer.connection.tracked| && dialer.connection.tracked[i] == c;
        dialer.OwnerOurs(dialer.cs[dialer.model.tracked[i]]);
        HangUpCloses(dialer.cfg, dialer.model, id, env, [], c.ref);
      }
    }

    // ---------------------------------------------------------------- what holds of the fields

    lemma QueueModel(q: Queue)
      requires dialer.Valid() && q in dialer.qs
      ensures q.ref < |dialer.qs| && dialer.qs[q.ref] == q && q.Model() == dialer.model.queues[q.ref]
    {
      var i :| 0 <= i < |dialer.qs| && dialer.qs[i] == q;
    }

    /**
     * No leaked slots: the waiting sets and the dialing set exclude each other and keep their bounds, and
     * every dialing id is that of a running queue with a connection in flight that will call it back.
     */
    lemma SlotsAreUsed()
      requires InOrder()
      ensures |dialer.dialingQueues| <= dialer.cfg.maxParallelDials && |dialer.coldCallQueue| <= dialer.cfg.maxColdCalls
      ensures Distinct(dialer.queue) && Distinct(dialer.coldCallQueue)
      ensures forall id :: id in dialer.queue ==> id !in dialer.coldCallQueue && id !in dialer.dialingQueues
      ensures forall id :: id in dialer.coldCallQueue ==> id !in dialer.dialingQueues
      ensures forall id :: id in dialer.dialingQueues ==> id in dialer.queues && dialer.queues[id].isRunning
      ensures forall q :: q in dialer.qs && q.isRunning ==> IsServed(q)
    {
      NoLeakedSlots(dialer.cfg, dialer.model);
      forall q | q in dialer.qs && q.isRunning ensures IsServed(q) {
        QueueModel(q);
        var c :| 0 <= c < |dialer.model.conns| && LiveFor(dialer.model, c, q.ref) && dialer.model.conns[c].nextArmed;
        Serves(q, c);
      }
    }

    lemma Serves(q: Queue, c: nat)
      requires dialer.Valid() && q in dialer.qs && LiveFor(dialer.model, c, q.ref) && dialer.model.conns[c].nextArmed
      ensures IsServed(q)
    {
      QueueModel(q);
      var k := dialer.cs[c];
      dialer.OwnerOurs(k);
      assert k in dialer.cs && k.owner == Some(q);
    }

    /** The queue has made a connection that is in flight and will call it back. */
    ghost predicate IsServed(q: Queue)
      reads dialer, dialer.cs
    {
      exists c :: c in dialer.cs && c.owner == Some(q) && InFlight(c.state) && c.nextArmed
    }

    /** No stranded request: a queue with requests is the one filed for its id, and it runs or its id waits. */
    lemma RequestsAreHeld(q: Queue)
      requires InOrder() && q in dialer.qs && q.queue != []
      ensures q.id in dialer.queues && dialer.queues[q.id] == q
      ensures q.isRunning || q.id in dialer.queue || q.id in dialer.coldCallQueue
    {
      QueueModel(q);
      NoStrandedRequest(dialer.cfg, dialer.model, q.ref);
    }

    /** A connection is tracked until it has disconnected, and is at rest between turns. */
    lemma TrackedUntilClosed(c: ConnectionFSM<Queue>)
      requires InOrder() && c in dialer.cs
      ensures c in dialer.connection.tracked <==> c.state != Disconnected
      ensures AtRest(c.state) && (c.owner.Some? ==> Lifecycle(c.trail))
    {
      var i :| 0 <= i < |dialer.cs| && dialer.cs[i] == c;
      LifecycleOrder(dialer.cfg, dialer.model, i);
      assert dialer.cs[i].Model() == dialer.model.conns[i];
    }
  }
}

/**
 * The connection object. Its handlers fire further events on it in the same turn, as the listeners a
 * queue attaches and the FSM library do; what the queue itself must be told is left to the caller.
 */
module ConnectionFsm {
  import opened Basics
  import opened Fsm
  import opened Connection

  class ConnectionFSM<Q> {
    const ref: nat                     // its number among all connections
    const theirB58Id: PeerId
    const owner: Option<Q>             // the queue whose listeners are attached
    ghost const ownerRef: Option<nat>  // and that queue's number
    const dial: Option<Request>
    var state: State
    var muxer: bool
    var errorArmed: bool
    var nextArmed: bool
    ghost var ops: set<Op>
    ghost var trail: seq<State>

    ghost predicate Wired() {
      owner.Some? == ownerRef.Some?
    }

    ghost function Model(): Conn
      reads this
    {
      Conn(theirB58Id, ownerRef, dial, state, muxer, errorArmed, nextArmed, ops, trail)
    }

    /** A connection made by a queue, with the queue's listeners attached, not dialled yet. */
    constructor Outbound(peer: PeerId, q: Q, dial: Request, ghost qRef: nat, ref: nat)
      ensures Wired() && this.ref == ref && owner == Some(q)
      ensures Model() == Conn(peer, Some(qRef), Some(dial), Disconnected, false, true, true, {}, [Disconnected])
    {
      this.ref := ref;
      theirB58Id := peer;
      owner := Some(q);
      ownerRef := Some(qRef);
      this.dial := Some(dial);
      state, muxer, errorArmed, nextArmed := Disconnected, false, true, true;
      ops, trail := {}, [Disconnected];
    }

    /** An inbound connection, muxed from the start. */
    constructor Inc(peer: PeerId, ref: nat)
      ensures Wired() && this.ref == ref && owner == None && Model() == Inbound(peer)
    {
      this.ref := ref;
      theirB58Id := peer;
      owner, ownerRef, dial := None, None, None;
      state, muxer, errorArmed, nextArmed := Muxed, true, false, false;
      ops, trail := {MuxerCloseOp}, [Muxed];
    }

    /** Fires an event: looks the transition up, moves, and runs the handler of the new state. */
    method Transition(e: Event, setup: Setup) returns (moved: bool)
      requires Wired()
      modifies this
      ensures moved == Fire(old(Model()), e, setup).Some?
      ensures Model() == if moved then Fire(old(Model()), e, setup).value else old(Model())
      decreases match Table(state, e) case To(n) => 3 * Distance(n) + 1 case Invalid => 0
    {
      match Table(state, e) {
        case Invalid =>
          moved := false;
        case To(next) =>
          state := next;
          trail := trail + [next];
          Handle(setup);
          moved := true;
      }
    }

    /** The handler of the current state: what it starts outside, and the event it fires itself. */
    method Handle(setup: Setup)
      requires Wired()
      modifies this
      ensures Model() == Settle(Starting(old(Model()), setup), setup)
      decreases 3 * Distance(state)
    {
      ops := ops + Begun(state, muxer, setup);
      ghost var c := Model();
      match state {
        case Dialed => if owner.Some? { var _ := Follow(Privatize, setup); }
        case Privatizing => if !setup.protector { var _ := Follow(Done, setup); }
        case Privatized => if owner.Some? { var _ := Follow(Encrypt, setup); }
        case Encrypted => if owner.Some? { var _ := Follow(Upgrade, setup); }
        case Upgrading => if !setup.muxers { var _ := Follow(Fsm.Stop, setup); }
        case Disconnecting => if !muxer { var _ := Follow(Done, setup); }
        case _ =>
      }
    }

    /** An event that a handler fires. */
    method Follow(e: Event, setup: Setup) returns (moved: bool)
      requires Wired() && Reaction(Model(), setup) == Some(e)
      modifies this
      ensures Model() == Settle(old(Model()), setup)
      decreases 3 * Distance(state) - 1
    {
      moved := Transition(e, setup);
    }
  }

  /** The connection with what the handler of its state has started. */
  ghost function Starting(c: Conn, setup: Setup): Conn {
    c.(ops := c.ops + Begun(c.state, c.muxer, setup))
  }
}

/**
 * One connection: its state, the operations it still waits for, the listeners a dial queue put on
 * it, and the states it has been through. A transition and every transition that its handlers make
 * in the same turn are one call of Fire.
 */
module Connection {
  import opened Basics
  import opened Fsm

  datatype PeerId = PeerId(b58: string)

  /** A dial request as a queue stores it; `key` stands for the caller's callback. */
  datatype Request = Request(key: nat, protocol: Option<string>, useFSM: bool)

  /** Operations handed to code outside this model; each may complete later, once, or never. */
  datatype Op = DialOp | ProtectOp | CryptoOp | MuxOp | EndOp | IdentifyOp | MuxerCloseOp

  /** What is configured on the switch during one turn. */
  datatype Setup = Setup(protector: bool, muxers: bool, identify: bool)

  /**
   * `owner` is the queue whose listeners are attached (none on an inbound connection), `dial` the
   * request that queue took for it. `nextArmed`: its `next` has not run yet. `errorArmed`: its
   * one-shot error listener is still there. `trail`: all states so far, the current one last.
   */
  datatype Conn = Conn(
    peer: PeerId,
    owner: Option<nat>,
    dial: Option<Request>,
    state: State,
    muxer: bool,
    errorArmed: bool,
    nextArmed: bool,
    ops: set<Op>,
    trail: seq<State>)

  /** A connection a queue has just created, wired and told to dial. */
  function Dialled(peer: PeerId, q: nat, dial: Request): Conn {
    Conn(peer, Some(q), Some(dial), Dialing, false, true, true, {DialOp}, [Disconnected, Dialing])
  }

  /** An inbound connection, which starts out muxed. */
  function Inbound(peer: PeerId): Conn {
    Conn(peer, None, None, Muxed, true, false, false, {MuxerCloseOp}, [Muxed])
  }

  /** The operation that the handler of a state hands to the outside. */
  function Begun(s: State, muxer: bool, setup: Setup): set<Op> {
    match s
    case Dialing => {DialOp}
    case Privatizing => if setup.protector then {ProtectOp} else {}
    case Encrypting => {CryptoOp}
    case Upgrading => if setup.muxers then {MuxOp} else {}
    case Disconnecting => if muxer then {EndOp} else {}
    case _ => {}
  }

  /** Moves to `next` and starts what its handler hands to the outside. */
  function Enter(c: Conn, next: State, setup: Setup): Conn {
    c.(state := next, trail := c.trail + [next], ops := c.ops + Begun(next, c.muxer, setup))
  }

  /** The event fired in the same turn by the handler of the state just entered, if any. */
  function Reaction(c: Conn, setup: Setup): Option<Event> {
    match c.state
    case Dialed => if c.owner.Some? then Some(Privatize) else None
    case Privatizing => if setup.protector then None else Some(Done)
    case Privatized => if c.owner.Some? then Some(Encrypt) else None
    case Encrypted => if c.owner.Some? then Some(Upgrade) else None
    case Upgrading => if setup.muxers then None else Some(Stop)
    case Disconnecting => if c.muxer then None else Some(Done)
    case _ => None
  }

  /** How many states can still be entered by reactions alone. */
  function Distance(s: State): nat {
    match s
    case Dialed => 6
    case Privatizing => 5
    case Privatized => 4
    case Encrypting => 3
    case Encrypted => 2
    case Upgrading => 1
    case Disconnecting => 1
    case _ => 0
  }

  /** Follows reactions until the connection waits for the outside or rests. */
  function Settle(c: Conn, setup: Setup): Conn
    decreases Distance(c.state)
  {
    match Reaction(c, setup)
    case None => c
    case Some(e) =>
      match Table(c.state, e)
      case Invalid => c
      case To(next) => Settle(Enter(c, next, setup), setup)
  }

  /** Fires an event on the state machine; None when the table has no such transition. */
  function Fire(c: Conn, e: Event, setup: Setup): Option<Conn> {
    match Table(c.state, e)
    case Invalid => None
    case To(next) => Some(Settle(Enter(c, next, setup), setup))
  }

  /** The one position at which each state of an undisturbed dial occurs. */
  predicate Stage(i: nat, s: State) {
    match i
    case 0 => s == Disconnected
    case 1 => s == Dialing
    case 2 => s == Dialed
    case 3 => s == Privatizing
    case 4 => s == Privatized
    case 5 => s == Encrypting
    case 6 => s == Encrypted
    case 7 => s == Upgrading
    case 8 => s == Muxed || s == Connected
    case _ => false
  }

  /** Which state may come at position `i`, after `last`: the next stage, or a step of closing for good. */
  predicate Follows(i: nat, last: State, s: State)
    requires i > 0
  {
    || (Stage(i - 1, last) && (Stage(i, s) || s == Disconnecting))
    || (s == Disconnected && i > 2 && (last == Disconnecting || last == Disconnected))
  }

  /** One straight dial from its start, possibly cut short by disconnecting, then disconnected for good. */
  ghost predicate Lifecycle(t: seq<State>) {
    if |t| <= 2 then t == [Disconnected, Dialing]
    else Lifecycle(t[..|t| - 1]) && Follows(|t| - 1, t[|t| - 2], t[|t| - 1])
  }

  /** The operation that a state in flight waits for. */
  function Awaited(s: State): Op
    requires InFlight(s)
  {
    match s case Dialing => DialOp case Privatizing => ProtectOp case Encrypting => CryptoOp case Upgrading => MuxOp
  }

  /** Where the connection can be while a given operation has not completed. */
  predicate OpAt(o: Op, s: State) {
    match o
    case DialOp => s == Dialing || s == Disconnected
    case ProtectOp => s == Privatizing || s == Disconnected
    case CryptoOp => s == Encrypting || s == Disconnected
    case MuxOp => s == Upgrading || s == Disconnected
    case EndOp => s == Disconnecting
    case IdentifyOp => s == Muxed || s == Disconnecting || s == Disconnected
    case MuxerCloseOp => s == Muxed || s == Disconnecting || s == Disconnected
  }

  /** What the fields of a connection say of one another between two turns. */
  ghost predicate ShapeOk(c: Conn) {
    && AtRest(c.state)
    && (c.nextArmed <==> c.owner.Some? && InFlight(c.state))
    && (c.errorArmed ==> c.owner.Some? && c.state != Disconnected)
    && (c.owner.Some? <==> c.dial.Some?)
    && (InFlight(c.state) ==> c.owner.Some? && Awaited(c.state) in c.ops && !c.muxer)
    && (c.state == Muxed ==> c.muxer)
    && (c.state == Connected ==> !c.muxer && c.owner.Some?)
    && (c.state == Disconnecting ==> c.muxer && EndOp in c.ops)
    && (forall o :: o in c.ops ==> OpAt(o, c.state))
    && |c.trail| > 0 && c.trail[|c.trail| - 1] == c.state
  }

  /** What holds of every connection between two turns. */
  ghost predicate ConnOk(c: Conn) {
    ShapeOk(c) && (c.owner.Some? ==> Lifecycle(c.trail))
  }

  /** The one-shot listeners used up by reaching the current state. */
  function Disarm(c: Conn): Conn {
    c.(nextArmed := c.nextArmed && InFlight(c.state), errorArmed := c.errorArmed && c.state != Disconnected)
  }

  /** The connection as `o` reports success, before the state machine is told. */
  function Delivered(c: Conn, o: Op, setup: Setup): Conn {
    match o
    case MuxOp =>
      c.(muxer := true, ops := c.ops - {o} + {MuxerCloseOp} + if setup.identify then {IdentifyOp} else {})
    case EndOp => c.(muxer := false, ops := c.ops - {o})
    case _ => c.(ops := c.ops - {o})
  }

  /** Drops an operation whose callback has returned, if there is one. */
  function Without(c: Conn, o: Option<Op>): Conn {
    if o.Some? then c.(ops := c.ops - {o.value}) else c
  }

  /** `d` is `c` further on: same peer, queue and listeners, and a longer trail. */
  predicate Further(c: Conn, d: Conn) {
    && d.owner == c.owner && d.dial == c.dial && d.peer == c.peer
    && d.nextArmed == c.nextArmed && d.errorArmed == c.errorArmed
    && c.trail <= d.trail
  }

  /** One more state keeps a trail in order when it may follow the last. */
  lemma ExtendLifecycle(t: seq<State>, s: State)
    requires Lifecycle(t) && Follows(|t|, t[|t| - 1], s)
    ensures Lifecycle(t + [s])
  {
    assert (t + [s])[..|t|] == t;
  }

  /** In a trail that ends in a stage, the stage fixes the length. */
  lemma LastStage(t: seq<State>)
    requires Lifecycle(t)
    ensures var last := t[|t| - 1];
            (last != Disconnected && last != Disconnecting ==> Stage(|t| - 1, last))
            && (last == Disconnected || last == Disconnecting ==> |t| > 2)
  {
  }

  lemma SettlePrivatizing(e: Conn, setup: Setup)
    requires e.state == Privatizing && e.owner.Some?
    ensures Settle(e, setup) ==
            if setup.protector then e else Enter(Enter(e, Privatized, setup), Encrypting, setup)
  {
    if !setup.protector {
      var e1 := Enter(e, Privatized, setup);
      assert Settle(e, setup) == Settle(e1, setup);
      SettlePrivatized(e1, setup);
    }
  }

  lemma SettlePrivatized(e: Conn, setup: Setup)
    requires e.state == Privatized && e.owner.Some?
    ensures Settle(e, setup) == Enter(e, Encrypting, setup)
  {
    assert Settle(e, setup) == Settle(Enter(e, Encrypting, setup), setup);
  }

  lemma SettleUpgrading(e: Conn, setup: Setup)
    requires e.state == Upgrading
    ensures Settle(e, setup) == if setup.muxers then e else Enter(e, Connected, setup)
  {
    if !setup.muxers {
      assert Settle(e, setup) == Settle(Enter(e, Connected, setup), setup);
    }
  }

  lemma SettleDisconnecting(e: Conn, setup: Setup)
    requires e.state == Disconnecting
    ensures Settle(e, setup) == if e.muxer then e else Enter(e, Disconnected, setup)
  {
    if !e.muxer {
      assert Settle(e, setup) == Settle(Enter(e, Disconnected, setup), setup);
    }
  }

  // ---------------------------------------------------------------- what each completion comes to

  lemma LastStageIf(c: Conn)
    requires ConnOk(c)
    ensures c.owner.Some? ==>
              (c.state != Disconnected && c.state != Disconnecting ==> Stage(|c.trail| - 1, c.state))
              && (c.state == Disconnected || c.state == Disconnecting ==> |c.trail| > 2)
  {
    if c.owner.Some? { LastStage(c.trail); }
  }

  lemma ExtendTwice(t: seq<State>, a: State, b: State)
    requires Lifecycle(t) && Follows(|t|, t[|t| - 1], a) && Follows(|t| + 1, a, b)
    ensures Lifecycle(t + [a, b])
  {
    ExtendLifecycle(t, a);
    ExtendLifecycle(t + [a], b);
    assert t + [a] + [b] == t + [a, b];
  }

  /** Going on from one awaited operation to the next keeps the fields in agreement. */
  lemma GoesOn(c: Conn, r: Conn, next: State, more: seq<State>)
    requires ShapeOk(c) && InFlight(c.state) && InFlight(next) && more != [] && more[|more| - 1] == next
    requires r == c.(state := next, ops := c.ops - {Awaited(c.state)} + {Awaited(next)}, trail := c.trail + more)
    ensures ShapeOk(Disarm(r)) && Further(c, r)
  {
    assert forall o :: o in c.ops ==> o == Awaited(c.state);
  }

  /** Opening keeps the fields in agreement. */
  lemma Opens(c: Conn, r: Conn, next: State, ops: set<Op>)
    requires ShapeOk(c) && (c.state == Upgrading || c.state == Encrypting) && (next == Muxed || next == Connected)
    requires forall o :: o in ops ==> OpAt(o, next)
    requires r.muxer == (next == Muxed) && next in r.trail && c.trail <= r.trail && r.trail[|r.trail| - 1] == next
    requires r == c.(state := next, muxer := r.muxer, ops := ops, trail := r.trail)
    ensures ShapeOk(Disarm(r)) && Further(c, r)
  {
  }

  /** What a late completion does to a closed connection, and the last one to a closing one. */
  lemma StaysClosed(c: Conn, r: Conn)
    requires ConnOk(c) && (c.state == Disconnected || c.state == Disconnecting)
    requires r == c.(state := Disconnected, muxer := r.muxer, ops := r.ops, trail := c.trail + [Disconnected])
    requires forall o :: o in r.ops ==> o in c.ops && OpAt(o, Disconnected)
    ensures ConnOk(Disarm(r)) && Further(c, r)
  {
    LastStageIf(c);
    if c.owner.Some? { ExtendLifecycle(c.trail, Disconnected); }
  }

  lemma DialFires(c: Conn, setup: Setup) returns (r: Conn)
    requires c.state == Dialing && c.owner.Some?
    ensures Fire(Delivered(c, DialOp, setup), Done, setup) == Some(r)
    ensures var next := if setup.protector then Privatizing else Encrypting;
            r == c.(state := next, ops := c.ops - {DialOp} + {Awaited(next)},
                    trail := c.trail + if setup.protector then [Dialed, Privatizing]
                                       else [Dialed, Privatizing, Privatized, Encrypting])
  {
    var d := Delivered(c, DialOp, setup);
    var e1 := Enter(d, Dialed, setup);
    var e2 := Enter(e1, Privatizing, setup);
    assert Settle(e1, setup) == Settle(e2, setup);
    SettlePrivatizing(e2, setup);
    assert d.trail + [Dialed] + [Privatizing] == d.trail + [Dialed, Privatizing];
    assert d.trail + [Dialed] + [Privatizing] + [Privatized] + [Encrypting]
        == d.trail + [Dialed, Privatizing, Privatized, Encrypting];
    r := Settle(e1, setup);
  }

  /** A finished search for a transport moves on to protecting or encrypting the connection. */
  lemma DialDone(c: Conn, setup: Setup)
    requires ConnOk(c) && DialOp in c.ops
    ensures var f := Fire(Delivered(c, DialOp, setup), Done, setup);
            && f.Some? && ConnOk(Disarm(f.value)) && Further(c, f.value)
            && f.value.state == (if c.state == Disconnected then Disconnected
                                 else if setup.protector then Privatizing else Encrypting)
  {
    LastStageIf(c);
    if c.state == Dialing {
      var r := DialFires(c, setup);
      ExtendTwice(c.trail, Dialed, Privatizing);
      if setup.protector {
        GoesOn(c, r, Privatizing, [Dialed, Privatizing]);
      } else {
        GoesOn(c, r, Encrypting, [Dialed, Privatizing, Privatized, Encrypting]);
        ExtendTwice(c.trail + [Dialed, Privatizing], Privatized, Encrypting);
        assert c.trail + [Dialed, Privatizing] + [Privatized, Encrypting]
            == c.trail + [Dialed, Privatizing, Privatized, Encrypting];
      }
    } else {
      StaysClosed(c, Enter(Delivered(c, DialOp, setup), Disconnected, setup));
    }
  }

  /** Protecting the connection leads straight to encrypting it. */
  lemma ProtectDone(c: Conn, setup: Setup)
    requires ConnOk(c) && ProtectOp in c.ops
    ensures var f := Fire(Delivered(c, ProtectOp, setup), Done, setup);
            && f.Some? && ConnOk(Disarm(f.value)) && Further(c, f.value)
            && f.value.state == (if c.state == Disconnected then Disconnected else Encrypting)
  {
    LastStageIf(c);
    var d := Delivered(c, ProtectOp, setup);
    if c.state == Privatizing {
      var e := Enter(d, Privatized, setup);
      SettlePrivatized(e, setup);
      assert c.trail + [Privatized] + [Encrypting] == c.trail + [Privatized, Encrypting];
      GoesOn(c, Enter(e, Encrypting, setup), Encrypting, [Privatized, Encrypting]);
      ExtendTwice(c.trail, Privatized, Encrypting);
    } else {
      StaysClosed(c, Enter(d, Disconnected, setup));
    }
  }

  lemma CryptoFires(c: Conn, setup: Setup) returns (r: Conn)
    requires c.state == Encrypting && c.owner.Some?
    ensures Fire(Delivered(c, CryptoOp, setup), Done, setup) == Some(r)
    ensures r == if setup.muxers then
                   c.(state := Upgrading, ops := c.ops - {CryptoOp} + {MuxOp},
                      trail := c.trail + [Encrypted, Upgrading])
                 else
                   c.(state := Connected, ops := c.ops - {CryptoOp},
                      trail := c.trail + [Encrypted, Upgrading] + [Connected])
  {
    var e1 := Enter(Delivered(c, CryptoOp, setup), Encrypted, setup);
    var e2 := Enter(e1, Upgrading, setup);
    assert Settle(e1, setup) == Settle(e2, setup);
    SettleUpgrading(e2, setup);
    assert c.trail + [Encrypted] + [Upgrading] == c.trail + [Encrypted, Upgrading];
    r := Settle(e1, setup);
  }

  /** Encrypting leads to upgrading, or to a plain connection when there is no muxer to try. */
  lemma CryptoDone(c: Conn, setup: Setup)
    requires ConnOk(c) && CryptoOp in c.ops
    ensures var f := Fire(Delivered(c, CryptoOp, setup), Done, setup);
            && f.Some? && ConnOk(Disarm(f.value)) && Further(c, f.value)
            && f.value.state == (if c.state == Disconnected then Disconnected
                                 else if setup.muxers then Upgrading else Connected)
  {
    LastStageIf(c);
    if c.state == Encrypting {
      var r := CryptoFires(c, setup);
      if setup.muxers {
        ExtendTwice(c.trail, Encrypted, Upgrading);
        GoesOn(c, r, Upgrading, [Encrypted, Upgrading]);
      } else {
        CryptoOpens(c, r);
      }
    } else {
      StaysClosed(c, Enter(Delivered(c, CryptoOp, setup), Disconnected, setup));
    }
  }

  lemma CryptoOpens(c: Conn, r: Conn)
    requires ConnOk(c) && CryptoOp in c.ops && c.state == Encrypting
    requires r == c.(state := Connected, ops := c.ops - {CryptoOp},
                     trail := c.trail + [Encrypted, Upgrading] + [Connected])
    ensures ConnOk(Disarm(r)) && Further(c, r)
  {
    LastStageIf(c);
    ExtendTwice(c.trail, Encrypted, Upgrading);
    assert forall o :: o in c.ops ==> o == CryptoOp;
    Opens(c, r, Connected, r.ops);
    ExtendLifecycle(c.trail + [Encrypted, Upgrading], Connected);
  }

  /** A negotiated muxer makes the connection muxed. */
  lemma MuxDone(c: Conn, setup: Setup)
    requires ConnOk(c) && MuxOp in c.ops
    ensures var f := Fire(Delivered(c, MuxOp, setup), Done, setup);
            && f.Some? && ConnOk(Disarm(f.value)) && Further(c, f.value)
            && f.value.state == (if c.state == Disconnected then Disconnected else Muxed)
  {
    LastStageIf(c);
    if c.state == Upgrading { MuxOpens(c, setup); } else { ClosedMuxes(c, setup); }
  }

  lemma MuxOpens(c: Conn, setup: Setup)
    requires ConnOk(c) && MuxOp in c.ops && c.state == Upgrading
    ensures var r := Enter(Delivered(c, MuxOp, setup), Muxed, setup); ConnOk(Disarm(r)) && Further(c, r)
  {
    LastStageIf(c);
    var d := Delivered(c, MuxOp, setup);
    assert forall o :: o in c.ops ==> o == MuxOp;
    Opens(c, Enter(d, Muxed, setup), Muxed, d.ops);
    ExtendLifecycle(c.trail, Muxed);
  }

  /** A muxer negotiated after the connection has closed changes its bookkeeping only. */
  lemma ClosedMuxes(c: Conn, setup: Setup)
    requires ConnOk(c) && MuxOp in c.ops && c.state == Disconnected
    ensures var r := Enter(Delivered(c, MuxOp, setup), Disconnected, setup); ConnOk(Disarm(r)) && Further(c, r)
  {
    LastStageIf(c);
    if c.owner.Some? { ExtendLifecycle(c.trail, Disconnected); }
  }

  /** An ended muxer finishes closing. */
  lemma EndDone(c: Conn, setup: Setup)
    requires ConnOk(c) && EndOp in c.ops
    ensures var f := Fire(Delivered(c, EndOp, setup), Done, setup);
            && f.Some? && ConnOk(Disarm(f.value)) && Further(c, f.value)
            && c.state == Disconnecting && f.value.state == Disconnected
  {
    StaysClosed(c, Enter(Delivered(c, EndOp, setup), Disconnected, setup));
  }

  /** A failed upgrade leaves an encrypted connection, or reports to no one on a closed one. */
  lemma UpgradeStopped(c: Conn, setup: Setup)
    requires ConnOk(c) && MuxOp in c.ops
    ensures var d := Without(c, Some(MuxOp));
            var f := Fire(d, Stop, setup);
            if c.state == Upgrading then
              f.Some? && ConnOk(Disarm(f.value)) && Further(c, f.value) && f.value.state == Connected
            else
              f.None? && c.state == Disconnected && !c.errorArmed && ConnOk(d)
  {
    if c.state == Upgrading { StopOpens(c, setup); } else { StopClosed(c); }
  }

  lemma StopClosed(c: Conn)
    requires ConnOk(c) && MuxOp in c.ops && c.state != Upgrading
    ensures c.state == Disconnected && !c.errorArmed && ConnOk(Without(c, Some(MuxOp)))
  {
    LastStageIf(c);
  }

  lemma StopOpens(c: Conn, setup: Setup)
    requires ConnOk(c) && MuxOp in c.ops && c.state == Upgrading
    ensures var r := Enter(Without(c, Some(MuxOp)), Connected, setup); ConnOk(Disarm(r)) && Further(c, r)
  {
    LastStageIf(c);
    var d := Without(c, Some(MuxOp));
    assert forall o :: o in c.ops ==> o == MuxOp;
    Opens(c, Enter(d, Connected, setup), Connected, d.ops);
    ExtendLifecycle(c.trail, Connected);
  }

  /** What firing `disconnect` comes to between turns. */
  lemma FireDisconnect(c: Conn, setup: Setup)
    requires AtRest(c.state) && c.state != Disconnecting
    ensures Fire(c, Disconnect, setup) ==
            Some(if c.state == Disconnected then Enter(c, Disconnected, setup)
                 else if c.muxer then Enter(c, Disconnecting, setup)
                 else Enter(Enter(c, Disconnecting, setup), Disconnected, setup))
  {
    if c.state != Disconnected {
      SettleDisconnecting(Enter(c, Disconnecting, setup), setup);
    }
  }

  /** A muxed connection begins to close, and any other open one closes at once. */
  lemma BeginsToClose(c: Conn, o: Option<Op>, setup: Setup)
    requires ShapeOk(c) && !Closing(c.state) && (o.Some? ==> o.value != EndOp)
    ensures var e := Enter(Without(c, o), Disconnecting, setup);
            var r := if c.muxer then e else Enter(e, Disconnected, setup);
            ShapeOk(Disarm(r)) && Further(c, r)
  {
  }

  lemma ExtendClosing(c: Conn)
    requires ConnOk(c) && !Closing(c.state) && c.owner.Some?
    ensures Lifecycle(c.trail + [Disconnecting]) && Lifecycle(c.trail + [Disconnecting] + [Disconnected])
  {
    LastStageIf(c);
    ExtendLifecycle(c.trail, Disconnecting);
    ExtendLifecycle(c.trail + [Disconnecting], Disconnected);
  }

  /** Closing between turns is always a legal transition, and ends the dial. */
  lemma Disconnects(c: Conn, o: Option<Op>, setup: Setup)
    requires ConnOk(c) && c.state != Disconnecting && (o.Some? ==> o.value != EndOp)
    ensures var f := Fire(Without(c, o), Disconnect, setup);
            && f.Some? && ConnOk(Disarm(f.value)) && Further(c, f.value)
            && f.value.state == (if c.muxer && c.state != Disconnected then Disconnecting else Disconnected)
  {
    FireDisconnect(Without(c, o), setup);
    if c.state == Disconnected {
      StaysClosed(c, Enter(Without(c, o), Disconnected, setup));
    } else {
      BeginsToClose(c, o, setup);
      if c.owner.Some? { ExtendClosing(c); }
    }
  }

  /** The operations whose success is reported to the state machine as `done`. */
  predicate Reports(o: Op) { o.DialOp? || o.ProtectOp? || o.CryptoOp? || o.MuxOp? || o.EndOp? }

  /** Whatever completes, a closed connection stays closed and a dial only moves forward. */
  lemma DoneKeepsOk(c: Conn, o: Op, setup: Setup)
    requires ConnOk(c) && o in c.ops && Reports(o)
    ensures var f := Fire(Delivered(c, o, setup), Done, setup);
            && f.Some? && ConnOk(Disarm(f.value)) && Further(c, f.value)
            && (c.state == Disconnected || c.state == Disconnecting ==> f.value.state == Disconnected)
            && (InFlight(c.state) ==> InFlight(f.value.state) || f.value.state == Muxed || f.value.state == Connected)
  {
    match o
    case DialOp => DialDone(c, setup);
    case ProtectOp => ProtectDone(c, setup);
    case CryptoOp => CryptoDone(c, setup);
    case MuxOp => MuxDone(c, setup);
    case EndOp => EndDone(c, setup);
  }
}

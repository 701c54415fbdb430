/** The transition table that every outgoing connection is built from. */
module Fsm {
  datatype State =
    | Disconnected | Dialing | Dialed | Privatizing | Privatized
    | Encrypting | Encrypted | Upgrading | Muxed | Connected
    | Disconnecting | Aborted | Errored

  datatype Event = Dial | Disconnect | Done | Abort | Error | Encrypt | Privatize | Upgrade | Stop

  /** What the table says: either no such transition, or the state to move to. */
  datatype Move = Invalid | To(next: State)

  function Table(s: State, e: Event): Move {
    match s
    case Disconnected =>
      (match e case Dial => To(Dialing) case Disconnect => To(Disconnected)
               case Done => To(Disconnected) case _ => Invalid)
    case Dialing =>
      (match e case Abort => To(Aborted) case Done => To(Dialed) case Error => To(Errored)
               case Disconnect => To(Disconnecting) case _ => Invalid)
    case Dialed =>
      (match e case Encrypt => To(Encrypting) case Privatize => To(Privatizing) case _ => Invalid)
    case Privatizing =>
      (match e case Done => To(Privatized) case Abort => To(Aborted)
               case Disconnect => To(Disconnecting) case _ => Invalid)
    case Privatized =>
      (match e case Encrypt => To(Encrypting) case _ => Invalid)
    case Encrypting =>
      (match e case Done => To(Encrypted) case Error => To(Errored)
               case Disconnect => To(Disconnecting) case _ => Invalid)
    case Encrypted =>
      (match e case Upgrade => To(Upgrading) case Disconnect => To(Disconnecting) case _ => Invalid)
    case Upgrading =>
      (match e case Stop => To(Connected) case Done => To(Muxed) case Error => To(Errored)
               case Disconnect => To(Disconnecting) case _ => Invalid)
    case Muxed => (match e case Disconnect => To(Disconnecting) case _ => Invalid)
    case Connected => (match e case Disconnect => To(Disconnecting) case _ => Invalid)
    case Disconnecting =>
      (match e case Done => To(Disconnected) case Disconnect => To(Disconnecting) case _ => Invalid)
    case Aborted => Invalid
    case Errored => (match e case Disconnect => To(Disconnecting) case _ => Invalid)
  }

  /** The states in which a dial is still on its way and some outside operation is awaited. */
  predicate InFlight(s: State) {
    s == Dialing || s == Privatizing || s == Encrypting || s == Upgrading
  }

  /** The states a wired connection can be seen in between two turns. */
  predicate AtRest(s: State) {
    InFlight(s) || s == Muxed || s == Connected || s == Disconnecting || s == Disconnected
  }

  /** On its way out, or gone. */
  predicate Closing(s: State) { s == Disconnecting || s == Disconnected }
}

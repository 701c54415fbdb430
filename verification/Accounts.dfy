/**
 * The bookkeeping of the statistics, on values: an account for everything, one for each peer, each
 * transport and each protocol. A peer's account outlives its connections in a bounded cache, which
 * may drop it.
 */
module Accounts {
  import opened Basics
  import opened Connection
  import opened Stat

  /** What an account is for. */
  datatype Role = Everything | OnePeer(id: PeerId) | OneTransport(tag: string) | OneProtocol(tag: string)

  datatype Kind = Global | Peers | Transports | Protocols

  function KindOf(r: Role): Kind {
    match r
    case Everything => Global
    case OnePeer(_) => Peers
    case OneTransport(_) => Transports
    case OneProtocol(_) => Protocols
  }

  /** `ops`: everything pushed to the account's counter, applied or not. */
  datatype Account = Account(role: Role, ops: seq<Increment>)

  /**
   * Every account ever opened, the global one first, and the four maps that find them. `retained` is
   * the cache; the account of a peer that it has dropped is in neither `live` nor `retained`.
   */
  datatype Books = Books(
    accounts: seq<Account>,
    live: map<PeerId, nat>,
    retained: map<PeerId, nat>,
    transports: map<string, nat>,
    protocols: map<string, nat>)

  const START := Books([Account(Everything, [])], map[], map[], map[], map[])

  // ---------------------------------------------------------------- what the hub does

  function Post(l: Books, i: nat, op: Increment): Books
    requires i < |l.accounts|
  {
    l.(accounts := l.accounts[i := l.accounts[i].(ops := l.accounts[i].ops + [op])])
  }

  function Opened(l: Books, role: Role): Books {
    l.(accounts := l.accounts + [Account(role, [])])
  }

  /** A peer becomes live, and the cache loses some peers. */
  function Moved(l: Books, id: PeerId, n: nat, gone: set<PeerId>): Books {
    l.(live := l.live[id := n], retained := l.retained - gone)
  }

  /** Makes a peer live: its retained account, or a new one; looking in the cache may drop others. */
  function Recall(l: Books, id: PeerId, evicted: set<PeerId>): Books {
    if id in l.live then l
    else if id in l.retained then Moved(l, id, l.retained[id], evicted + {id})
    else Moved(Opened(l, OnePeer(id)), id, |l.accounts|, evicted)
  }

  /** It makes no difference whether the cache drops peers before or as a peer is looked up. */
  lemma EvictFirst(l: Books, id: PeerId, evicted: set<PeerId>)
    requires id !in l.live && id !in evicted
    ensures var m := l.(retained := l.retained - evicted);
            Recall(l, id, evicted) ==
            if id in m.retained then Moved(m, id, m.retained[id], {id})
            else Opened(m, OnePeer(id)).(live := m.live[id := |m.accounts|])
  {
    assert l.retained - evicted - {id} == l.retained - (evicted + {id});
  }

  function ForTransport(l: Books, tag: string): Books {
    if tag in l.transports then l
    else Opened(l, OneTransport(tag)).(transports := l.transports[tag := |l.accounts|])
  }

  function ForProtocol(l: Books, tag: string): Books {
    if tag in l.protocols then l
    else Opened(l, OneProtocol(tag)).(protocols := l.protocols[tag := |l.accounts|])
  }

  /** The maps point into the list. */
  ghost predicate InRange(l: Books) {
    && |l.accounts| > 0
    && (forall p :: p in l.live ==> l.live[p] < |l.accounts|)
    && (forall p :: p in l.retained ==> l.retained[p] < |l.accounts|)
    && (forall t :: t in l.transports ==> l.transports[t] < |l.accounts|)
    && (forall t :: t in l.protocols ==> l.protocols[t] < |l.accounts|)
  }

  function PostPeer(l: Books, id: PeerId, op: Increment, evicted: set<PeerId>): (r: Books)
    requires InRange(l)
    ensures InRange(r)
  {
    var l1 := Recall(l, id, evicted);
    Post(l1, l1.live[id], op)
  }

  function PostTransport(l: Books, tag: string, op: Increment): (r: Books)
    requires InRange(l)
    ensures InRange(r)
  {
    var l1 := ForTransport(l, tag);
    Post(l1, l1.transports[tag], op)
  }

  function PostProtocol(l: Books, tag: string, op: Increment): (r: Books)
    requires InRange(l)
    ensures InRange(r)
  {
    var l1 := ForProtocol(l, tag);
    Post(l1, l1.protocols[tag], op)
  }

  /** A message with a transport counts as traffic at large, of the peer and of the transport. */
  function PostAll(l: Books, id: PeerId, tag: string, op: Increment, evicted: set<PeerId>): (r: Books)
    requires InRange(l)
    ensures InRange(r)
  {
    PostTransport(PostPeer(Post(l, 0, op), id, op, evicted), tag, op)
  }

  /** What a message counts besides its protocol; one without a transport is not traffic at large. */
  function Traffic(l: Books, id: PeerId, transport: Option<string>, op: Increment, evicted: set<PeerId>): (r: Books)
    requires InRange(l)
    ensures InRange(r)
  {
    match transport case Some(tag) => PostAll(l, id, tag, op, evicted) case None => l
  }

  /** What a message counts for its protocol, if it has one. */
  function Use(l: Books, protocol: Option<string>, op: Increment): (r: Books)
    requires InRange(l)
    ensures InRange(r)
  {
    match protocol case Some(tag) => PostProtocol(l, tag, op) case None => l
  }

  function Message(l: Books, id: PeerId, transport: Option<string>, protocol: Option<string>, op: Increment,
                   evicted: set<PeerId>): (r: Books)
    requires InRange(l)
    ensures InRange(r)
  {
    Use(Traffic(l, id, transport, op, evicted), protocol, op)
  }

  /** A peer's last connection closed: its account goes to the cache, which may drop others. */
  function Closed(l: Books, id: PeerId, evicted: set<PeerId>): Books {
    if id in l.live then
      l.(live := l.live - {id}, retained := (l.retained - evicted)[id := l.live[id]])
    else l
  }

  /** Looking up a peer's statistics may make the cache drop others. */
  function LookedUp(l: Books, id: PeerId, evicted: set<PeerId>): Books {
    if id in l.live then l else l.(retained := l.retained - evicted)
  }

  // ---------------------------------------------------------------- the books balance

  /** What was ever pushed to the accounts of one kind. */
  function Sum(accounts: seq<Account>, kind: Kind, key: string): int {
    if accounts == [] then 0
    else
      var a := accounts[|accounts| - 1];
      Sum(accounts[..|accounts| - 1], kind, key) + if KindOf(a.role) == kind then Total(a.ops, key) else 0
  }

  /** Everything is counted once in the global counter, once for a transport, and once for a peer. */
  ghost predicate InBalance(l: Books) {
    forall key ::
      Sum(l.accounts, Global, key) == Sum(l.accounts, Transports, key) == Sum(l.accounts, Peers, key)
  }

  /** Each account is found under what it is for; no peer is both live and retained. */
  ghost predicate Filed(l: Books) {
    && InRange(l) && l.accounts[0].role == Everything
    && (forall p :: p in l.live ==> l.accounts[l.live[p]].role == OnePeer(p))
    && (forall p :: p in l.retained ==> l.accounts[l.retained[p]].role == OnePeer(p))
    && (forall t :: t in l.transports ==> l.accounts[l.transports[t]].role == OneTransport(t))
    && (forall t :: t in l.protocols ==> l.accounts[l.protocols[t]].role == OneProtocol(t))
    && l.live.Keys !! l.retained.Keys
  }

  /** Nothing but the first account is global, and every transport and protocol account is in its map. */
  ghost predicate InUse(l: Books) {
    forall i :: 0 < i < |l.accounts| ==>
      match l.accounts[i].role
      case Everything => false
      case OnePeer(_) => true
      case OneTransport(t) => t in l.transports && l.transports[t] == i
      case OneProtocol(t) => t in l.protocols && l.protocols[t] == i
  }

  lemma SumOpen(l: Books, role: Role, kind: Kind, key: string)
    ensures Sum(Opened(l, role).accounts, kind, key) == Sum(l.accounts, kind, key)
  {
    assert Opened(l, role).accounts[..|l.accounts|] == l.accounts;
  }

  lemma {:induction false} SumUpdate(accounts: seq<Account>, i: nat, op: Increment, kind: Kind, key: string)
    requires i < |accounts|
    ensures var after := accounts[i := accounts[i].(ops := accounts[i].ops + [op])];
            Sum(after, kind, key) ==
            Sum(accounts, kind, key) + if KindOf(accounts[i].role) == kind && op.key == key then op.inc else 0
  {
    var n := |accounts| - 1;
    var after := accounts[i := accounts[i].(ops := accounts[i].ops + [op])];
    if i == n {
      assert after[..n] == accounts[..n];
      assert (accounts[i].ops + [op])[..|accounts[i].ops|] == accounts[i].ops;
    } else {
      assert after[..n] == accounts[..n][i := accounts[..n][i].(ops := accounts[..n][i].ops + [op])];
      SumUpdate(accounts[..n], i, op, kind, key);
    }
  }

  /** A push adds to the sum of its account's kind, and to no other. */
  lemma SumPost(l: Books, i: nat, op: Increment)
    requires i < |l.accounts|
    ensures forall kind, key ::
              Sum(Post(l, i, op).accounts, kind, key) ==
              Sum(l.accounts, kind, key) + if KindOf(l.accounts[i].role) == kind && op.key == key then op.inc else 0
  {
    forall kind, key
      ensures Sum(Post(l, i, op).accounts, kind, key) ==
              Sum(l.accounts, kind, key) + if KindOf(l.accounts[i].role) == kind && op.key == key then op.inc else 0
    {
      SumUpdate(l.accounts, i, op, kind, key);
    }
  }

  /** In order. */
  ghost predicate Sorted(l: Books) { Filed(l) && InUse(l) }

  lemma PostSorted(l: Books, i: nat, op: Increment)
    requires Sorted(l) && i < |l.accounts|
    ensures Sorted(Post(l, i, op))
  {
    var r := Post(l, i, op);
    assert forall j :: 0 <= j < |l.accounts| ==> r.accounts[j].role == l.accounts[j].role;
  }

  lemma RecallSorted(l: Books, id: PeerId, evicted: set<PeerId>)
    requires Sorted(l)
    ensures var r := Recall(l, id, evicted); Sorted(r) && id in r.live && r.accounts[r.live[id]].role == OnePeer(id)
  {
    if id in l.live {
    } else if id in l.retained {
      MovedSorted(l, id, l.retained[id], evicted + {id});
    } else {
      OpenedFiled(l, OnePeer(id));
      MovedSorted(Opened(l, OnePeer(id)), id, |l.accounts|, evicted);
    }
  }

  lemma OpenedFiled(l: Books, role: Role)
    requires Filed(l)
    ensures Filed(Opened(l, role)) && Opened(l, role).accounts[|l.accounts|].role == role
    ensures InUse(l) && role.OnePeer? ==> InUse(Opened(l, role))
  {
  }

  lemma MovedSorted(l: Books, id: PeerId, n: nat, gone: set<PeerId>)
    requires Sorted(l) && n < |l.accounts| && l.accounts[n].role == OnePeer(id) && (id in l.retained ==> id in gone)
    ensures Sorted(Moved(l, id, n, gone))
  {
  }

  lemma ForTransportFiled(l: Books, tag: string)
    requires Filed(l)
    ensures Filed(ForTransport(l, tag))
  {
    if tag !in l.transports { OpenedFiled(l, OneTransport(tag)); }
  }

  lemma ForTransportSorted(l: Books, tag: string)
    requires Sorted(l)
    ensures var r := ForTransport(l, tag);
            Sorted(r) && tag in r.transports && r.accounts[r.transports[tag]].role == OneTransport(tag)
  {
    ForTransportFiled(l, tag);
    var r := ForTransport(l, tag);
    assert forall i :: 0 <= i < |l.accounts| ==> r.accounts[i] == l.accounts[i];
  }

  lemma ForProtocolFiled(l: Books, tag: string)
    requires Filed(l)
    ensures Filed(ForProtocol(l, tag))
  {
    if tag !in l.protocols { OpenedFiled(l, OneProtocol(tag)); }
  }

  lemma ForProtocolSorted(l: Books, tag: string)
    requires Sorted(l)
    ensures var r := ForProtocol(l, tag);
            Sorted(r) && tag in r.protocols && r.accounts[r.protocols[tag]].role == OneProtocol(tag)
  {
    ForProtocolFiled(l, tag);
    var r := ForProtocol(l, tag);
    assert forall i :: 0 <= i < |l.accounts| ==> r.accounts[i] == l.accounts[i];
  }

  /** Finding an account changes no sum: one that is opened is empty. */
  lemma SameSums(l: Books, accounts: seq<Account>, role: Role)
    requires accounts == l.accounts || accounts == Opened(l, role).accounts
    ensures forall kind, key :: Sum(accounts, kind, key) == Sum(l.accounts, kind, key)
  {
    forall kind, key ensures Sum(accounts, kind, key) == Sum(l.accounts, kind, key) { SumOpen(l, role, kind, key); }
  }

  /** What an operation adds to the sums of one kind of account, and to no other. */
  ghost predicate Adds(l: Books, r: Books, kind: Kind, op: Increment) {
    forall k, key ::
      Sum(r.accounts, k, key) == Sum(l.accounts, k, key) + if k == kind && op.key == key then op.inc else 0
  }

  lemma PostPeerAdds(l: Books, id: PeerId, op: Increment, evicted: set<PeerId>)
    requires Sorted(l)
    ensures var r := PostPeer(l, id, op, evicted); Sorted(r) && Adds(l, r, Peers, op)
  {
    RecallSorted(l, id, evicted);
    var l1 := Recall(l, id, evicted);
    SameSums(l, l1.accounts, OnePeer(id));
    PostSorted(l1, l1.live[id], op);
    SumPost(l1, l1.live[id], op);
  }

  lemma PostTransportAdds(l: Books, tag: string, op: Increment)
    requires Sorted(l)
    ensures var r := PostTransport(l, tag, op); Sorted(r) && Adds(l, r, Transports, op)
  {
    ForTransportSorted(l, tag);
    var l1 := ForTransport(l, tag);
    SameSums(l, l1.accounts, OneTransport(tag));
    PostSorted(l1, l1.transports[tag], op);
    SumPost(l1, l1.transports[tag], op);
  }

  lemma PostProtocolAdds(l: Books, tag: string, op: Increment)
    requires Sorted(l)
    ensures var r := PostProtocol(l, tag, op); Sorted(r) && Adds(l, r, Protocols, op)
  {
    ForProtocolSorted(l, tag);
    var l1 := ForProtocol(l, tag);
    SameSums(l, l1.accounts, OneProtocol(tag));
    PostSorted(l1, l1.protocols[tag], op);
    SumPost(l1, l1.protocols[tag], op);
  }

  lemma PostGlobalAdds(l: Books, op: Increment)
    requires Sorted(l)
    ensures Sorted(Post(l, 0, op)) && Adds(l, Post(l, 0, op), Global, op)
  {
    PostSorted(l, 0, op);
    SumPost(l, 0, op);
  }

  /** In order, and in balance. */
  ghost predicate Good(l: Books) { Sorted(l) && InBalance(l) }

  lemma PostAllKeeps(l: Books, id: PeerId, tag: string, op: Increment, evicted: set<PeerId>)
    requires Good(l)
    ensures Good(PostAll(l, id, tag, op, evicted))
  {
    var l1 := Post(l, 0, op);
    PostGlobalAdds(l, op);
    var l2 := PostPeer(l1, id, op, evicted);
    PostPeerAdds(l1, id, op, evicted);
    PostTransportAdds(l2, tag, op);
    AllAdd(l, l1, l2, PostTransport(l2, tag, op), op);
  }

  /** One more everywhere keeps the balance. */
  lemma AllAdd(l: Books, l1: Books, l2: Books, r: Books, op: Increment)
    requires InBalance(l) && Adds(l, l1, Global, op) && Adds(l1, l2, Peers, op) && Adds(l2, r, Transports, op)
    ensures InBalance(r)
  {
    forall kind, key ensures Sum(r.accounts, kind, key) ==
                             Sum(l.accounts, kind, key) + if kind != Protocols && op.key == key then op.inc else 0 {
      assert Sum(l1.accounts, kind, key) - Sum(l.accounts, kind, key) ==
        if kind == Global && op.key == key then op.inc else 0;
    }
  }

  lemma ProtocolKeeps(l: Books, tag: string, op: Increment)
    requires Good(l)
    ensures Good(PostProtocol(l, tag, op))
  {
    PostProtocolAdds(l, tag, op);
    var r := PostProtocol(l, tag, op);
    forall key ensures Sum(r.accounts, Global, key) == Sum(r.accounts, Transports, key) == Sum(r.accounts, Peers, key) {
      assert Sum(r.accounts, Global, key) == Sum(l.accounts, Global, key);
      assert Sum(r.accounts, Transports, key) == Sum(l.accounts, Transports, key);
      assert Sum(r.accounts, Peers, key) == Sum(l.accounts, Peers, key);
    }
  }

  lemma MessageKeeps(l: Books, id: PeerId, transport: Option<string>, protocol: Option<string>, op: Increment,
                     evicted: set<PeerId>)
    requires Good(l)
    ensures Good(Message(l, id, transport, protocol, op, evicted))
  {
    if transport.Some? { PostAllKeeps(l, id, transport.value, op, evicted); }
    if protocol.Some? { ProtocolKeeps(Traffic(l, id, transport, op, evicted), protocol.value, op); }
  }

  // ---------------------------------------------------------------- runs

  datatype Event =
    | Heard(id: PeerId, transport: Option<string>, protocol: Option<string>, op: Increment, evicted: set<PeerId>)
    | Left(id: PeerId, evicted: set<PeerId>)
    | Queried(id: PeerId, evicted: set<PeerId>)

  function Record(l: Books, e: Event): Books
    requires InRange(l)
  {
    match e
    case Heard(id, transport, protocol, op, evicted) => Message(l, id, transport, protocol, op, evicted)
    case Left(id, evicted) => Closed(l, id, evicted)
    case Queried(id, evicted) => LookedUp(l, id, evicted)
  }

  lemma RecordKeeps(l: Books, e: Event)
    requires Good(l)
    ensures Good(Record(l, e))
  {
    if e.Heard? { MessageKeeps(l, e.id, e.transport, e.protocol, e.op, e.evicted); }
  }

  ghost function RecordAll(l: Books, events: seq<Event>): (r: Books)
    requires Good(l)
    ensures Good(r)
    decreases |events|
  {
    if events == [] then l else RecordKeeps(l, events[0]); RecordAll(Record(l, events[0]), events[1..])
  }

  lemma StartGood()
    ensures Good(START)
  {
    forall kind, key ensures Sum(START.accounts, kind, key) == 0 { assert START.accounts[..0] == []; }
  }

  /**
   * Conservation: after any messages, closings, lookups and evictions, what was pushed for a counter
   * globally is what was pushed over all transports, and what was pushed over all peers, live,
   * retained and dropped by the cache. Each transport has one account, and no peer has both a live
   * and a retained one.
   */
  lemma BooksBalance(events: seq<Event>, key: string)
    ensures Good(START)
    ensures var l := RecordAll(START, events);
            && Sum(l.accounts, Global, key) == Sum(l.accounts, Transports, key) == Sum(l.accounts, Peers, key)
            && |l.accounts| > 0 && Total(l.accounts[0].ops, key) == Sum(l.accounts, Global, key)
            && l.live.Keys !! l.retained.Keys
            && OnePerTag(l.accounts)
  {
    StartGood();
    OnlyGlobal(RecordAll(START, events).accounts, key);
  }

  /** No transport and no protocol has two accounts. */
  ghost predicate OnePerTag(accounts: seq<Account>) {
    forall i, j {:trigger accounts[i], accounts[j]} :: 0 <= i < j < |accounts| ==>
      accounts[i].role != accounts[j].role || accounts[i].role.OnePeer?
  }

  lemma {:induction false} OnlyGlobal(accounts: seq<Account>, key: string)
    requires |accounts| > 0 && accounts[0].role == Everything
    requires forall i :: 0 < i < |accounts| ==> accounts[i].role != Everything
    ensures Sum(accounts, Global, key) == Total(accounts[0].ops, key)
  {
    if |accounts| > 1 {
      OnlyGlobal(accounts[..|accounts| - 1], key);
    } else {
      assert accounts[..0] == [];
    }
  }

  /** What was pushed for a peer, as far as it is still known. */
  function KnownOf(l: Books, id: PeerId): seq<Increment>
    requires InRange(l)
  {
    if id in l.live then l.accounts[l.live[id]].ops
    else if id in l.retained then l.accounts[l.retained[id]].ops
    else []
  }

  /** A message for a peer continues the account the peer has, live or retained, and touches no other's. */
  lemma MessageContinues(l: Books, id: PeerId, op: Increment, evicted: set<PeerId>, other: PeerId)
    requires Sorted(l) && other != id && other !in evicted
    ensures var r := PostPeer(l, id, op, evicted);
            KnownOf(r, id) == KnownOf(l, id) + [op] && KnownOf(r, other) == KnownOf(l, other)
  {
    var l1 := Recall(l, id, evicted);
    RecallSorted(l, id, evicted);
    RecallKnown(l, id, evicted, other);
    PostLiveKnown(l1, id, op, other);
  }

  lemma PostLiveKnown(l: Books, id: PeerId, op: Increment, other: PeerId)
    requires Sorted(l) && id in l.live && other != id
    ensures var r := Post(l, l.live[id], op);
            InRange(r) && KnownOf(r, id) == KnownOf(l, id) + [op] && KnownOf(r, other) == KnownOf(l, other)
  {
    assert other in l.live ==> l.accounts[l.live[other]].role == OnePeer(other);
    assert other in l.retained ==> l.accounts[l.retained[other]].role == OnePeer(other);
  }

  lemma RecallKnown(l: Books, id: PeerId, evicted: set<PeerId>, other: PeerId)
    requires Sorted(l) && other != id && other !in evicted
    ensures var r := Recall(l, id, evicted);
            InRange(r) && KnownOf(r, id) == KnownOf(l, id) && KnownOf(r, other) == KnownOf(l, other)
  {
    if id in l.live {
    } else if id in l.retained {
      MovedKnown(l, id, l.retained[id], evicted + {id}, other);
    } else {
      MovedKnown(Opened(l, OnePeer(id)), id, |l.accounts|, evicted, other);
    }
  }

  lemma MovedKnown(l: Books, id: PeerId, n: nat, gone: set<PeerId>, other: PeerId)
    requires InRange(l) && n < |l.accounts| && other != id && other !in gone
    ensures var r := Moved(l, id, n, gone);
            InRange(r) && KnownOf(r, id) == l.accounts[n].ops && KnownOf(r, other) == KnownOf(l, other)
  {
  }

  /** A push to an account that is not a peer's leaves what is known of the peers. */
  lemma PostKnown(l: Books, i: nat, op: Increment, id: PeerId)
    requires Sorted(l) && i < |l.accounts| && !l.accounts[i].role.OnePeer?
    ensures InRange(Post(l, i, op)) && KnownOf(Post(l, i, op), id) == KnownOf(l, id)
  {
    assert id in l.live ==> l.accounts[l.live[id]].role == OnePeer(id);
    assert id in l.retained ==> l.accounts[l.retained[id]].role == OnePeer(id);
  }

  lemma TransportKnown(l: Books, tag: string, op: Increment, id: PeerId)
    requires Sorted(l)
    ensures KnownOf(PostTransport(l, tag, op), id) == KnownOf(l, id)
  {
    var l1 := ForTransport(l, tag);
    ForTransportSorted(l, tag);
    assert KnownOf(l1, id) == KnownOf(l, id);
    PostKnown(l1, l1.transports[tag], op, id);
  }

  lemma ProtocolKnown(l: Books, tag: string, op: Increment, id: PeerId)
    requires Sorted(l)
    ensures KnownOf(PostProtocol(l, tag, op), id) == KnownOf(l, id)
  {
    var l1 := ForProtocol(l, tag);
    ForProtocolSorted(l, tag);
    assert KnownOf(l1, id) == KnownOf(l, id);
    PostKnown(l1, l1.protocols[tag], op, id);
  }

  lemma PeerKnown(l: Books, of: PeerId, op: Increment, evicted: set<PeerId>, id: PeerId)
    requires Sorted(l) && id !in evicted
    ensures KnownOf(PostPeer(l, of, op, evicted), id) == KnownOf(l, id) + if of == id then [op] else []
  {
    if of != id {
      MessageContinues(l, of, op, evicted, id);
    } else {
      RecallSorted(l, id, evicted);
      if id in l.retained && id !in l.live { assert l.retained[id] < |l.accounts|; }
    }
  }

  /** What an event adds to what was counted for a peer. */
  function Counted(e: Event, id: PeerId): seq<Increment> {
    if e.Heard? && e.transport.Some? && e.id == id then [e.op] else []
  }

  lemma RecordKnown(l: Books, e: Event, id: PeerId)
    requires Good(l) && id !in e.evicted
    ensures KnownOf(Record(l, e), id) == KnownOf(l, id) + Counted(e, id)
  {
    match e
    case Heard(of, transport, protocol, op, evicted) =>
      var l1 := Traffic(l, of, transport, op, evicted);
      if transport.Some? {
        AllKnown(l, of, transport.value, op, evicted, id);
        PostAllKeeps(l, of, transport.value, op, evicted);
      }
      if protocol.Some? { ProtocolKnown(l1, protocol.value, op, id); }
    case _ =>
  }

  lemma AllKnown(l: Books, of: PeerId, tag: string, op: Increment, evicted: set<PeerId>, id: PeerId)
    requires Sorted(l) && id !in evicted
    ensures KnownOf(PostAll(l, of, tag, op, evicted), id) == KnownOf(l, id) + if of == id then [op] else []
  {
    PostKnown(l, 0, op, id);
    PostGlobalAdds(l, op);
    PeerKnown(Post(l, 0, op), of, op, evicted, id);
    PostPeerAdds(Post(l, 0, op), of, op, evicted);
    TransportKnown(PostPeer(Post(l, 0, op), of, op, evicted), tag, op, id);
  }

  /** Everything counted for a peer over a run, in order. */
  function CountedIn(events: seq<Event>, id: PeerId): seq<Increment> {
    if events == [] then [] else Counted(events[0], id) + CountedIn(events[1..], id)
  }

  lemma StepKnown(l: Books, e: Event, id: PeerId) returns (m: Books)
    requires Good(l) && id !in e.evicted
    ensures m == Record(l, e) && Good(m) && KnownOf(m, id) == KnownOf(l, id) + Counted(e, id)
  {
    RecordKeeps(l, e);
    RecordKnown(l, e, id);
    m := Record(l, e);
  }

  lemma {:induction false} RecordAllKnown(l: Books, events: seq<Event>, id: PeerId)
    requires Good(l) && forall i :: 0 <= i < |events| ==> id !in events[i].evicted
    ensures KnownOf(RecordAll(l, events), id) == KnownOf(l, id) + CountedIn(events, id)
    decreases |events|
  {
    if events == [] {
      assert KnownOf(l, id) + [] == KnownOf(l, id);
    } else {
      var m := StepKnown(l, events[0], id);
      RecordAllKnown(m, events[1..], id);
      Associates(KnownOf(l, id), Counted(events[0], id), CountedIn(events[1..], id));
    }
  }

  /**
   * Retention: however often a peer comes and goes, its account holds every message counted for it
   * with a transport, in order, unless the cache drops it.
   */
  lemma PeerHistory(events: seq<Event>, id: PeerId)
    requires forall i :: 0 <= i < |events| ==> id !in events[i].evicted
    ensures Good(START) && KnownOf(RecordAll(START, events), id) == CountedIn(events, id)
  {
    StartGood();
    RecordAllKnown(START, events, id);
    assert [] + CountedIn(events, id) == CountedIn(events, id);
  }

  // ---------------------------------------------------------------- every message is counted where it belongs

  /** What the messages of a run carry, as far as they concern a transport, a protocol, or any transport at all. */
  function Over(e: Event, tag: string): seq<Increment> {
    if e.Heard? && e.transport == Some(tag) then [e.op] else []
  }

  function Of(e: Event, tag: string): seq<Increment> {
    if e.Heard? && e.protocol == Some(tag) then [e.op] else []
  }

  function OverAny(e: Event): seq<Increment> {
    if e.Heard? && e.transport.Some? then [e.op] else []
  }

  function Via(events: seq<Event>, tag: string): seq<Increment> {
    if events == [] then [] else Over(events[0], tag) + Via(events[1..], tag)
  }

  function Speaking(events: seq<Event>, tag: string): seq<Increment> {
    if events == [] then [] else Of(events[0], tag) + Speaking(events[1..], tag)
  }

  function Routed(events: seq<Event>): seq<Increment> {
    if events == [] then [] else OverAny(events[0]) + Routed(events[1..])
  }

  function OpsVia(l: Books, tag: string): seq<Increment>
    requires InRange(l)
  {
    if tag in l.transports then l.accounts[l.transports[tag]].ops else []
  }

  function OpsSpeaking(l: Books, tag: string): seq<Increment>
    requires InRange(l)
  {
    if tag in l.protocols then l.accounts[l.protocols[tag]].ops else []
  }

  /** A push to one account, as the transports, the protocols and the global account see it. */
  lemma PostSeen(l: Books, i: nat, op: Increment, via: string, speaking: string)
    requires Sorted(l) && i < |l.accounts|
    ensures var r := Post(l, i, op);
            && InRange(r)
            && OpsVia(r, via) == OpsVia(l, via) + (if l.accounts[i].role == OneTransport(via) then [op] else [])
            && OpsSpeaking(r, speaking) ==
               OpsSpeaking(l, speaking) + (if l.accounts[i].role == OneProtocol(speaking) then [op] else [])
            && r.accounts[0].ops == l.accounts[0].ops + (if i == 0 then [op] else [])
  {
    assert l.accounts[i].role == OneTransport(via) ==> via in l.transports && l.transports[via] == i;
    assert l.accounts[i].role == OneProtocol(speaking) ==> speaking in l.protocols && l.protocols[speaking] == i;
    assert via in l.transports ==> l.accounts[l.transports[via]].role == OneTransport(via);
    assert speaking in l.protocols ==> l.accounts[l.protocols[speaking]].role == OneProtocol(speaking);
  }

  /** Finding an account changes nothing that is seen: one that is opened is empty. */
  ghost predicate SeenSame(l: Books, r: Books, via: string, speaking: string) {
    && InRange(l) && InRange(r) && OpsVia(r, via) == OpsVia(l, via)
    && OpsSpeaking(r, speaking) == OpsSpeaking(l, speaking)
    && r.accounts[0].ops == l.accounts[0].ops
  }

  lemma RecallSeen(l: Books, id: PeerId, evicted: set<PeerId>, via: string, speaking: string)
    requires Sorted(l)
    ensures SeenSame(l, Recall(l, id, evicted), via, speaking)
  {
    RecallSorted(l, id, evicted);
  }

  lemma ForTransportSeen(l: Books, tag: string, via: string, speaking: string)
    requires Sorted(l)
    ensures SeenSame(l, ForTransport(l, tag), via, speaking)
  {
    ForTransportSorted(l, tag);
  }

  lemma ForProtocolSeen(l: Books, tag: string, via: string, speaking: string)
    requires Sorted(l)
    ensures SeenSame(l, ForProtocol(l, tag), via, speaking)
  {
    ForProtocolSorted(l, tag);
  }

  /** What one of the accounts gained is what the transport, the protocol or the global account gained. */
  ghost predicate Seen(l: Books, r: Books, via: string, speaking: string, v: seq<Increment>, s: seq<Increment>,
                       g: seq<Increment>) {
    && InRange(l) && InRange(r)
    && OpsVia(r, via) == OpsVia(l, via) + v && OpsSpeaking(r, speaking) == OpsSpeaking(l, speaking) + s
    && r.accounts[0].ops == l.accounts[0].ops + g
  }

  lemma PeerSeen(l: Books, id: PeerId, op: Increment, evicted: set<PeerId>, via: string, speaking: string)
    requires Sorted(l)
    ensures Seen(l, PostPeer(l, id, op, evicted), via, speaking, [], [], [])
  {
    RecallSorted(l, id, evicted);
    RecallSeen(l, id, evicted, via, speaking);
    var l1 := Recall(l, id, evicted);
    PostSeen(l1, l1.live[id], op, via, speaking);
  }

  lemma TransportSeen(l: Books, tag: string, op: Increment, via: string, speaking: string)
    requires Sorted(l)
    ensures Seen(l, PostTransport(l, tag, op), via, speaking, if tag == via then [op] else [], [], [])
  {
    ForTransportSorted(l, tag);
    ForTransportSeen(l, tag, via, speaking);
    var l1 := ForTransport(l, tag);
    PostSeen(l1, l1.transports[tag], op, via, speaking);
  }

  lemma ProtocolSeen(l: Books, tag: string, op: Increment, via: string, speaking: string)
    requires Sorted(l)
    ensures Seen(l, PostProtocol(l, tag, op), via, speaking, [], if tag == speaking then [op] else [], [])
  {
    ForProtocolSorted(l, tag);
    ForProtocolSeen(l, tag, via, speaking);
    var l1 := ForProtocol(l, tag);
    PostSeen(l1, l1.protocols[tag], op, via, speaking);
  }

  lemma SeenTwice(l: Books, m: Books, r: Books, via: string, speaking: string, v: seq<Increment>, v': seq<Increment>,
                  s: seq<Increment>, s': seq<Increment>, g: seq<Increment>, g': seq<Increment>)
    requires Seen(l, m, via, speaking, v, s, g) && Seen(m, r, via, speaking, v', s', g')
    ensures Seen(l, r, via, speaking, v + v', s + s', g + g')
  {
    Associates(OpsVia(l, via), v, v');
    Associates(OpsSpeaking(l, speaking), s, s');
    Associates(l.accounts[0].ops, g, g');
  }

  lemma GlobalSeen(l: Books, op: Increment, via: string, speaking: string)
    requires Sorted(l)
    ensures Seen(l, Post(l, 0, op), via, speaking, [], [], [op])
  {
    PostSeen(l, 0, op, via, speaking);
  }

  lemma AllSeen(l: Books, id: PeerId, tag: string, op: Increment, evicted: set<PeerId>, via: string, speaking: string)
    requires Sorted(l)
    ensures Seen(l, PostAll(l, id, tag, op, evicted), via, speaking, if tag == via then [op] else [], [], [op])
  {
    var l1 := Post(l, 0, op);
    PostGlobalAdds(l, op);
    GlobalSeen(l, op, via, speaking);
    var l2 := PostPeer(l1, id, op, evicted);
    PostPeerAdds(l1, id, op, evicted);
    PeerSeen(l1, id, op, evicted, via, speaking);
    SeenTwice(l, l1, l2, via, speaking, [], [], [], [], [op], []);
    TransportSeen(l2, tag, op, via, speaking);
    var v := if tag == via then [op] else [];
    SeenTwice(l, l2, PostTransport(l2, tag, op), via, speaking, [], v, [], [], [op], []);
    assert [] + v == v && [op] + [] + [] == [op];
  }

  lemma TrafficSeen(l: Books, id: PeerId, transport: Option<string>, op: Increment, evicted: set<PeerId>, via: string,
                    speaking: string)
    requires Good(l)
    ensures Good(Traffic(l, id, transport, op, evicted))
    ensures Seen(l, Traffic(l, id, transport, op, evicted), via, speaking,
                 if transport == Some(via) then [op] else [], [],
                 if transport.Some? then [op] else [])
  {
    if transport.Some? {
      AllSeen(l, id, transport.value, op, evicted, via, speaking);
      PostAllKeeps(l, id, transport.value, op, evicted);
    }
  }

  lemma UseSeen(l: Books, protocol: Option<string>, op: Increment, via: string, speaking: string)
    requires Sorted(l)
    ensures Seen(l, Use(l, protocol, op), via, speaking, [], if protocol == Some(speaking) then [op] else [], [])
  {
    if protocol.Some? { ProtocolSeen(l, protocol.value, op, via, speaking); }
  }

  lemma RecordSeen(l: Books, e: Event, via: string, speaking: string)
    requires Good(l)
    ensures Seen(l, Record(l, e), via, speaking, Over(e, via), Of(e, speaking), OverAny(e))
  {
    if e.Heard? {
      var m := Traffic(l, e.id, e.transport, e.op, e.evicted);
      TrafficSeen(l, e.id, e.transport, e.op, e.evicted, via, speaking);
      UseSeen(m, e.protocol, e.op, via, speaking);
      SeenThenUsed(l, m, Use(m, e.protocol, e.op), via, speaking, Over(e, via), Of(e, speaking), OverAny(e));
    }
  }

  lemma SeenThenUsed(l: Books, m: Books, r: Books, via: string, speaking: string, v: seq<Increment>, s: seq<Increment>,
                     g: seq<Increment>)
    requires Seen(l, m, via, speaking, v, [], g) && Seen(m, r, via, speaking, [], s, [])
    ensures Seen(l, r, via, speaking, v, s, g)
  {
    SeenTwice(l, m, r, via, speaking, v, [], [], s, g, []);
    assert v + [] == v && [] + s == s && g + [] == g;
  }

  lemma StepSeen(l: Books, e: Event, via: string, speaking: string) returns (m: Books)
    requires Good(l)
    ensures m == Record(l, e) && Good(m)
    ensures Seen(l, m, via, speaking, Over(e, via), Of(e, speaking), OverAny(e))
  {
    RecordKeeps(l, e);
    RecordSeen(l, e, via, speaking);
    m := Record(l, e);
  }

  lemma {:induction false} RecordAllSeen(l: Books, events: seq<Event>, via: string, speaking: string)
    requires Good(l)
    ensures Seen(l, RecordAll(l, events), via, speaking, Via(events, via), Speaking(events, speaking), Routed(events))
    decreases |events|
  {
    if events != [] {
      var m := StepSeen(l, events[0], via, speaking);
      RecordAllSeen(m, events[1..], via, speaking);
      SeenTwice(l, m, RecordAll(m, events[1..]), via, speaking, Over(events[0], via), Via(events[1..], via),
                Of(events[0], speaking), Speaking(events[1..], speaking), OverAny(events[0]), Routed(events[1..]));
    }
  }

  /**
   * After any messages, closings, lookups and evictions: the account of a transport holds every message that came over
   * it, in order; the account of a protocol every message of that protocol; and the global account every message that
   * came over any transport. There is an account for a tag that nothing was counted for only if it is empty.
   */
  lemma MessagesCounted(events: seq<Event>, via: string, speaking: string)
    ensures Good(START)
    ensures var l := RecordAll(START, events);
            && (if via in l.transports then l.accounts[l.transports[via]].ops else []) == Via(events, via)
            && (if speaking in l.protocols then l.accounts[l.protocols[speaking]].ops else [])
               == Speaking(events, speaking)
            && l.accounts[0].ops == Routed(events)
  {
    StartGood();
    RecordAllSeen(START, events, via, speaking);
    assert [] + Via(events, via) == Via(events, via) && [] + Speaking(events, speaking) == Speaking(events, speaking);
    assert [] + Routed(events) == Routed(events);
  }
}

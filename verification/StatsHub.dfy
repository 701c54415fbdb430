/**
 * The statistics of a switch as objects: the hub finds the counters that a message concerns, makes
 * them on first use, and pushes to them. `model` is the bookkeeping it stands for.
 */
module StatsHub {
  import opened Basics
  import opened Connection
  import opened Stat
  import opened Accounts

  const INITIAL_COUNTERS := ["dataReceived", "dataSent"]

  function DirectionToEvent(inbound: bool): string {
    if inbound then "dataReceived" else "dataSent"
  }

  ghost predicate PeersPoint(m: map<PeerId, Stats>, at: map<PeerId, nat>, all: seq<Stats>) {
    m.Keys == at.Keys && forall p :: p in m ==> at[p] < |all| && m[p] == all[at[p]]
  }

  ghost predicate TagsPoint(m: map<string, Stats>, at: map<string, nat>, all: seq<Stats>) {
    m.Keys == at.Keys && forall t :: t in m ==> at[t] < |all| && m[t] == all[at[t]]
  }

  lemma TagsPut(m: map<string, Stats>, at: map<string, nat>, all: seq<Stats>, tag: string, i: nat)
    requires TagsPoint(m, at, all) && i < |all|
    ensures TagsPoint(m[tag := all[i]], at[tag := i], all)
  {
  }

  class Hub {
    const options: Options
    const global: Stats
    var peerStats: map<PeerId, Stats>
    var oldPeers: map<PeerId, Stats>
    var transportStats: map<string, Stats>
    var protocolStats: map<string, Stats>
    ghost var all: seq<Stats>          // every counter ever made
    ghost var model: Books

    /** The maps hold the counters of the accounts they point to. */
    ghost predicate MapsMatch()
      reads this
    {
      && |all| == |model.accounts| > 0 && all[0] == global
      && PeersPoint(peerStats, model.live, all) && PeersPoint(oldPeers, model.retained, all)
      && TagsPoint(transportStats, model.transports, all) && TagsPoint(protocolStats, model.protocols, all)
    }

    /** Every counter holds, applied or waiting, what was pushed to its account. */
    ghost predicate CountersMatch()
      reads this, all
    {
      && options.computeThrottleMaxQueueSize > 0
      && |all| == |model.accounts|
      && (forall i :: 0 <= i < |all| ==>
            all[i].number == i && all[i].options == options
            && all[i].Valid() && all[i].Given() == model.accounts[i].ops
            && "dataReceived" in all[i].stats && "dataSent" in all[i].stats)
    }

    /** The objects stand for the books. */
    ghost predicate Linked()
      reads this, all
    {
      InRange(model) && MapsMatch() && CountersMatch()
    }

    /** The objects stand for books that are in order and balance; this holds between events. */
    ghost predicate Valid()
      reads this, all
    {
      Linked() && Good(model)
    }

    /** Counters may have been added. */
    twostate predicate Grown()
      reads this
    {
      forall i :: 0 <= i < |all| ==> all[i] in old(all) || fresh(all[i])
    }

    constructor (options: Options, now: int)
      requires options.computeThrottleMaxQueueSize > 0
      ensures Valid() && fresh(all) && model == START
    {
      StartGood();
      this.options := options;
      var g := new Stats(INITIAL_COUNTERS, options, now, 0);
      global := g;
      peerStats, oldPeers, transportStats, protocolStats := map[], map[], map[], map[];
      all, model := [g], START;
    }

    /** Pushes to one counter. */
    method PushTo(s: Stats, key: string, inc: int, now: int)
      requires Linked() && s in all
      modifies s, this`model
      ensures Linked() && s.number < |old(model).accounts|
      ensures model == Post(old(model), s.number, Increment(key, inc, now))
    {
      s.Push(key, inc, now);
      model := Post(model, s.number, Increment(key, inc, now));
    }

    /** Sets the timer of a counter if it has anything to do. */
    method Wake(s: Stats, now: int)
      requires Linked() && s in all
      modifies s`timeout
      ensures Linked()
    {
      s.Start(now as real);
    }

    /** A counter that nothing was pushed to, not in the list yet. */
    ghost predicate IsNew(s: Stats)
      reads this`all, s
    {
      && s.number == |all| && s.options == options && s.Valid() && s.Given() == []
      && "dataReceived" in s.stats && "dataSent" in s.stats
    }

    /** Lists a new counter, which no map holds yet. */
    ghost method Enlist(s: Stats, role: Role)
      requires Linked() && IsNew(s)
      modifies this`all, this`model
      ensures Linked() && all == old(all) + [s] && model == Opened(old(model), role)
    {
      all, model := all + [s], Opened(model, role);
    }

    /** Files a counter as a peer's live one. */
    method FileLive(id: PeerId, s: Stats, ghost i: nat)
      requires Linked() && i < |all| && all[i] == s
      modifies this`peerStats, this`model
      ensures Linked() && peerStats == old(peerStats)[id := s] && model == old(model).(live := old(model).live[id := i])
    {
      peerStats, model := peerStats[id := s], model.(live := model.live[id := i]);
    }

    /** Files a counter as retained for a peer. */
    method FileRetained(id: PeerId, s: Stats, ghost i: nat)
      requires Linked() && i < |all| && all[i] == s
      modifies this`oldPeers, this`model
      ensures Linked() && oldPeers == old(oldPeers)[id := s]
      ensures model == old(model).(retained := old(model).retained[id := i])
    {
      oldPeers, model := oldPeers[id := s], model.(retained := model.retained[id := i]);
    }

    method FileTransport(tag: string, s: Stats, ghost i: nat)
      requires Linked() && i < |all| && all[i] == s
      modifies this`transportStats, this`model
      ensures Linked() && transportStats == old(transportStats)[tag := s]
      ensures model == old(model).(transports := old(model).transports[tag := i])
    {
      TagsPut(transportStats, model.transports, all, tag, i);
      transportStats, model := transportStats[tag := s], model.(transports := model.transports[tag := i]);
    }

    method FileProtocol(tag: string, s: Stats, ghost i: nat)
      requires Linked() && i < |all| && all[i] == s
      modifies this`protocolStats, this`model
      ensures Linked() && protocolStats == old(protocolStats)[tag := s]
      ensures model == old(model).(protocols := old(model).protocols[tag := i])
    {
      TagsPut(protocolStats, model.protocols, all, tag, i);
      protocolStats, model := protocolStats[tag := s], model.(protocols := model.protocols[tag := i]);
    }

    /** A peer has no live counter any more. */
    method Unfile(id: PeerId)
      requires Linked()
      modifies this`peerStats, this`model
      ensures Linked() && model == old(model).(live := old(model).live - {id})
    {
      peerStats, model := peerStats - {id}, model.(live := model.live - {id});
    }

    method AddPeer(s: Stats, id: PeerId)
      requires Linked() && IsNew(s)
      modifies this`all, this`model, this`peerStats
      ensures Linked() && all == old(all) + [s] && id in peerStats
      ensures model == Opened(old(model), OnePeer(id)).(live := old(model).live[id := |old(all)|])
    {
      ghost var n := |all|;
      Enlist(s, OnePeer(id));
      FileLive(id, s, n);
    }

    method AddTransport(s: Stats, tag: string)
      requires Linked() && tag !in transportStats && IsNew(s)
      modifies this`all, this`model, this`transportStats
      ensures Linked() && all == old(all) + [s] && tag in transportStats
      ensures model == Accounts.ForTransport(old(model), tag)
    {
      ghost var n := |all|;
      Enlist(s, OneTransport(tag));
      FileTransport(tag, s, n);
    }

    method AddProtocol(s: Stats, tag: string)
      requires Linked() && tag !in protocolStats && IsNew(s)
      modifies this`all, this`model, this`protocolStats
      ensures Linked() && all == old(all) + [s] && tag in protocolStats
      ensures model == Accounts.ForProtocol(old(model), tag)
    {
      ghost var n := |all|;
      Enlist(s, OneProtocol(tag));
      FileProtocol(tag, s, n);
    }

    /** The cache drops some peers. */
    method Evict(ids: set<PeerId>)
      requires Linked()
      modifies this`oldPeers, this`model
      ensures Linked() && model == old(model).(retained := old(model).retained - ids)
    {
      oldPeers, model := oldPeers - ids, model.(retained := model.retained - ids);
    }

    /** A retained counter becomes live again. */
    method Revive(id: PeerId)
      requires Linked() && id in oldPeers
      modifies this`oldPeers, this`peerStats, this`model
      ensures Linked() && id in peerStats
      ensures model == Moved(old(model), id, old(model).retained[id], {id})
    {
      FileLive(id, oldPeers[id], model.retained[id]);
      Evict({id});
    }

    /** The live counter of a peer: the one it has, the one retained for it, or a new one. */
    method PeerStat(id: PeerId, now: int, evicted: set<PeerId>) returns (s: Stats)
      requires Linked() && id !in evicted
      modifies this, all
      ensures Linked() && Grown() && id in peerStats && peerStats[id] == s
      ensures model == Recall(old(model), id, evicted)
    {
      if id !in peerStats {
        Renew(id, now, evicted);
        Wake(peerStats[id], now);
      }
      s := peerStats[id];
    }

    method Renew(id: PeerId, now: int, evicted: set<PeerId>)
      requires Linked() && id !in peerStats && id !in evicted
      modifies this`all, this`oldPeers, this`peerStats, this`model
      ensures Linked() && Grown() && id in peerStats
      ensures model == Recall(old(model), id, evicted)
    {
      EvictFirst(model, id, evicted);
      Evict(evicted);
      if id in oldPeers {
        Revive(id);
      } else {
        Create(id, now);
      }
    }

    /** A new counter for a peer. */
    method Create(id: PeerId, now: int)
      requires Linked()
      modifies this`all, this`model, this`peerStats
      ensures Linked() && Grown() && id in peerStats
      ensures model == Opened(old(model), OnePeer(id)).(live := old(model).live[id := |old(model).accounts|])
    {
      var s := new Stats(INITIAL_COUNTERS, options, now, |all|);
      AddPeer(s, id);
    }

    /** The counter of a transport, made on first use. */
    method TransportStat(tag: string, now: int) returns (s: Stats)
      requires Linked()
      modifies this
      ensures Linked() && Grown() && tag in transportStats && transportStats[tag] == s
      ensures model == Accounts.ForTransport(old(model), tag)
    {
      if tag !in transportStats {
        s := new Stats(INITIAL_COUNTERS, options, now, |all|);
        AddTransport(s, tag);
      }
      s := transportStats[tag];
    }

    /** The counter of a protocol, made on first use. */
    method ProtocolStat(tag: string, now: int) returns (s: Stats)
      requires Linked()
      modifies this
      ensures Linked() && Grown() && tag in protocolStats && protocolStats[tag] == s
      ensures model == Accounts.ForProtocol(old(model), tag)
    {
      if tag !in protocolStats {
        s := new Stats(INITIAL_COUNTERS, options, now, |all|);
        AddProtocol(s, tag);
      }
      s := protocolStats[tag];
    }

    method CountPeer(id: PeerId, key: string, inc: int, now: int, evicted: set<PeerId>)
      requires Linked() && id !in evicted
      modifies this, all
      ensures Linked() && Grown()
      ensures model == PostPeer(old(model), id, Increment(key, inc, now), evicted)
    {
      var s := PeerStat(id, now, evicted);
      PushTo(s, key, inc, now);
    }

    method CountTransport(tag: string, key: string, inc: int, now: int)
      requires Linked()
      modifies this, all
      ensures Linked() && Grown()
      ensures model == PostTransport(old(model), tag, Increment(key, inc, now))
    {
      var s := TransportStat(tag, now);
      PushTo(s, key, inc, now);
    }

    method CountProtocol(tag: string, key: string, inc: int, now: int)
      requires Linked()
      modifies this, all
      ensures Linked() && Grown()
      ensures model == PostProtocol(old(model), tag, Increment(key, inc, now))
    {
      var s := ProtocolStat(tag, now);
      PushTo(s, key, inc, now);
    }

    method CountAll(id: PeerId, tag: string, key: string, inc: int, now: int, evicted: set<PeerId>)
      requires Linked() && id !in evicted
      modifies this, all
      ensures Linked() && Grown()
      ensures model == PostAll(old(model), id, tag, Increment(key, inc, now), evicted)
    {
      CountBoth(id, key, inc, now, evicted);
      CountTransport(tag, key, inc, now);
    }

    /** Counts in the global counter, then for the peer. */
    method CountBoth(id: PeerId, key: string, inc: int, now: int, evicted: set<PeerId>)
      requires Linked() && id !in evicted
      modifies this, all
      ensures Linked() && Grown()
      ensures model == PostPeer(Post(old(model), 0, Increment(key, inc, now)), id, Increment(key, inc, now), evicted)
    {
      CountGlobal(key, inc, now);
      CountPeer(id, key, inc, now, evicted);
    }

    method CountGlobal(key: string, inc: int, now: int)
      requires Linked()
      modifies global, this`model
      ensures Linked() && model == Post(old(model), 0, Increment(key, inc, now))
    {
      PushTo(global, key, inc, now);
    }

    method CountTraffic(id: PeerId, transportTag: Option<string>, key: string, inc: int, now: int, evicted: set<PeerId>)
      requires Linked() && id !in evicted
      modifies this, all
      ensures Linked() && Grown()
      ensures model == Traffic(old(model), id, transportTag, Increment(key, inc, now), evicted)
    {
      if transportTag.Some? { CountAll(id, transportTag.value, key, inc, now, evicted); }
    }

    /** Counts a message under everything it concerns; one without a transport is not traffic at large. */
    method OnMessage(id: PeerId, transportTag: Option<string>, protocolTag: Option<string>, inbound: bool, length: int,
                     now: int, evicted: set<PeerId>)
      requires Valid() && id !in evicted
      modifies this, all
      ensures Valid() && Grown()
      ensures model == Accounts.Record(old(model), Heard(id, transportTag, protocolTag,
                                                       Increment(if inbound then "dataReceived" else "dataSent",
                                                                  length, now),
                                                         evicted))
    {
      MessageKeeps(model, id, transportTag, protocolTag, Increment(DirectionToEvent(inbound), length, now), evicted);
      Count(id, transportTag, protocolTag, DirectionToEvent(inbound), length, now, evicted);
    }

    /** Counts the traffic of a message, and then its protocol. */
    method Count(id: PeerId, transportTag: Option<string>, protocolTag: Option<string>, key: string, inc: int,
                 now: int, evicted: set<PeerId>)
      requires Linked() && id !in evicted
      modifies this, all
      ensures Linked() && Grown()
      ensures model == Message(old(model), id, transportTag, protocolTag, Increment(key, inc, now), evicted)
    {
      CountTraffic(id, transportTag, key, inc, now, evicted);
      CountUse(protocolTag, key, inc, now);
    }

    method CountUse(protocolTag: Option<string>, key: string, inc: int, now: int)
      requires Linked()
      modifies this, all
      ensures Linked() && Grown() && model == Use(old(model), protocolTag, Increment(key, inc, now))
    {
      if protocolTag.Some? { CountProtocol(protocolTag.value, key, inc, now); }
    }

    /** A peer's last connection closed: its counter stops and goes to the cache. */
    method PeerClosed(id: PeerId, evicted: set<PeerId>)
      requires Valid()
      modifies this, all
      ensures Valid() && Grown() && model == Closed(old(model), id, evicted)
      ensures id in old(peerStats) ==> old(peerStats)[id].timeout == None
    {
      RecordKeeps(model, Left(id, evicted));
      if id in peerStats { Leave(id, evicted); }
    }

    /** The counter of a peer that is live stops, and goes to the cache. */
    method Leave(id: PeerId, evicted: set<PeerId>)
      requires Linked() && id in peerStats
      modifies this, all
      ensures Linked() && Grown() && model == Closed(old(model), id, evicted) && old(peerStats)[id].timeout == None
    {
      Rest(peerStats[id]);
      Retain(id, evicted);
    }

    /** Stops the timer of a counter. */
    method Rest(s: Stats)
      requires Linked() && s in all
      modifies s`timeout
      ensures Linked() && s.timeout == None
    {
      s.Stop();
    }

    method Retain(id: PeerId, evicted: set<PeerId>)
      requires Linked() && id in peerStats
      modifies this`peerStats, this`oldPeers, this`model
      ensures Linked() && model == Closed(old(model), id, evicted)
    {
      Evict(evicted);
      FileRetained(id, peerStats[id], model.live[id]);
      Unfile(id);
    }

    /** The counter of a peer, live or retained. */
    method ForPeer(id: PeerId, evicted: set<PeerId>) returns (s: Option<Stats>)
      requires Valid()
      modifies this`oldPeers, this`model
      ensures Valid() && model == LookedUp(old(model), id, evicted)
      ensures match s
              case None => id !in old(model).live && id !in old(model).retained
              case Some(c) => c.Given() == KnownOf(old(model), id)
    {
      RecordKeeps(model, Queried(id, evicted));
      s := None;
      if id in peerStats {
        s := Some(peerStats[id]);
      } else {
        if id in oldPeers { s := Some(oldPeers[id]); }
        Evict(evicted);
      }
    }

    /** The timer of a counter fires: what waited is applied, and no account changes. */
    method Tick(s: Stats)
      requires Valid() && s in all
      modifies s
      ensures Valid() && s.queue == []
    {
      s.Update();
    }
  }

  // ---------------------------------------------------------------- conservation

  /** What a counter shows, applied and waiting together. */
  ghost function Shown(s: Stats, key: string): int
    reads s
  {
    Get(s.stats, key) + Total(s.queue, key)
  }

  /** The sum of the transport counters, taken in the order of a list of their tags. */
  ghost function TransportsShow(h: Hub, tags: seq<string>, key: string): int
    requires forall t :: t in tags ==> t in h.transportStats
    reads h, h.transportStats.Values
  {
    if tags == [] then 0
    else TransportsShow(h, tags[..|tags| - 1], key) + Shown(h.transportStats[tags[|tags| - 1]], key)
  }

  /** The sum of the counters ever made for a peer, whether live, retained or dropped. */
  ghost function PeersShow(h: Hub, n: nat, key: string): int
    requires n <= |h.all| && n <= |h.model.accounts|
    reads h, h.all
  {
    if n == 0 then 0
    else PeersShow(h, n - 1, key) + if h.model.accounts[n - 1].role.OnePeer? then Shown(h.all[n - 1], key) else 0
  }

  /** A counter shows what was pushed to its account. */
  lemma AppliedPlusBuffered(h: Hub, i: nat, key: string)
    requires h.Linked() && i < |h.all|
    ensures Shown(h.all[i], key) == Total(h.model.accounts[i].ops, key)
  {
    var s := h.all[i];
    TotalConcat(s.done, s.queue, key);
  }

  /**
   * What the counters show of a run of events: the global counter every message over any transport, each transport's
   * counter the messages over it, and each protocol's counter the messages of it, applied and waiting together.
   */
  lemma CountersShow(h: Hub, events: seq<Accounts.Event>, tag: string, key: string)
    requires h.Valid() && Good(START) && h.model == RecordAll(START, events)
    ensures Shown(h.global, key) == Total(Routed(events), key)
    ensures tag in h.transportStats ==> Shown(h.transportStats[tag], key) == Total(Via(events, tag), key)
    ensures tag in h.protocolStats ==> Shown(h.protocolStats[tag], key) == Total(Speaking(events, tag), key)
  {
    MessagesCounted(events, tag, tag);
    AppliedPlusBuffered(h, 0, key);
    if tag in h.transportStats { AppliedPlusBuffered(h, h.model.transports[tag], key); }
    if tag in h.protocolStats { AppliedPlusBuffered(h, h.model.protocols[tag], key); }
  }

  lemma {:induction false} PeersSum(h: Hub, n: nat, key: string)
    requires h.Linked() && n <= |h.all|
    ensures PeersShow(h, n, key) == Sum(h.model.accounts[..n], Peers, key)
  {
    if n > 0 {
      assert h.model.accounts[..n][..n - 1] == h.model.accounts[..n - 1];
      PeersSum(h, n - 1, key);
      AppliedPlusBuffered(h, n - 1, key);
    }
  }

  /** The tags of the transport accounts among the first `n`, each once. */
  ghost predicate Tags(l: Books, n: nat, tags: seq<string>) {
    Distinct(tags) && forall t :: t in tags <==> t in l.transports && l.transports[t] < n
  }

  /** A list of tags without one of them. */
  lemma TransportsLess(h: Hub, tags: seq<string>, i: nat, key: string)
    requires (forall t :: t in tags ==> t in h.transportStats) && i < |tags| && Distinct(tags)
    ensures var rest := tags[..i] + tags[i + 1..];
            && Distinct(rest) && (forall t :: t in rest <==> t in tags && t != tags[i])
            && TransportsShow(h, tags, key) == TransportsShow(h, rest, key) + Shown(h.transportStats[tags[i]], key)
  {
    var rest := tags[..i] + tags[i + 1..];
    forall t | t in tags && t != tags[i] ensures t in rest {
      var j :| 0 <= j < |tags| && tags[j] == t;
      assert rest[if j < i then j else j - 1] == t;
    }
    LessShows(h, tags, i, key);
  }

  lemma {:induction false} LessShows(h: Hub, tags: seq<string>, i: nat, key: string)
    requires (forall t :: t in tags ==> t in h.transportStats) && i < |tags|
    ensures var rest := tags[..i] + tags[i + 1..];
            && (forall t :: t in rest ==> t in tags)
            && TransportsShow(h, tags, key) == TransportsShow(h, rest, key) + Shown(h.transportStats[tags[i]], key)
    decreases |tags|
  {
    var n := |tags| - 1;
    var rest := tags[..i] + tags[i + 1..];
    if i == n {
      assert rest == tags[..n];
    } else {
      LessShows(h, tags[..n], i, key);
      assert rest[..|rest| - 1] == tags[..n][..i] + tags[..n][i + 1..];
    }
  }

  /** The tag of the last account, if it is a transport's, is in the list; the others are those before it. */
  lemma LastTag(l: Books, n: nat, tags: seq<string>) returns (i: nat)
    requires Sorted(l) && n < |l.accounts| && Tags(l, n + 1, tags) && l.accounts[n].role.OneTransport?
    ensures i < |tags| && tags[i] == l.accounts[n].role.tag && tags[i] in l.transports && l.transports[tags[i]] == n
    ensures forall t :: t in tags && t != tags[i] <==> t in l.transports && l.transports[t] < n
  {
    i :| 0 <= i < |tags| && tags[i] == l.accounts[n].role.tag;
    forall t | t in l.transports && l.transports[t] == n ensures t == tags[i] {
      assert l.accounts[n].role == OneTransport(t);
    }
  }

  lemma NoTag(l: Books, n: nat, tags: seq<string>)
    requires Sorted(l) && n < |l.accounts| && Tags(l, n + 1, tags) && !l.accounts[n].role.OneTransport?
    ensures Tags(l, n, tags)
  {
  }

  lemma NoTags(l: Books, tags: seq<string>)
    requires Tags(l, 0, tags)
    ensures tags == []
  {
    SomeTag(tags);
  }

  lemma SomeTag(tags: seq<string>)
    ensures tags == [] || exists t :: t in tags
  {
    if tags != [] { assert tags[0] in tags; }
  }

  lemma {:induction false} TransportsSum(h: Hub, n: nat, tags: seq<string>, key: string)
    requires h.Linked() && Sorted(h.model) && n <= |h.all| && Tags(h.model, n, tags)
    ensures TransportsShow(h, tags, key) == Sum(h.model.accounts[..n], Transports, key)
  {
    if n == 0 {
      NoTags(h.model, tags);
    } else {
      assert h.model.accounts[..n][..n - 1] == h.model.accounts[..n - 1];
      if h.model.accounts[n - 1].role.OneTransport? {
        var i := LastTag(h.model, n - 1, tags);
        TransportsLess(h, tags, i, key);
        AppliedPlusBuffered(h, n - 1, key);
        TransportsSum(h, n - 1, tags[..i] + tags[i + 1..], key);
      } else {
        NoTag(h.model, n - 1, tags);
        TransportsSum(h, n - 1, tags, key);
      }
    }
  }

  /**
   * Conservation, in the counters themselves: what the global counter shows, applied and waiting together,
   * is the sum of what the transport counters show, and the sum of what the counters of all peers show,
   * live, retained and dropped.
   */
  lemma TrafficBalances(h: Hub, tags: seq<string>, key: string)
    requires h.Valid() && Distinct(tags) && forall t :: t in tags <==> t in h.transportStats
    ensures Shown(h.global, key) == TransportsShow(h, tags, key) == PeersShow(h, |h.all|, key)
  {
    var accounts := h.model.accounts;
    assert accounts[..|h.all|] == accounts;
    AppliedPlusBuffered(h, 0, key);
    OnlyGlobal(accounts, key);
    TransportsSum(h, |h.all|, tags, key);
    PeersSum(h, |h.all|, key);
  }
}

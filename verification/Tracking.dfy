/**
 * The connection manager's table: lists of connections by peer id. It represents one list, the
 * connections added and not removed since, in the order they were added.
 */
module Tracking {
  import opened Basics
  import opened Fsm
  import opened Connection
  import opened ConnectionFsm
  import opened Scheduler
  import opened Slots

  /** The connections of one peer. */
  function For<Q>(list: seq<ConnectionFSM<Q>>, id: PeerId): (r: seq<ConnectionFSM<Q>>)
    ensures forall i :: 0 <= i < |r| ==> r[i] in list && r[i].theirB58Id == id
  {
    if list == [] then []
    else if list[0].theirB58Id == id then [list[0]] + For(list[1..], id)
    else For(list[1..], id)
  }

  /** The first muxed connection of a peer. */
  function FirstMuxedIn<Q>(list: seq<ConnectionFSM<Q>>, id: PeerId): Option<ConnectionFSM<Q>>
    reads list
  {
    if list == [] then None
    else if list[0].theirB58Id == id && list[0].state == Muxed then Some(list[0])
    else FirstMuxedIn(list[1..], id)
  }

  lemma {:induction false} ForMembers<Q>(list: seq<ConnectionFSM<Q>>, id: PeerId)
    ensures forall c :: c in For(list, id) <==> c in list && c.theirB58Id == id
  {
    if list != [] {
      ForMembers(list[1..], id);
      assert forall c :: c in list <==> c == list[0] || c in list[1..];
    }
  }

  /** A muxed connection is found exactly when the peer has one, and it is the peer's. */
  lemma {:induction false} FirstMuxedExact<Q>(list: seq<ConnectionFSM<Q>>, id: PeerId)
    ensures FirstMuxedIn(list, id).Some? <==> exists c :: c in list && c.theirB58Id == id && c.state == Muxed
    ensures FirstMuxedIn(list, id).Some? ==>
              var c := FirstMuxedIn(list, id).value; c in list && c.theirB58Id == id && c.state == Muxed
  {
    if list != [] {
      FirstMuxedExact(list[1..], id);
      assert forall c :: c in list <==> c == list[0] || c in list[1..];
    }
  }

  lemma {:induction false} ForConcat<Q>(a: seq<ConnectionFSM<Q>>, b: seq<ConnectionFSM<Q>>, id: PeerId)
    ensures For(a + b, id) == For(a, id) + For(b, id)
  {
    if a == [] {
      assert a + b == b;
    } else {
      assert (a + b)[1..] == a[1..] + b;
      ForConcat(a[1..], b, id);
    }
  }

  lemma {:induction false} ForDistinct<Q>(list: seq<ConnectionFSM<Q>>, id: PeerId)
    requires Distinct(list)
    ensures Distinct(For(list, id))
  {
    if list != [] {
      DistinctTail(list);
      ForDistinct(list[1..], id);
      ForMembers(list[1..], id);
    }
  }

  lemma {:induction false} ForRemove<Q>(list: seq<ConnectionFSM<Q>>, c: ConnectionFSM<Q>, id: PeerId)
    ensures For(Remove(list, c), id) == if c.theirB58Id == id then Remove(For(list, id), c) else For(list, id)
  {
    if list != [] {
      if list[0] != c {
        assert Remove(list, c) == [list[0]] + Remove(list[1..], c);
        assert ([list[0]] + Remove(list[1..], c))[1..] == Remove(list[1..], c);
        ForRemove(list[1..], c, id);
        if list[0].theirB58Id == id {
          assert For(list, id)[1..] == For(list[1..], id);
        }
      } else if c.theirB58Id == id {
        assert For(list, id)[1..] == For(list[1..], id);
      }
    }
  }

  lemma {:induction false} RemoveAbsent<T>(s: seq<T>, x: T)
    requires x !in s
    ensures Remove(s, x) == s
  {
    if s != [] {
      assert s[0] in s;
      assert forall y :: y in s[1..] ==> y in s;
      RemoveAbsent(s[1..], x);
      assert s == [s[0]] + s[1..];
    }
  }

  lemma {:induction false} RemoveAt<T>(s: seq<T>, x: T, i: nat)
    requires i < |s| && s[i] == x && forall j :: 0 <= j < i ==> s[j] != x
    ensures Remove(s, x) == s[..i] + s[i + 1..]
  {
    if i > 0 {
      RemoveAt(s[1..], x, i - 1);
      assert s[..i] == [s[0]] + s[1..][..i - 1];
      assert s[i + 1..] == s[1..][i..];
    }
  }

  lemma {:induction false} FirstMuxedFor<Q>(list: seq<ConnectionFSM<Q>>, id: PeerId)
    ensures FirstMuxedIn(list, id) == FirstMuxedIn(For(list, id), id)
  {
    if list != [] {
      FirstMuxedFor(list[1..], id);
      if list[0].theirB58Id == id {
        assert For(list, id)[1..] == For(list[1..], id);
      }
    }
  }

  lemma {:induction false} FirstMuxedAt<Q>(list: seq<ConnectionFSM<Q>>, id: PeerId, i: nat)
    requires i < |list| && list[i].state == Muxed && list[i].theirB58Id == id
    requires forall j :: 0 <= j < i ==> list[j].state != Muxed
    ensures FirstMuxedIn(list, id) == Some(list[i])
  {
    if i > 0 { FirstMuxedAt(list[1..], id, i - 1); }
  }

  lemma {:induction false} FirstMuxedNone<Q>(list: seq<ConnectionFSM<Q>>, id: PeerId)
    requires forall j :: 0 <= j < |list| ==> list[j].state != Muxed
    ensures FirstMuxedIn(list, id) == None
  {
    if list != [] { FirstMuxedNone(list[1..], id); }
  }

  lemma {:induction false} NoneOf<Q>(list: seq<ConnectionFSM<Q>>, id: PeerId)
    requires forall i :: 0 <= i < |list| ==> list[i].theirB58Id != id
    ensures For(list, id) == []
  {
    if list != [] { NoneOf(list[1..], id); }
  }

  /** Lists of different peers have nothing in common. */
  lemma DistinctConcat<T>(a: seq<T>, b: seq<T>)
    requires Distinct(a) && Distinct(b)
    requires forall i, j :: 0 <= i < |a| && 0 <= j < |b| ==> a[i] != b[j]
    ensures Distinct(a + b)
  {
  }

  /** Each list holds the tracked connections of its peer; a list may be about to be filled or dropped. */
  ghost predicate Holds<Q>(table: map<PeerId, seq<ConnectionFSM<Q>>>, tracked: seq<ConnectionFSM<Q>>) {
    && Distinct(tracked)
    && (forall id :: id in table ==> table[id] == For(tracked, id))
    && (forall c :: c in tracked ==> c.theirB58Id in table)
  }

  lemma PushHolds<Q>(table: map<PeerId, seq<ConnectionFSM<Q>>>, tracked: seq<ConnectionFSM<Q>>, c: ConnectionFSM<Q>)
    requires Holds(table, tracked) && c.theirB58Id in table && c !in tracked
    ensures var id := c.theirB58Id; Holds(table[id := table[id] + [c]], tracked + [c])
  {
    var id := c.theirB58Id;
    var table' := table[id := table[id] + [c]];
    assert [c][1..] == [];
    forall x | x in table' ensures table'[x] == For(tracked + [c], x) {
      ForConcat(tracked, [c], x);
    }
  }

  lemma RemoveHolds<Q>(table: map<PeerId, seq<ConnectionFSM<Q>>>, tracked: seq<ConnectionFSM<Q>>, c: ConnectionFSM<Q>)
    requires Holds(table, tracked) && c.theirB58Id in table
    ensures var id := c.theirB58Id; Holds(table[id := Remove(table[id], c)], Remove(tracked, c))
  {
    var id := c.theirB58Id;
    RemoveDistinct(tracked, c);
    var table' := table[id := Remove(table[id], c)];
    forall x | x in table' ensures table'[x] == For(Remove(tracked, c), x) {
      ForRemove(tracked, c, x);
    }
  }

  lemma DropHolds<Q>(table: map<PeerId, seq<ConnectionFSM<Q>>>, tracked: seq<ConnectionFSM<Q>>, id: PeerId)
    requires Holds(table, tracked) && id in table && table[id] == []
    ensures Holds(table - {id}, tracked)
  {
    ForMembers(tracked, id);
  }

  class ConnectionManager<Q> {
    var connections: map<PeerId, seq<ConnectionFSM<Q>>>
    ghost var tracked: seq<ConnectionFSM<Q>>

    ghost predicate Represents()
      reads this
    {
      Holds(connections, tracked)
    }

    /** As Represents, and no list is empty. */
    ghost predicate Valid()
      reads this
    {
      Represents() && forall id :: id in connections ==> connections[id] != []
    }

    constructor ()
      ensures Valid() && tracked == []
    {
      connections := map[];
      tracked := [];
    }

    /** Tracks a connection; one that is tracked already stays where it is. */
    method Add(c: ConnectionFSM<Q>)
      requires Valid()
      modifies this
      ensures Valid()
      ensures tracked == if c in old(tracked) then old(tracked) else old(tracked) + [c]
    {
      if c.theirB58Id !in connections {
        NoneFor(c.theirB58Id);
        connections := connections[c.theirB58Id := []];
      }
      var found := Get(c);
      if !found {
        PushHolds(connections, tracked, c);
        connections := connections[c.theirB58Id := connections[c.theirB58Id] + [c]];
        tracked := tracked + [c];
      }
    }

    lemma NoneFor(id: PeerId)
      requires forall c :: c in tracked ==> c.theirB58Id != id
      ensures For(tracked, id) == []
    {
      forall i | 0 <= i < |tracked| ensures tracked[i].theirB58Id != id { assert tracked[i] in tracked; }
      NoneOf(tracked, id);
    }

    /** Whether a connection is tracked. */
    method Get(c: ConnectionFSM<Q>) returns (found: bool)
      requires Represents()
      ensures found <==> c in tracked
    {
      if c.theirB58Id !in connections { return false; }
      var list := connections[c.theirB58Id];
      ForMembers(tracked, c.theirB58Id);
      for i := 0 to |list|
        invariant c !in list[..i]
      {
        if list[i] == c {
          assert list[i] in list;
          return true;
        }
      }
      assert list[..|list|] == list;
      return false;
    }

    /** The first muxed connection tracked for a peer. */
    method GetOne(id: PeerId) returns (r: Option<ConnectionFSM<Q>>)
      requires Valid()
      ensures r == FirstMuxedIn(tracked, id)
    {
      FirstMuxedFor(tracked, id);
      if id in connections {
        r := FindMuxed(connections[id], id);
      } else {
        NoneFor(id);
        r := None;
      }
    }

    /** The first muxed connection in the list of a peer. */
    static method FindMuxed(list: seq<ConnectionFSM<Q>>, ghost id: PeerId) returns (r: Option<ConnectionFSM<Q>>)
      requires forall i :: 0 <= i < |list| ==> list[i].theirB58Id == id
      ensures r == FirstMuxedIn(list, id)
    {
      for i := 0 to |list|
        invariant forall j :: 0 <= j < i ==> list[j].state != Muxed
      {
        if list[i].state == Muxed {
          FirstMuxedAt(list, id, i);
          return Some(list[i]);
        }
      }
      FirstMuxedNone(list, id);
      return None;
    }

    /** Stops tracking a connection; doing so again changes nothing. */
    method Remove(c: ConnectionFSM<Q>)
      requires Valid()
      modifies this
      ensures Valid()
      ensures tracked == Scheduler.Remove(old(tracked), c)
      ensures c !in tracked
    {
      var id := c.theirB58Id;
      RemoveDistinct(tracked, c);
      if id !in connections {
        RemoveAbsent(tracked, c);
        return;
      }
      RemoveHolds(connections, tracked, c);
      var list := Spliced(connections[id], c);
      connections := connections[id := list];
      tracked := Scheduler.Remove(tracked, c);
      if connections[id] == [] {
        DropHolds(connections, tracked, id);
        connections := connections - {id};
      }
    }

    /** The list without the first occurrence of the connection. */
    static method Spliced(list: seq<ConnectionFSM<Q>>, c: ConnectionFSM<Q>) returns (r: seq<ConnectionFSM<Q>>)
      ensures r == Scheduler.Remove(list, c)
    {
      var i := 0;
      while i < |list| && list[i] != c
        invariant i <= |list| && forall j :: 0 <= j < i ==> list[j] != c
      {
        i := i + 1;
      }
      if i < |list| {
        RemoveAt(list, c, i);
        r := list[..i] + list[i + 1..];
      } else {
        RemoveAbsent(list, c);
        r := list;
      }
    }

    /** Every tracked connection, each once; `order` is the order in which the engine lists the keys. */
    method GetAll(order: seq<PeerId>) returns (all: seq<ConnectionFSM<Q>>)
      requires Valid() && Distinct(order) && forall id :: id in connections <==> id in order
      ensures Distinct(all)
      ensures forall c :: c in all <==> c in tracked
    {
      all := [];
      for i := 0 to |order|
        invariant Distinct(all)
        invariant forall k :: 0 <= k < |all| ==> all[k].theirB58Id in order[..i]
        invariant forall c :: c in all <==> c in tracked && c.theirB58Id in order[..i]
      {
        var list := connections[order[i]];
        ForDistinct(tracked, order[i]);
        ForMembers(tracked, order[i]);
        assert order[..i + 1] == order[..i] + [order[i]];
        assert order[i] !in order[..i];
        DistinctConcat(all, list);
        all := all + list;
      }
      assert order[..|order|] == order;
    }

    /** The connections tracked for a peer. */
    method GetAllById(id: PeerId) returns (list: seq<ConnectionFSM<Q>>)
      requires Valid()
      ensures list == For(tracked, id)
    {
      if id in connections { return connections[id]; }
      NoneFor(id);
      return [];
    }
  }
}

/**
 * The search for a transport: nested loops over the transports and over each transport's addresses,
 * proved to be one search through one flat list.
 */
module DialSearch {
  import opened Basics
  import opened Connection

  type Key = string

  /** The transport that relays, which is always tried last. */
  const CIRCUIT: Key := "Circuit"

  datatype Address = Address(text: string)

  datatype Attempt = Attempt(key: Key, addr: Address)

  /**
   * The switch and the world around it during one search. `transports`: the registered keys, each
   * once. `filter`: the addresses a transport can handle. `destination`: the part of an address
   * behind the last relay. `ours`: our own addresses. `reaches`: which attempts succeed.
   */
  datatype Net = Net(
    transports: seq<Key>,
    filter: (Key, seq<Address>) -> seq<Address>,
    destination: Address -> string,
    ours: seq<string>,
    reaches: Attempt -> bool)

  // ---------------------------------------------------------------- which transports, in which order

  /** Alphabetical order, by character codes. */
  predicate Less(a: Key, b: Key) {
    if b == "" then false
    else if a == "" then true
    else a[0] < b[0] || (a[0] == b[0] && Less(a[1..], b[1..]))
  }

  /** The order the transports are sorted by: alphabetical, with the relay after all others. */
  predicate Before(a: Key, b: Key) {
    if a == CIRCUIT then false else if b == CIRCUIT then true else Less(a, b)
  }

  function Keep(keys: seq<Key>, p: Key -> bool): seq<Key> {
    if keys == [] then [] else if p(keys[0]) then [keys[0]] + Keep(keys[1..], p) else Keep(keys[1..], p)
  }

  function Insert(k: Key, sorted: seq<Key>): seq<Key> {
    if sorted == [] || Before(k, sorted[0]) then [k] + sorted else [sorted[0]] + Insert(k, sorted[1..])
  }

  function Sort(keys: seq<Key>): seq<Key> {
    if keys == [] then [] else Insert(keys[0], Sort(keys[1..]))
  }

  /** The transports that have an address of the peer, sorted. */
  function AvailableTransports(net: Net, addrs: seq<Address>): seq<Key> {
    Sort(Keep(net.transports, k => |net.filter(k, addrs)| > 0))
  }

  predicate HasTransports(net: Net) {
    exists k :: k in net.transports && k != CIRCUIT
  }

  /** The keys a search goes through. */
  function SearchKeys(net: Net, addrs: seq<Address>): seq<Key> {
    var keys := AvailableTransports(net, addrs);
    if CIRCUIT in net.transports && CIRCUIT !in keys then keys + [CIRCUIT] else keys
  }

  ghost predicate InOrder(keys: seq<Key>) {
    forall i, j :: 0 <= i < j < |keys| ==> Before(keys[i], keys[j])
  }

  lemma {:induction false} LessTotal(a: Key, b: Key)
    ensures Less(a, b) || Less(b, a) || a == b
    ensures !(Less(a, b) && Less(b, a)) && !Less(a, a)
  {
    if a != "" && b != "" && a[0] == b[0] {
      LessTotal(a[1..], b[1..]);
      if a[1..] == b[1..] { assert a == [a[0]] + a[1..] == b; }
    }
    if a != "" { LessTotal(a[1..], a[1..]); }
  }

  lemma {:induction false} LessTransitive(a: Key, b: Key, c: Key)
    requires Less(a, b) && Less(b, c)
    ensures Less(a, c)
  {
    if a != "" && a[0] == b[0] && b[0] == c[0] { LessTransitive(a[1..], b[1..], c[1..]); }
  }

  /** What the order is: up to the first difference the keys agree, and there the first has ended or is smaller. */
  lemma LessIs(a: Key, b: Key)
    ensures Less(a, b) <==>
              exists n: nat :: n <= |a| && n < |b| && a[..n] == b[..n] && (n == |a| || a[n] < b[n])
  {
    if Less(a, b) { var n := LessGives(a, b); }
    if n: nat :| n <= |a| && n < |b| && a[..n] == b[..n] && (n == |a| || a[n] < b[n]) { GivesLess(a, b, n); }
  }

  lemma {:induction false} LessGives(a: Key, b: Key) returns (n: nat)
    requires Less(a, b)
    ensures n <= |a| && n < |b| && a[..n] == b[..n] && (n == |a| || a[n] < b[n])
  {
    if a == "" || a[0] < b[0] {
      n := 0;
    } else {
      var k := LessGives(a[1..], b[1..]);
      LessShift(a, b, k);
      n := k + 1;
    }
  }

  lemma {:induction false} GivesLess(a: Key, b: Key, n: nat)
    requires n <= |a| && n < |b| && a[..n] == b[..n] && (n == |a| || a[n] < b[n])
    ensures Less(a, b)
    decreases n
  {
    if n > 0 {
      assert a[..n][0] == b[..n][0];
      assert a[1..][..n - 1] == a[..n][1..] == b[..n][1..] == b[1..][..n - 1];
      GivesLess(a[1..], b[1..], n - 1);
    }
  }

  lemma LessShift(a: Key, b: Key, n: nat)
    requires a != "" && b != "" && a[0] == b[0] && n <= |a[1..]| && n < |b[1..]| && a[1..][..n] == b[1..][..n]
    requires n == |a[1..]| || a[1..][n] < b[1..][n]
    ensures n + 1 <= |a| && n + 1 < |b| && a[..n + 1] == b[..n + 1] && (n + 1 == |a| || a[n + 1] < b[n + 1])
  {
    assert a[..n + 1] == [a[0]] + a[1..][..n];
    assert b[..n + 1] == [b[0]] + b[1..][..n];
  }

  lemma BeforeTransitive(a: Key, b: Key, c: Key)
    requires Before(a, b) && Before(b, c)
    ensures Before(a, c)
  {
    if c != CIRCUIT { LessTransitive(a, b, c); }
  }

  lemma {:induction false} InsertSorts(k: Key, sorted: seq<Key>)
    requires InOrder(sorted) && k !in sorted
    ensures InOrder(Insert(k, sorted)) && multiset(Insert(k, sorted)) == multiset(sorted) + multiset{k}
  {
    if sorted == [] {
    } else if Before(k, sorted[0]) {
      forall j | 0 < j < |sorted| ensures Before(k, sorted[j]) { BeforeTransitive(k, sorted[0], sorted[j]); }
    } else {
      var rest := sorted[1..];
      assert sorted == [sorted[0]] + rest;
      LessTotal(k, sorted[0]);
      InsertSorts(k, rest);
      var r := Insert(k, rest);
      forall j | 0 <= j < |r| ensures Before(sorted[0], r[j]) {
        assert r[j] in multiset(r);
        if r[j] != k { assert r[j] in rest; }
      }
    }
  }

  lemma {:induction false} SortSorts(keys: seq<Key>)
    requires Distinct(keys)
    ensures InOrder(Sort(keys)) && multiset(Sort(keys)) == multiset(keys)
  {
    if keys != [] {
      var rest := keys[1..];
      assert keys == [keys[0]] + rest;
      SortSorts(rest);
      assert forall k :: k in Sort(rest) <==> k in multiset(Sort(rest));
      assert keys[0] !in multiset(rest);
      InsertSorts(keys[0], Sort(rest));
    }
  }

  lemma {:induction false} KeepExact(keys: seq<Key>, p: Key -> bool)
    requires Distinct(keys)
    ensures Distinct(Keep(keys, p)) && forall k :: k in Keep(keys, p) <==> k in keys && p(k)
  {
    if keys != [] {
      KeepExact(keys[1..], p);
      assert forall k :: k in keys <==> k == keys[0] || k in keys[1..];
    }
  }

  lemma SameHead(a: seq<Key>, b: seq<Key>)
    requires InOrder(a) && InOrder(b) && a != [] && b != [] && a[0] in b && b[0] in a
    ensures a[0] == b[0]
  {
    var i :| 0 <= i < |b| && b[i] == a[0];
    var j :| 0 <= j < |a| && a[j] == b[0];
    LessTotal(a[0], b[0]);
  }

  lemma SameTails(a: seq<Key>, b: seq<Key>)
    requires a != [] && b != [] && a[0] == b[0] && multiset(a) == multiset(b)
    ensures multiset(a[1..]) == multiset(b[1..])
  {
    assert a == [a[0]] + a[1..] && b == [b[0]] + b[1..];
    assert multiset(a[1..]) == multiset(a) - multiset{a[0]};
    assert multiset(b[1..]) == multiset(b) - multiset{b[0]};
  }

  /** A list in this order is the only one with its members: any sort gives the same. */
  lemma {:induction false} OrderUnique(a: seq<Key>, b: seq<Key>)
    requires InOrder(a) && InOrder(b) && multiset(a) == multiset(b)
    ensures a == b
  {
    if a == [] {
      assert |multiset(b)| == 0;
    } else {
      assert |multiset(a)| == |multiset(b)| && b != [];
      assert a[0] in multiset(b) && b[0] in multiset(a);
      SameHead(a, b);
      SameTails(a, b);
      OrderUnique(a[1..], b[1..]);
    }
  }

  /**
   * The keys of a search: each once, alphabetical with the relay last; exactly the transports that
   * have an address of the peer, and the relay whenever it is registered.
   */
  lemma KeysOfSearch(net: Net, addrs: seq<Address>)
    requires Distinct(net.transports)
    ensures var keys := SearchKeys(net, addrs);
            && InOrder(keys) && Distinct(keys)
            && (forall k :: k in keys <==> k in net.transports && (|net.filter(k, addrs)| > 0 || k == "Circuit"))
  {
    var has := k => |net.filter(k, addrs)| > 0;
    var kept := Keep(net.transports, has);
    KeepExact(net.transports, has);
    SortSorts(kept);
    var sorted := AvailableTransports(net, addrs);
    forall k ensures k in sorted <==> k in kept {
      assert k in sorted <==> k in multiset(sorted);
      assert k in kept <==> k in multiset(kept);
    }
    var keys := SearchKeys(net, addrs);
    assert InOrder(keys);
    forall i, j | 0 <= i < j < |keys| ensures keys[i] != keys[j] {
      assert Before(keys[i], keys[j]);
      LessTotal(keys[i], keys[j]);
    }
  }

  /**
   * Of two keys of a search the first is not the relay, and comes first in the alphabet unless
   * the second is the relay.
   */
  lemma KeysAlphabetical(net: Net, addrs: seq<Address>, i: nat, j: nat)
    requires Distinct(net.transports) && i < j < |SearchKeys(net, addrs)|
    ensures var a, b := SearchKeys(net, addrs)[i], SearchKeys(net, addrs)[j];
            && a != "Circuit"
            && (b == "Circuit"
                || exists n: nat :: n <= |a| && n < |b| && a[..n] == b[..n] && (n == |a| || a[n] < b[n]))
  {
    KeysOfSearch(net, addrs);
    var a, b := SearchKeys(net, addrs)[i], SearchKeys(net, addrs)[j];
    assert Before(a, b);
    LessIs(a, b);
  }

  // ---------------------------------------------------------------- which addresses

  predicate StartsWith(s: string, prefix: string) { prefix <= s }

  /** Whether an address leads back to ourselves. */
  predicate IsOurs(net: Net, a: Address) {
    exists o :: o in net.ours && StartsWith(net.destination(a), o)
  }

  function Foreign(net: Net, addrs: seq<Address>): seq<Address> {
    if addrs == [] then []
    else if IsOurs(net, addrs[0]) then Foreign(net, addrs[1..])
    else [addrs[0]] + Foreign(net, addrs[1..])
  }

  /** The addresses a transport dials: those it can handle that are not ours. */
  function Dialables(net: Net, key: Key, addrs: seq<Address>): seq<Address> {
    Foreign(net, net.filter(key, addrs))
  }

  function Attempts(key: Key, addrs: seq<Address>): (r: seq<Attempt>)
    ensures |r| == |addrs| && forall i :: 0 <= i < |r| ==> r[i] == Attempt(key, addrs[i])
  {
    seq(|addrs|, i requires 0 <= i < |addrs| => Attempt(key, addrs[i]))
  }

  /** The peer's addresses as a transport sees them: the relay gets one added. */
  function Known(key: Key, addrs: seq<Address>, relay: Address): seq<Address> {
    if key == CIRCUIT && relay !in addrs then addrs + [relay] else addrs
  }

  /** All attempts of a search, in order: a row of addresses for each transport. */
  function Flat(net: Net, keys: seq<Key>, addrs: seq<Address>, relay: Address): seq<Attempt> {
    if keys == [] then []
    else Attempts(keys[0], Dialables(net, keys[0], Known(keys[0], addrs, relay))) + Flat(net, keys[1..], addrs, relay)
  }

  // ---------------------------------------------------------------- the first success

  /** The first attempt of a list that succeeds. */
  function First(list: seq<Attempt>, reaches: Attempt -> bool): Option<Attempt> {
    if list == [] then None else if reaches(list[0]) then Some(list[0]) else First(list[1..], reaches)
  }

  /** The attempts made by trying a list from the front until one succeeds. */
  function Upto(list: seq<Attempt>, reaches: Attempt -> bool): seq<Attempt> {
    if list == [] then [] else if reaches(list[0]) then [list[0]] else [list[0]] + Upto(list[1..], reaches)
  }

  lemma {:induction false} FirstConcat(a: seq<Attempt>, b: seq<Attempt>, reaches: Attempt -> bool)
    ensures First(a + b, reaches) == if First(a, reaches).Some? then First(a, reaches) else First(b, reaches)
    ensures Upto(a + b, reaches) ==
            if First(a, reaches).Some? then Upto(a, reaches) else Upto(a, reaches) + Upto(b, reaches)
  {
    if a == [] {
      assert a + b == b;
    } else {
      assert (a + b)[1..] == a[1..] + b;
      FirstConcat(a[1..], b, reaches);
    }
  }

  /** One attempt of a list: it ends the search, or the search goes on behind it. */
  lemma RowStep(list: seq<Attempt>, i: nat, reaches: Attempt -> bool)
    requires i < |list|
    ensures if reaches(list[i]) then
              First(list[i..], reaches) == Some(list[i]) && Upto(list[i..], reaches) == [list[i]]
            else
              First(list[i..], reaches) == First(list[i + 1..], reaches)
              && Upto(list[i..], reaches) == [list[i]] + Upto(list[i + 1..], reaches)
  {
    assert list[i..][0] == list[i] && list[i..][1..] == list[i + 1..];
  }

  /** What the first success is: it succeeds, and all before it fail; there is none when all fail. */
  lemma {:induction false} FirstExact(list: seq<Attempt>, reaches: Attempt -> bool)
    ensures First(list, reaches).None? <==> forall i :: 0 <= i < |list| ==> !reaches(list[i])
    ensures First(list, reaches).None? ==> Upto(list, reaches) == list
    ensures First(list, reaches).Some? ==>
              var n := |Upto(list, reaches)|;
              && 0 < n <= |list| && Upto(list, reaches) == list[..n]
              && list[n - 1] == First(list, reaches).value && reaches(list[n - 1])
              && forall i :: 0 <= i < n - 1 ==> !reaches(list[i])
  {
    if list != [] {
      FirstExact(list[1..], reaches);
      if !reaches(list[0]) {
        assert list == [list[0]] + list[1..];
        var n := |Upto(list, reaches)|;
        if First(list, reaches).Some? {
          assert Upto(list, reaches) == [list[0]] + list[1..][..n - 1] == list[..n];
          forall i | 0 <= i < n - 1 ensures !reaches(list[i]) { if i > 0 { assert list[i] == list[1..][i - 1]; } }
        }
      }
    }
  }

  // ---------------------------------------------------------------- the loops

  class Token {
    var cancel: bool

    constructor () ensures !cancel { cancel := false; }
  }

  datatype Work = Failed | Cancelled | Worked(at: Attempt)

  /** The queue of dials to one peer. */
  class WorkQueue {
    const limit: nat

    constructor (limit: nat) ensures this.limit == limit { this.limit := limit; }

    /** One dial; a success claims the token, and one that comes after another success is dropped. */
    method DoWork(net: Net, at: Attempt, token: Token) returns (r: Work)
      modifies token
      ensures r == if !net.reaches(at) then Failed else if old(token.cancel) then Cancelled else Worked(at)
      ensures token.cancel == (old(token.cancel) || net.reaches(at))
    {
      if !net.reaches(at) { return Failed; }
      if token.cancel { return Cancelled; }
      token.cancel := true;
      return Worked(at);
    }
  }

  class LimitDialer {
    const perPeerLimit: nat
    var queues: map<PeerId, WorkQueue>
    ghost var tried: seq<Attempt>     // every dial made, in order

    constructor (perPeerLimit: nat)
      ensures this.perPeerLimit == perPeerLimit && queues == map[] && tried == []
    {
      this.perPeerLimit, queues, tried := perPeerLimit, map[], [];
    }

    /** Dials one address through the queue of its peer, which is made on first use. */
    method DialSingle(net: Net, peer: PeerId, at: Attempt, token: Token) returns (r: Work)
      modifies this, token
      ensures r == if !net.reaches(at) then Failed else if old(token.cancel) then Cancelled else Worked(at)
      ensures token.cancel == (old(token.cancel) || net.reaches(at))
      ensures queues.Keys == old(queues).Keys + {peer} && forall p :: p in old(queues) ==> queues[p] == old(queues)[p]
      ensures tried == old(tried) + [at]
    {
      if peer !in queues {
        var q := new WorkQueue(perPeerLimit);
        queues := queues[peer := q];
      }
      tried := tried + [at];
      r := queues[peer].DoWork(net, at, token);
    }

    /**
     * Dials addresses one after the other until one succeeds; `errors` holds the failures. No
     * connection is ever dropped: the token is not claimed before the one success.
     */
    method DialMany(net: Net, peer: PeerId, key: Key, addrs: seq<Address>)
      returns (r: Option<Attempt>, errors: seq<Attempt>)
      modifies this
      ensures var row := Attempts(key, addrs);
              && r == First(row, net.reaches)
              && tried == old(tried) + Upto(row, net.reaches)
              && errors + (if r.Some? then [r.value] else []) == Upto(row, net.reaches)
    {
      var token := new Token();
      errors := [];
      ghost var row := Attempts(key, addrs);
      for i := 0 to |addrs|
        invariant !token.cancel && fresh(token) && |errors| == i
        invariant tried == old(tried) + errors
        invariant First(row, net.reaches) == First(row[i..], net.reaches)
        invariant Upto(row, net.reaches) == errors + Upto(row[i..], net.reaches)
      {
        var at := Attempt(key, addrs[i]);
        RowStep(row, i, net.reaches);
        var work := DialSingle(net, peer, at, token);
        if work.Worked? { return Some(at), errors; }
        Associates(errors, [at], Upto(row[i + 1..], net.reaches));
        Associates(old(tried), errors, [at]);
        errors := errors + [at];
      }
      r := None;
    }
  }

  datatype Outcome = Connected(at: Attempt) | NoTransports | Exhausted(circuit: bool)

  /** What the search comes to, as one pass over the flat list. */
  function Search(net: Net, addrs: seq<Address>, relay: Address): Outcome {
    if !HasTransports(net) then NoTransports
    else
      match First(Flat(net, SearchKeys(net, addrs), addrs, relay), net.reaches)
      case Some(at) => Connected(at)
      case None => Exhausted(CIRCUIT in net.transports)
  }

  /** The first row of a flat list, and how it splits the search. */
  lemma FlatStep(net: Net, keys: seq<Key>, addrs: seq<Address>, relay: Address) returns (row: seq<Attempt>)
    requires keys != []
    ensures row == Attempts(keys[0], Dialables(net, keys[0], Known(keys[0], addrs, relay)))
    ensures var all, rest := Flat(net, keys, addrs, relay), Flat(net, keys[1..], addrs, relay);
            if First(row, net.reaches).Some? then
              First(all, net.reaches) == First(row, net.reaches) && Upto(all, net.reaches) == Upto(row, net.reaches)
            else
              First(all, net.reaches) == First(rest, net.reaches)
              && Upto(all, net.reaches) == Upto(row, net.reaches) + Upto(rest, net.reaches)
  {
    row := Attempts(keys[0], Dialables(net, keys[0], Known(keys[0], addrs, relay)));
    FirstConcat(row, Flat(net, keys[1..], addrs, relay), net.reaches);
  }

  /** Tries one transport; the relay first adds an address to what is known of the peer. */
  method TryTransport(net: Net, dialer: LimitDialer, peer: PeerId, key: Key, addrs: seq<Address>, relay: Address)
    returns (found: Option<Attempt>, known: seq<Address>)
    modifies dialer
    ensures known == Known(key, addrs, relay)
    ensures var row := Attempts(key, Dialables(net, key, known));
            found == First(row, net.reaches) && dialer.tried == old(dialer.tried) + Upto(row, net.reaches)
  {
    known := addrs;
    if key == CIRCUIT && relay !in known { known := known + [relay]; }
    var errors;
    found, errors := dialer.DialMany(net, peer, key, Dialables(net, key, known));
  }

  /** Tries transports one after the other until one is reached. */
  method TryEach(net: Net, dialer: LimitDialer, peer: PeerId, keys: seq<Key>, their: seq<Address>, relay: Address)
    returns (found: Option<Attempt>)
    requires InOrder(keys)
    modifies dialer
    ensures var all := Flat(net, keys, their, relay);
            found == First(all, net.reaches) && dialer.tried == old(dialer.tried) + Upto(all, net.reaches)
  {
    var tKeys, addrs := keys, their;
    ghost var all := Flat(net, keys, their, relay);
    while |tKeys| > 0
      invariant InOrder(tKeys) && (tKeys == [] || addrs == their)
      invariant First(all, net.reaches) == First(Flat(net, tKeys, their, relay), net.reaches)
      invariant dialer.tried + Upto(Flat(net, tKeys, their, relay), net.reaches)
                  == old(dialer.tried) + Upto(all, net.reaches)
    {
      ghost var row := FlatStep(net, tKeys, their, relay);
      LastOfAll(tKeys);
      ghost var before := dialer.tried;
      found, addrs := TryTransport(net, dialer, peer, tKeys[0], addrs, relay);
      tKeys := tKeys[1..];
      if found.Some? { return; }
      Associates(before, Upto(row, net.reaches), Upto(Flat(net, tKeys, their, relay), net.reaches));
    }
    found := None;
  }

  /** The relay is the last key. */
  lemma LastOfAll(keys: seq<Key>)
    requires InOrder(keys) && keys != []
    ensures keys[0] == CIRCUIT ==> keys[1..] == []
  {
    assert |keys| > 1 ==> Before(keys[0], keys[1]);
  }

  /**
   * Tries every transport, and with it every address, until one attempt succeeds. The nested loops
   * come to one pass over the flat list of all attempts.
   */
  method OnDialing(net: Net, dialer: LimitDialer, peer: PeerId, their: seq<Address>, relay: Address)
    returns (r: Outcome)
    requires Distinct(net.transports)
    modifies dialer
    ensures r == Search(net, their, relay)
    ensures dialer.tried == old(dialer.tried) +
            if r.NoTransports? then [] else Upto(Flat(net, SearchKeys(net, their), their, relay), net.reaches)
  {
    if !HasTransports(net) { return NoTransports; }
    KeysOfSearch(net, their);
    var found := TryEach(net, dialer, peer, SearchKeys(net, their), their, relay);
    match found
    case Some(at) => r := Connected(at);
    case None => r := Exhausted(CIRCUIT in net.transports);
  }

  /**
   * When the search fails: no transport but the relay is registered, in which case the relay is not tried
   * either; or no address is reached that a searched transport can handle and that does not lead back to us.
   */
  lemma SearchFails(net: Net, addrs: seq<Address>, relay: Address)
    ensures var r := Search(net, addrs, relay);
            && (r.NoTransports? <==> forall k :: k in net.transports ==> k == "Circuit")
            && (r.Exhausted? ==> r.circuit == ("Circuit" in net.transports))
            && (!r.Connected? <==>
                  || (forall k :: k in net.transports ==> k == "Circuit")
                  || (forall k, a ::
                        && k in net.transports && (|net.filter(k, addrs)| > 0 || k == "Circuit")
                        && a in net.filter(k, if k == "Circuit" && relay !in addrs then addrs + [relay] else addrs)
                        && (forall o :: o in net.ours ==> !(o <= net.destination(a))) ==>
                          !net.reaches(Attempt(k, a))))
  {
    var keys := SearchKeys(net, addrs);
    var all := Flat(net, keys, addrs, relay);
    FirstExact(all, net.reaches);
    forall k, a ensures Attempt(k, a) in all <==> Tries(net, addrs, relay, k, a) {
      TriesExactly(net, addrs, relay, k, a);
    }
    assert !HasTransports(net) <==> forall k :: k in net.transports ==> k == "Circuit";
    assert First(all, net.reaches).None? <==>
      forall k, a :: Tries(net, addrs, relay, k, a) ==> !net.reaches(Attempt(k, a)) by {
      forall i | 0 <= i < |all| ensures Tries(net, addrs, relay, all[i].key, all[i].addr) {
        assert all[i] == Attempt(all[i].key, all[i].addr) && all[i] in all;
      }
    }
  }

  /** The search tries the address over the transport, unless it has connected before. */
  ghost predicate Tries(net: Net, addrs: seq<Address>, relay: Address, k: Key, a: Address) {
    && k in net.transports && (|net.filter(k, addrs)| > 0 || k == "Circuit")
    && a in net.filter(k, if k == "Circuit" && relay !in addrs then addrs + [relay] else addrs)
    && (forall o :: o in net.ours ==> !(o <= net.destination(a)))
  }

  /**
   * Exactly what is tried: over a registered transport that has an address of the peer, and over the relay, the
   * addresses that the transport can handle and that do not lead back to us.
   */
  lemma TriesExactly(net: Net, addrs: seq<Address>, relay: Address, k: Key, a: Address)
    ensures Attempt(k, a) in Flat(net, SearchKeys(net, addrs), addrs, relay) <==>
            && k in net.transports && (|net.filter(k, addrs)| > 0 || k == "Circuit")
            && a in net.filter(k, if k == "Circuit" && relay !in addrs then addrs + [relay] else addrs)
            && (forall o :: o in net.ours ==> !(o <= net.destination(a)))
  {
    KeysAre(net, addrs, k);
    FlatExact(net, SearchKeys(net, addrs), addrs, relay);
    var its := net.filter(k, Known(k, addrs, relay));
    var idx := ForeignKeeps(net, its);
    PicksMembers(net, its, Foreign(net, its), idx, a);
  }

  lemma KeysAre(net: Net, addrs: seq<Address>, k: Key)
    ensures k in SearchKeys(net, addrs) <==> k in net.transports && (|net.filter(k, addrs)| > 0 || k == "Circuit")
  {
    KeepHas(net.transports, k => |net.filter(k, addrs)| > 0, k);
    SortHas(Keep(net.transports, k => |net.filter(k, addrs)| > 0), k);
  }

  lemma {:induction false} KeepHas(keys: seq<Key>, p: Key -> bool, k: Key)
    ensures k in Keep(keys, p) <==> k in keys && p(k)
  {
    if keys != [] { KeepHas(keys[1..], p, k); }
  }

  lemma {:induction false} InsertHas(x: Key, sorted: seq<Key>, k: Key)
    ensures k in Insert(x, sorted) <==> k == x || k in sorted
  {
    if sorted != [] && !Before(x, sorted[0]) { InsertHas(x, sorted[1..], k); }
  }

  lemma {:induction false} SortHas(keys: seq<Key>, k: Key)
    ensures k in Sort(keys) <==> k in keys
  {
    if keys != [] {
      SortHas(keys[1..], k);
      InsertHas(keys[0], Sort(keys[1..]), k);
    }
  }

  /** The address does not lead back to us. */
  ghost predicate LeadsAway(net: Net, a: Address) {
    forall o :: o in net.ours ==> !(o <= net.destination(a))
  }

  /** The row picks the addresses that do not lead back to us, in order, each as often as it is listed. */
  ghost predicate Picks(net: Net, its: seq<Address>, row: seq<Address>, idx: seq<nat>) {
    && |idx| == |row| && (forall i :: 0 <= i < |idx| ==> idx[i] < |its| && row[i] == its[idx[i]])
    && (forall i, j :: 0 <= i < j < |idx| ==> idx[i] < idx[j])
    && (forall n :: 0 <= n < |its| ==> (n in idx <==> LeadsAway(net, its[n])))
  }

  lemma PicksMembers(net: Net, its: seq<Address>, row: seq<Address>, idx: seq<nat>, a: Address)
    requires Picks(net, its, row, idx)
    ensures a in row <==> a in its && LeadsAway(net, a)
  {
    if a in its && LeadsAway(net, a) {
      var n :| 0 <= n < |its| && its[n] == a;
      var i :| 0 <= i < |idx| && idx[i] == n;
      assert row[i] == a;
    }
    if a in row {
      var i :| 0 <= i < |row| && row[i] == a;
      assert idx[i] in idx;
    }
  }

  /** Positions in a list that has one more element in front. */
  function Later(idx: seq<nat>): (r: seq<nat>)
    ensures |r| == |idx| && forall i :: 0 <= i < |r| ==> r[i] == idx[i] + 1
  {
    seq(|idx|, i requires 0 <= i < |idx| => idx[i] + 1)
  }

  lemma LaterHas(idx: seq<nat>, n: nat)
    ensures n in Later(idx) <==> n > 0 && n - 1 in idx
  {
    if n > 0 && n - 1 in idx {
      var i :| 0 <= i < |idx| && idx[i] == n - 1;
      assert Later(idx)[i] == n;
    }
  }

  /** One more address in front that leads back to us. */
  lemma PicksSkip(net: Net, its: seq<Address>, row: seq<Address>, idx: seq<nat>)
    requires its != [] && Picks(net, its[1..], row, idx) && !LeadsAway(net, its[0])
    ensures Picks(net, its, row, Later(idx))
  {
    forall n | 0 <= n < |its| ensures n in Later(idx) <==> LeadsAway(net, its[n]) {
      LaterHas(idx, n);
      if n > 0 { assert its[n] == its[1..][n - 1]; }
    }
  }

  lemma FirstOrLater(idx: seq<nat>, n: nat)
    ensures n in [0] + Later(idx) <==> n == 0 || (n > 0 && n - 1 in idx)
  {
    LaterHas(idx, n);
    assert ([0] + Later(idx))[0] == 0;
  }

  /** One more address in front that does not. */
  lemma PicksTake(net: Net, its: seq<Address>, row: seq<Address>, idx: seq<nat>)
    requires its != [] && Picks(net, its[1..], row, idx) && LeadsAway(net, its[0])
    ensures Picks(net, its, [its[0]] + row, [0] + Later(idx))
  {
    forall n | 0 <= n < |its| ensures n in [0] + Later(idx) <==> LeadsAway(net, its[n]) {
      FirstOrLater(idx, n);
      if n > 0 { assert its[n] == its[1..][n - 1]; }
    }
    PicksOrder(its, row, idx);
  }

  lemma PicksOrder(its: seq<Address>, row: seq<Address>, idx: seq<nat>)
    requires its != [] && |idx| == |row|
             && forall i :: 0 <= i < |idx| ==> idx[i] < |its| - 1 && row[i] == its[1..][idx[i]]
    requires forall i, j :: 0 <= i < j < |idx| ==> idx[i] < idx[j]
    ensures var all, chosen := [0] + Later(idx), [its[0]] + row;
            && (forall i :: 0 <= i < |all| ==> all[i] < |its| && chosen[i] == its[all[i]])
            && (forall i, j :: 0 <= i < j < |all| ==> all[i] < all[j])
  {
  }

  lemma {:induction false} ForeignKeeps(net: Net, addrs: seq<Address>) returns (idx: seq<nat>)
    ensures Picks(net, addrs, Foreign(net, addrs), idx)
  {
    if addrs == [] {
      idx := [];
    } else {
      var rest := ForeignKeeps(net, addrs[1..]);
      if IsOurs(net, addrs[0]) {
        PicksSkip(net, addrs, Foreign(net, addrs[1..]), rest);
        idx := Later(rest);
      } else {
        PicksTake(net, addrs, Foreign(net, addrs[1..]), rest);
        idx := [0] + Later(rest);
      }
    }
  }

  /** The row stands in the list from `start` on, and all attempts for its transport are in it. */
  ghost predicate StandsAt(all: seq<Attempt>, start: nat, row: seq<Attempt>, k: Key) {
    && start + |row| <= |all|
    && (forall i :: 0 <= i < |row| ==> all[start + i] == row[i])
    && (forall p :: 0 <= p < |all| && !(start <= p < start + |row|) ==> all[p].key != k)
  }

  lemma StandsBehind(front: seq<Attempt>, rest: seq<Attempt>, start: nat, row: seq<Attempt>, k: Key)
    requires StandsAt(rest, start, row, k) && forall i :: 0 <= i < |front| ==> front[i].key != k
    ensures StandsAt(front + rest, |front| + start, row, k)
  {
    var all := front + rest;
    forall p | 0 <= p < |all| && !(|front| + start <= p < |front| + start + |row|) ensures all[p].key != k {
      if p >= |front| { assert all[p] == rest[p - |front|]; }
    }
    forall i | 0 <= i < |row| ensures all[|front| + start + i] == row[i] {
      assert all[|front| + start + i] == rest[start + i];
    }
  }

  lemma StandsInFront(row: seq<Attempt>, rest: seq<Attempt>, k: Key)
    requires forall p :: 0 <= p < |rest| ==> rest[p].key != k
    ensures StandsAt(row + rest, 0, row, k)
  {
    var all := row + rest;
    forall p | |row| <= p < |all| ensures all[p].key != k { assert all[p] == rest[p - |row|]; }
  }

  /** The attempts of one transport. */
  function RowFor(net: Net, k: Key, addrs: seq<Address>, relay: Address): seq<Attempt> {
    Attempts(k, Dialables(net, k, Known(k, addrs, relay)))
  }

  function Joined(rows: seq<seq<Attempt>>): seq<Attempt> {
    if rows == [] then [] else rows[0] + Joined(rows[1..])
  }

  /** Each row is for its own key. */
  ghost predicate RowsFor(rows: seq<seq<Attempt>>, keys: seq<Key>) {
    |rows| == |keys| && forall i, p :: 0 <= i < |rows| && 0 <= p < |rows[i]| ==> rows[i][p].key == keys[i]
  }

  lemma TailRows(rows: seq<seq<Attempt>>, keys: seq<Key>)
    requires rows != [] && RowsFor(rows, keys)
    ensures RowsFor(rows[1..], keys[1..])
  {
    forall i, p | 0 <= i < |rows[1..]| && 0 <= p < |rows[1..][i]| ensures rows[1..][i][p].key == keys[1..][i] {
      assert rows[1..][i] == rows[i + 1];
    }
  }

  lemma {:induction false} JoinedKeys(rows: seq<seq<Attempt>>, keys: seq<Key>, p: nat)
    requires RowsFor(rows, keys) && p < |Joined(rows)|
    ensures Joined(rows)[p].key in keys
  {
    if p < |rows[0]| {
      assert rows[0][p].key == keys[0];
    } else {
      TailRows(rows, keys);
      JoinedKeys(rows[1..], keys[1..], p - |rows[0]|);
    }
  }

  lemma {:induction false} JoinedStands(rows: seq<seq<Attempt>>, keys: seq<Key>, n: nat) returns (start: nat)
    requires RowsFor(rows, keys) && Distinct(keys) && n < |rows|
    ensures StandsAt(Joined(rows), start, rows[n], keys[n])
  {
    TailRows(rows, keys);
    var rest := Joined(rows[1..]);
    if n == 0 {
      start := 0;
      forall p | 0 <= p < |rest| ensures rest[p].key != keys[0] { JoinedKeys(rows[1..], keys[1..], p); }
      StandsInFront(rows[0], rest, keys[0]);
    } else {
      var s := JoinedStands(rows[1..], keys[1..], n - 1);
      StandsBehind(rows[0], rest, s, rows[n], keys[n]);
      start := |rows[0]| + s;
    }
  }

  /** The flat list joins the rows of the keys. */
  lemma {:induction false} FlatJoins(net: Net, keys: seq<Key>, addrs: seq<Address>, relay: Address)
    returns (rows: seq<seq<Attempt>>)
    ensures RowsFor(rows, keys) && Flat(net, keys, addrs, relay) == Joined(rows)
    ensures forall i :: 0 <= i < |keys| ==> rows[i] == RowFor(net, keys[i], addrs, relay)
  {
    if keys == [] {
      rows := [];
    } else {
      var rest := FlatJoins(net, keys[1..], addrs, relay);
      rows := [RowFor(net, keys[0], addrs, relay)] + rest;
      assert rows[1..] == rest;
    }
  }

  /**
   * The attempts of one transport: they stand together in the flat list, and are its addresses in the order the
   * transport lists them, without those that lead back to us and each as often as it is listed.
   */
  lemma RowOf(net: Net, keys: seq<Key>, addrs: seq<Address>, relay: Address, k: Key)
    returns (all: seq<Attempt>, start: nat, row: seq<Attempt>, found: seq<Address>, idx: seq<nat>)
    requires Distinct(keys) && k in keys
    ensures all == Flat(net, keys, addrs, relay) && StandsAt(all, start, row, k)
    ensures |row| == |found| && forall i :: 0 <= i < |row| ==> row[i] == Attempt(k, found[i])
    ensures Picks(net, net.filter(k, if k == "Circuit" && relay !in addrs then addrs + [relay] else addrs), found, idx)
  {
    var rows := FlatJoins(net, keys, addrs, relay);
    var n :| 0 <= n < |keys| && keys[n] == k;
    start := JoinedStands(rows, keys, n);
    all, row := Joined(rows), rows[n];
    idx := ForeignKeeps(net, net.filter(k, Known(k, addrs, relay)));
    found := Dialables(net, k, Known(k, addrs, relay));
  }

  /** The flat list holds each dialable address of each of its transports, and nothing else. */
  lemma {:induction false} FlatExact(net: Net, keys: seq<Key>, addrs: seq<Address>, relay: Address)
    ensures forall at :: at in Flat(net, keys, addrs, relay) <==>
              at.key in keys && at.addr in Dialables(net, at.key, Known(at.key, addrs, relay))
  {
    if keys != [] {
      FlatExact(net, keys[1..], addrs, relay);
      var row := Dialables(net, keys[0], Known(keys[0], addrs, relay));
      forall at ensures at in Attempts(keys[0], row) <==> at.key == keys[0] && at.addr in row {
        if at.key == keys[0] && at.addr in row {
          var i :| 0 <= i < |row| && row[i] == at.addr;
          assert Attempts(keys[0], row)[i] == at;
        }
      }
      assert forall k :: k in keys <==> k == keys[0] || k in keys[1..];
    }
  }

  /** The attempts behind the first row are for other transports. */
  lemma RestIsOthers(net: Net, keys: seq<Key>, addrs: seq<Address>, relay: Address, n: nat)
    requires Distinct(keys) && keys != [] && n < |Flat(net, keys[1..], addrs, relay)|
    ensures Flat(net, keys[1..], addrs, relay)[n].key != keys[0]
  {
    FlatExact(net, keys[1..], addrs, relay);
    var at := Flat(net, keys[1..], addrs, relay)[n];
    assert at in Flat(net, keys[1..], addrs, relay);
    assert at.key in keys[1..];
  }

  /** Each transport is tried at most once: its attempts are all in one stretch of the flat list. */
  lemma {:induction false} OneStretch(net: Net, keys: seq<Key>, addrs: seq<Address>, relay: Address, i: nat, j: nat,
                                      k: nat)
    requires Distinct(keys) && i <= j <= k < |Flat(net, keys, addrs, relay)|
    requires Flat(net, keys, addrs, relay)[i].key == Flat(net, keys, addrs, relay)[k].key
    ensures Flat(net, keys, addrs, relay)[i].key == Flat(net, keys, addrs, relay)[j].key
  {
    var row := Attempts(keys[0], Dialables(net, keys[0], Known(keys[0], addrs, relay)));
    if i >= |row| {
      OneStretch(net, keys[1..], addrs, relay, i - |row|, j - |row|, k - |row|);
    } else if k >= |row| {
      RestIsOthers(net, keys, addrs, relay, k - |row|);
    }
  }
}

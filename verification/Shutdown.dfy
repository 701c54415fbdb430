/** The manager's stop: everything is drained, every request is answered, and nothing restarts. */
module Shutdown {
  import opened Basics
  import opened Fsm
  import opened Connection
  import opened Scheduler
  import opened Turns
  import opened Slots
  import opened SafeTurns

  /** The answers given to every request pending in the queues of `order`, queue by queue. */
  function AllAborted(w: World, order: seq<PeerId>): seq<Entry>
    requires Wf(w) && forall i :: 0 <= i < |order| ==> order[i] in w.table
  {
    if order == [] then []
    else AbortEntries(order[0], w.queues[w.table[order[0]]].pending) + AllAborted(w, order[1..])
  }

  function Emptied(d: DialQueue): DialQueue { d.(pending := [], running := false) }

  /** With the manager stopped, aborting a queue sets off nothing else. */
  lemma AbortStopped(w: World, q: nat, env: Env)
    requires Wf(w) && !w.running && q < |w.queues|
    ensures var d := w.queues[q];
            Exec(w, TAbort(q), env) ==
            SetQueue(w, q, Emptied(d)).(dialing := if d.running then w.dialing - {d.id} else w.dialing,
                                        log := w.log + AbortEntries(d.id, d.pending))
  {
    var w1, t1 := Unfold(w, TAbort(q), env);
    var w2, t2 := Unfold(w1, TStop(q), env);
    if t2.Some? {
      var w3, t3 := Unfold(w2, TRun, env);
    }
  }

  /** What discarding the queues of `order`, one after the other, comes to. */
  ghost predicate Discarded(w: World, order: seq<PeerId>, r: World) {
    && r == w.(queues := r.queues, table := r.table, dialing := r.dialing, log := r.log)
    && (forall id :: id in r.table <==> id in w.table && id !in order)
    && (forall id :: id in r.dialing ==> id in w.dialing)
    && (forall id :: id in order && id in w.table && w.table[id] < |w.queues| && w.queues[w.table[id]].running ==>
          id !in r.dialing)
    && |r.queues| == |w.queues|
    && (forall q :: 0 <= q < |w.queues| ==>
          r.queues[q] == if w.queues[q].id in order && Attached(w, q) then Emptied(w.queues[q]) else w.queues[q])
  }

  /** One queue discarded, and then the others. */
  lemma DiscardedStep(w: World, w1: World, order: seq<PeerId>, r: World)
    requires Wf(w) && order != [] && Distinct(order) && order[0] in w.table
    requires var q := w.table[order[0]];
             w1 == w.(queues := w.queues[q := Emptied(w.queues[q])], table := w.table - {order[0]}, log := w1.log,
                      dialing := if w.queues[q].running then w.dialing - {order[0]} else w.dialing)
    requires Discarded(w1, order[1..], r)
    ensures Discarded(w, order, r)
  {
    var id := order[0];
    var q := w.table[id];
    assert forall x :: x in order <==> x == id || x in order[1..];
    assert id !in order[1..];
    DiscardedQueues(w, w1, order);
    forall x | x in order && x in w.table && w.table[x] < |w.queues| && w.queues[w.table[x]].running
      ensures x !in r.dialing
    {
      if x != id { assert x in order[1..] && x in w1.table && w1.table[x] != q; }
    }
  }

  /** The first queue discarded, with the manager stopped. */
  lemma DiscardFirst(w: World, order: seq<PeerId>, env: Env) returns (w1: World)
    requires Wf(w) && !w.running && order != [] && Distinct(order)
    requires forall i :: 0 <= i < |order| ==> order[i] in w.table
    ensures w1 == Discard(w, order[0], env) && Wf(w1) && !w1.running
    ensures DiscardAll(w, order, env) == DiscardAll(w1, order[1..], env)
    ensures var q := w.table[order[0]];
            w1 == w.(queues := w.queues[q := Emptied(w.queues[q])], table := w.table - {order[0]},
                     log := w.log + AbortEntries(order[0], w.queues[q].pending),
                     dialing := if w.queues[q].running then w.dialing - {order[0]} else w.dialing)
    ensures Distinct(order[1..]) && forall i :: 0 <= i < |order[1..]| ==> order[1..][i] in w1.table
    ensures AllAborted(w, order[1..]) == AllAborted(w1, order[1..])
  {
    var q := w.table[order[0]];
    AbortStopped(w, q, env);
    w1 := Discard(w, order[0], env);
    forall i | 0 <= i < |order[1..]|
      ensures order[1..][i] in w1.table && w1.table[order[1..][i]] == w.table[order[1..][i]]
      ensures w.table[order[1..][i]] != q
    {
      assert order[1..][i] == order[i + 1];
    }
    SameAborted(w, w1, order[1..]);
  }

  lemma {:induction false} DiscardAllStopped(w: World, order: seq<PeerId>, env: Env)
    requires Wf(w) && !w.running && Distinct(order) && forall i :: 0 <= i < |order| ==> order[i] in w.table
    ensures Discarded(w, order, DiscardAll(w, order, env))
    decreases |order|
  {
    if order == [] {
      assert DiscardAll(w, order, env) == w;
    } else {
      var w1 := DiscardFirst(w, order, env);
      DiscardAllStopped(w1, order[1..], env);
      var r := DiscardAll(w1, order[1..], env);
      DiscardedStep(w, w1, order, r);
    }
  }

  lemma {:induction false} AnswersAll(w: World, order: seq<PeerId>, env: Env)
    requires Wf(w) && !w.running && Distinct(order) && forall i :: 0 <= i < |order| ==> order[i] in w.table
    ensures DiscardAll(w, order, env).log == w.log + AllAborted(w, order)
    decreases |order|
  {
    if order != [] {
      var w1 := DiscardFirst(w, order, env);
      AnswersAll(w1, order[1..], env);
      var first, rest := AbortEntries(order[0], w.queues[w.table[order[0]]].pending), AllAborted(w, order[1..]);
      assert w1.log == w.log + first;
      Associates(w.log, first, rest);
    } else {
      Associates(w.log, [], []);
    }
  }

  lemma SameAborted(w: World, w1: World, order: seq<PeerId>)
    requires Wf(w) && Wf(w1)
    requires forall i :: 0 <= i < |order| ==>
               order[i] in w.table && order[i] in w1.table && w.table[order[i]] == w1.table[order[i]]
    requires forall i :: 0 <= i < |order| ==>
               w.queues[w.table[order[i]]].pending == w1.queues[w1.table[order[i]]].pending
    ensures AllAborted(w, order) == AllAborted(w1, order)
  {
    if order != [] {
      assert forall i :: 0 <= i < |order[1..]| ==> order[1..][i] == order[i + 1];
      SameAborted(w, w1, order[1..]);
    }
  }

  lemma DiscardedQueues(w: World, w1: World, order: seq<PeerId>)
    requires Wf(w) && order != [] && Distinct(order) && order[0] in w.table && |w1.queues| == |w.queues|
    requires w1.table == w.table - {order[0]}
    requires w1.queues == w.queues[w.table[order[0]] := Emptied(w.queues[w.table[order[0]]])]
    ensures forall q :: 0 <= q < |w.queues| ==>
              (if w1.queues[q].id in order[1..] && Attached(w1, q) then Emptied(w1.queues[q]) else w1.queues[q]) ==
              (if w.queues[q].id in order && Attached(w, q) then Emptied(w.queues[q]) else w.queues[q])
  {
    assert order == [order[0]] + order[1..];
  }

  /**
   * From any safe state, stopping empties the three sets and the table, leaves every queue that ever
   * existed without requests and stopped, answers exactly the pending requests with an abort and
   * nothing else, and touches no connection.
   */
  lemma StopDrains(w: World, order: seq<PeerId>, env: Env)
    requires Safe(w, None) && Lists(order, w.table)
    ensures var r := StopManager(w, order, env);
            && !r.running && r.waiting == [] && r.cold == [] && r.dialing == {} && r.table == map[]
            && |r.queues| == |w.queues| && (forall q :: 0 <= q < |r.queues| ==> Quiet(r, q))
            && r.log == w.log + AllAborted(w, order)
            && r.conns == w.conns && r.tracked == w.tracked && r.cfg == w.cfg && r.popped == w.popped
  {
    var w1 := w.(running := false, waiting := [], cold := []);
    SameWf(w, w1);
    DiscardAllStopped(w1, order, env);
    AnswersAll(w1, order, env);
    SameAborted(w, w1, order);
    var r := StopManager(w, order, env);
    forall q | 0 <= q < |r.queues| ensures Quiet(r, q) {
      if w.queues[q].running || w.queues[q].pending != [] {
        assert Attached(w, q);
        assert w.queues[q].id in order;
      }
      assert Attached(w1, q) == Attached(w, q);
    }
    assert forall id :: id in w.dialing ==> id in order && w.queues[w.table[id]].running;
    assert r.dialing == {};
    assert forall id :: id !in r.table;
    assert r.table == map[];
  }

  lemma StopKeepsSafe(w: World, order: seq<PeerId>, env: Env)
    requires Safe(w, None) && Lists(order, w.table)
    ensures Safe(StopManager(w, order, env), None)
  {
    StopDrains(w, order, env);
    var r := StopManager(w, order, env);
    forall c | 0 <= c < |r.conns| ensures ConnOk(r.conns[c]) && (c in r.tracked <==> r.conns[c].state != Disconnected) {
      assert ConnOk(w.conns[c]);
    }
    NothingLeft(r);
  }

  lemma NothingLeft(r: World)
    requires forall q :: 0 <= q < |r.queues| ==> Quiet(r, q)
    ensures RunningOk(r, None) && PendingOk(r, None)
  {
    assert forall q {:trigger r.queues[q]} :: 0 <= q < |r.queues| ==> Quiet(r, q);
  }
}

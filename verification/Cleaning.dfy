/** What the clean timer deletes and what it leaves, in the terms of the queues and the log alone. */
module Cleaning {
  import opened Basics
  import opened Fsm
  import opened Connection
  import opened Scheduler
  import opened Turns
  import opened Slots
  import opened SafeTurns
  import opened Spared
  import opened Runs

  /** Which queues go: those denied for good, and those neither denied nor running nor used by a connected peer. */
  predicate Goes(d: DialQueue, connected: bool) {
    d.denial == Forever || (d.denial == NotDenied && !d.running && d.pending == [] && !connected)
  }

  /** No queue denied for good is running. */
  ghost predicate Halted(w: World) {
    TableOk(w) && forall id :: id in w.table && w.queues[w.table[id]].denial == Forever ==>
      !w.queues[w.table[id]].running
  }

  /** Some queues have gone, with their requests aborted, and all else is as before. */
  ghost predicate Pruned(w: World, r: World) {
    && Wf(w) && Wf(r) && r == w.(table := r.table, queues := r.queues, log := r.log)
    && |r.queues| == |w.queues|
    && (forall id :: id in r.table ==> id in w.table && r.table[id] == w.table[id])
    && (forall id :: id in r.table ==> r.queues[r.table[id]] == w.queues[w.table[id]])
    && w.log <= r.log
    && (forall i :: |w.log| <= i < |r.log| ==>
          r.log[i].AbortedDial? && r.log[i].id in w.table && r.log[i].id !in r.table
          && r.log[i].req in w.queues[w.table[r.log[i].id]].pending)
  }

  lemma PrunedTwice(w: World, m: World, r: World)
    requires Pruned(w, m) && Pruned(m, r)
    ensures Pruned(w, r)
  {
    forall i | |w.log| <= i < |r.log|
      ensures r.log[i].AbortedDial? && r.log[i].id in w.table && r.log[i].id !in r.table
      ensures r.log[i].req in w.queues[w.table[r.log[i].id]].pending
    {
      if i < |m.log| { assert r.log[i] == m.log[i]; }
    }
  }

  /** Discarding a queue that does not run. */
  lemma DiscardPrunes(w: World, x: PeerId, env: Env) returns (r: World)
    requires Wf(w) && x in w.table && !w.queues[w.table[x]].running
    ensures r == Discard(w, x, env) && Pruned(w, r) && r.table == w.table - {x}
  {
    var q := w.table[x];
    var a, t1 := Unfold(w, TAbort(q), env);
    var b, t2 := Unfold(a, TStop(q), env);
    r := Discard(w, x, env);
    assert r == Drop(a, x);
    AbortPrunes(w, x, r);
  }

  lemma AbortPrunes(w: World, x: PeerId, r: World)
    requires Wf(w) && x in w.table && Wf(r)
    requires r == Drop(AbortQueue(w, w.table[x]).0, x)
    ensures Pruned(w, r)
  {
    var d := w.queues[w.table[x]];
    forall id | id in r.table ensures r.queues[r.table[id]] == w.queues[w.table[id]] { TableApart(w, x, id); }
    forall i | |w.log| <= i < |r.log|
      ensures r.log[i].AbortedDial? && r.log[i].id == x && r.log[i].req in d.pending
    {
      assert r.log[i] == AbortEntries(d.id, d.pending)[i - |w.log|];
    }
  }

  lemma {:induction false} CleanPrunes(w: World, order: seq<PeerId>, connected: PeerId -> bool, env: Env)
    requires Wf(w) && Halted(w) && Distinct(order)
    ensures var r := Clean(w, order, connected, env);
            && Pruned(w, r)
            && (forall id :: id in r.table <==>
                  id in w.table && !(id in order && Goes(w.queues[w.table[id]], connected(id))))
    decreases |order|
  {
    if order != [] {
      var x := order[0];
      assert forall id :: id in order <==> id == x || id in order[1..];
      if x in w.table && Goes(w.queues[w.table[x]], connected(x)) {
        var m := DiscardPrunes(w, x, env);
        CleanPrunes(m, order[1..], connected, env);
        PrunedTwice(w, m, Clean(m, order[1..], connected, env));
      } else {
        CleanPrunes(w, order[1..], connected, env);
      }
    }
  }

  /**
   * In every reachable state in which no running queue is denied for good, the timer deletes a queue if and only if
   * it is denied for good, or is not denied, does not run, has no requests and belongs to an unconnected peer. Every
   * other queue keeps its place, its requests, its denial and whether it runs; only requests of deleted queues are
   * aborted; and the waiting sets, the slots and the connections are as before.
   */
  lemma CleanExactly(cfg: Config, w: World, order: seq<PeerId>, connected: PeerId -> bool, env: Env)
    requires Reachable(cfg, w) && Lists(order, w.table)
    requires forall id :: id in w.table && w.queues[w.table[id]].denial == Forever ==> !w.queues[w.table[id]].running
    ensures var r := Take(w, CleanTurn(order, connected), env);
            && (forall id :: id in r.table <==>
                  && id in w.table
                  && w.queues[w.table[id]].denial != Forever
                  && (w.queues[w.table[id]].denial != NotDenied || w.queues[w.table[id]].running
                      || w.queues[w.table[id]].pending != [] || connected(id)))
            && (forall id :: id in r.table ==>
                  r.table[id] == w.table[id] && r.queues[r.table[id]] == w.queues[w.table[id]])
            && w.log <= r.log
            && (forall i :: |w.log| <= i < |r.log| ==>
                  r.log[i].AbortedDial? && r.log[i].id in w.table && r.log[i].id !in r.table
                  && r.log[i].req in w.queues[w.table[r.log[i].id]].pending)
            && r.waiting == w.waiting && r.cold == w.cold && r.dialing == w.dialing && r.conns == w.conns
            && r.tracked == w.tracked && r.running == w.running && r.popped == w.popped && r.cfg == w.cfg
  {
    CleanPrunes(w, order, connected, env);
  }
}

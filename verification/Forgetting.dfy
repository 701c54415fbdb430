/** What comes of a denial for good: it does not abort the queue, and the clean timer forgets it. */
module Forgetting {
  import opened Basics
  import opened Fsm
  import opened Connection
  import opened Scheduler
  import opened Turns
  import opened Slots
  import opened SafeTurns
  import opened Spared
  import opened Shutdown
  import opened Denials

  /** Discarding a queue leaves one whose id does not wait as it is. */
  lemma DiscardLeaves(w: World, x: PeerId, env: Env, id: PeerId)
    requires Safe(w, None) && x in w.table && id in w.table && x != id && !Waits(w, id)
    ensures var r := Discard(w, x, env);
            && id in r.table && r.table[id] == w.table[id] && r.queues[r.table[id]] == w.queues[w.table[id]]
            && !Waits(r, id) && Safe(r, None)
  {
    DiscardKeeps(w, x, env);
    ExecLines(w, TAbort(w.table[x]), env);
    TableApart(w, x, id);
    ExecSpares(w, TAbort(w.table[x]), env, id);
  }

  /**
   * Exactly when an error that denies a queue leaves it without work: when the denial has a deadline, or
   * there was no work. A denial for good does not abort the queue.
   */
  lemma DenialAborts(w: World, c: nat, env: Env, q: nat)
    requires Wf(w) && c < |w.conns| && w.conns[c].errorArmed && w.conns[c].owner == Some(q) && !env.keeps(c)
    ensures q < |w.queues| && q < |Exec(w, TError(c), env).queues|
    ensures Quiet(Exec(w, TError(c), env), q) <==> w.queues[q].denials + 1 < w.cfg.denyAttempts || Quiet(w, q)
  {
    assert OwnerOk(w, c);
    var w1, next := Unfold(w, TError(c), env);
    if next.Some? { AbortQuietens(w1, q, env); }
  }

  /** The queue has failed so often that one more failure, too, denies it for good. */
  predicate Hopeless(w: World, q: nat) {
    q < |w.queues| && w.queues[q].denial == Forever && w.queues[q].denials + 1 >= w.cfg.denyAttempts
  }

  lemma MicroHopeless(w: World, t: Task, env: Env, q: nat)
    requires Wf(w) && TaskOk(w, t) && !t.TFail? && Hopeless(w, q)
    ensures Hopeless(Micro(w, t, env).0, q)
  {
    if t.TError? { assert OwnerOk(w, t.c); }
  }

  /** No cascade resets the failures of a queue. */
  lemma {:induction false} ExecHopeless(w: World, t: Task, env: Env, q: nat)
    requires Wf(w) && TaskOk(w, t) && Hopeless(w, q)
    ensures Hopeless(Exec(w, t, env), q)
    decreases Backlog(w), Focus(w, t), Phase(t)
  {
    if t.TFail? {
      ExecHopeless(w, TError(t.c), env, q);
      var r := UnfoldFail(w, t.c, t.op, env);
      ExecHopeless(r, TClose(t.c, t.op), env, q);
    } else {
      MicroHopeless(w, t, env, q);
      var w1, next := Unfold(w, t, env);
      if next.Some? { ExecHopeless(w1, next.value, env, q); }
    }
  }

  /**
   * The peer is denied for good, and no cascade can change that: its id does not wait, its queue has no
   * requests, or its queue has failed so often that one more failure makes no difference.
   */
  ghost predicate Condemned(w: World, id: PeerId)
    requires Wf(w)
  {
    && DenialOf(w, id) == Forever
    && (!Waits(w, id) || w.queues[w.table[id]].pending == [] || Hopeless(w, w.table[id]))
  }

  lemma DiscardCondemns(w: World, x: PeerId, env: Env, id: PeerId)
    requires Safe(w, None) && x in w.table && x != id && Condemned(w, id)
    ensures Safe(Discard(w, x, env), None) && Condemned(Discard(w, x, env), id)
  {
    DiscardKeeps(w, x, env);
    if Hopeless(w, w.table[id]) {
      DiscardHopeless(w, x, env, id);
    } else if w.queues[w.table[id]].pending == [] {
      var m := DiscardOther(w, x, env, id, None);
    } else {
      DiscardLeaves(w, x, env, id);
    }
  }

  lemma DiscardHopeless(w: World, x: PeerId, env: Env, id: PeerId)
    requires Wf(w) && x in w.table && id in w.table && x != id && Hopeless(w, w.table[id])
    ensures Condemned(Discard(w, x, env), id)
  {
    ExecHopeless(w, TAbort(w.table[x]), env, w.table[id]);
  }

  lemma {:induction false} CleanNarrows(w: World, order: seq<PeerId>, connected: PeerId -> bool, env: Env)
    requires Wf(w)
    ensures forall x :: x in Clean(w, order, connected, env).table ==> x in w.table
    decreases |order|
  {
    if order != [] {
      var x := order[0];
      var m := if x in w.table && Stale(w.queues[w.table[x]], connected(x)) then Discard(w, x, env) else w;
      CleanNarrows(m, order[1..], connected, env);
    }
  }

  lemma {:induction false} CleanDeletes(w: World, order: seq<PeerId>, connected: PeerId -> bool, env: Env, id: PeerId)
    requires Safe(w, None) && id in order && (id !in w.table || Condemned(w, id))
    ensures id !in Clean(w, order, connected, env).table
    decreases |order|
  {
    CleanNarrows(w, order, connected, env);
    if id in w.table {
      var x := order[0];
      if x == id {
        CleanNarrows(Discard(w, x, env), order[1..], connected, env);
      } else if x in w.table && Stale(w.queues[w.table[x]], connected(x)) {
        DiscardCondemns(w, x, env, id);
        CleanDeletes(Discard(w, x, env), order[1..], connected, env, id);
      } else {
        CleanDeletes(w, order[1..], connected, env, id);
      }
    }
  }

  /**
   * A peer denied for good is forgotten by the clean timer: afterwards nothing is denied, and the next
   * request makes a new queue without failures, which accepts it unless it is a cold call too many.
   */
  lemma CleanForgets(w: World, order: seq<PeerId>, connected: PeerId -> bool, env: Env, id: PeerId)
    requires Safe(w, None) && Lists(order, w.table) && Condemned(w, id)
    ensures var r := Clean(w, order, connected, env);
            && DenialOf(r, id) == NotDenied && id !in r.table
            && GetQueue(r, id).queues == r.queues + [DialQueue(id, [], NotDenied, 0, false)]
            && GetQueue(r, id).table[id] == |r.queues|
  {
    CleanDeletes(w, order, connected, env, id);
  }
}

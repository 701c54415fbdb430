/**
 * What a cascade leaves alone: every queue except the one it was called for and those whose ids it
 * takes out of the waiting sets; and no cascade forgives a denial.
 */
module Spared {
  import opened Basics
  import opened Fsm
  import opened Connection
  import opened Scheduler
  import opened Turns
  import opened Slots
  import opened SafeTurns

  predicate Waits(w: World, id: PeerId) { id in w.waiting || id in w.cold }

  /** Each id waits at most once. */
  ghost predicate LinesOk(w: World) {
    && Distinct(w.waiting) && Distinct(w.cold)
    && (forall id :: id in w.waiting ==> id !in w.cold)
  }

  /** The task is a call on this queue, or on a connection that it owns. */
  predicate IsFor(w: World, t: Task, q: nat)
    requires TaskOk(w, t)
  {
    match t
    case TRun => false
    case TStart(x) => x == q
    case TNext(x) => x == q
    case TStop(x) => x == q
    case TAbort(x) => x == q
    case TFail(c, _) => w.conns[c].owner == Some(q)
    case TError(c) => w.conns[c].owner == Some(q)
    case TClose(c, _) => w.conns[c].owner == Some(q)
  }

  lemma PopLines(w: World)
    requires Wf(w) && LinesOk(w)
    ensures var m := RunOnce(w);
            && LinesOk(m.0) && (forall id :: Waits(m.0, id) ==> Waits(w, id))
            && m.0.queues == w.queues && m.0.table == w.table
            && (forall id :: id in w.table && Waits(w, id) && !Waits(m.0, id) ==> m.1 == Some(TStart(w.table[id])))
            && (m.1.Some? ==>
                  exists id :: Waits(w, id) && !Waits(m.0, id) && id in w.table && m.1 == Some(TStart(w.table[id])))
  {
    if w.running && |w.dialing| < w.cfg.maxParallelDials {
      if w.waiting != [] {
        DistinctTail(w.waiting);
        assert forall x :: x in w.waiting <==> x == w.waiting[0] || x in w.waiting[1..];
        assert Waits(w, w.waiting[0]);
      } else if w.cold != [] {
        DistinctTail(w.cold);
        assert forall x :: x in w.cold <==> x == w.cold[0] || x in w.cold[1..];
        assert Waits(w, w.cold[0]);
      }
    }
  }

  /** The other calls leave the sets as they are, change their own queue only, and call no other queue. */
  lemma OthersSpare(w: World, t: Task, env: Env, q: nat)
    requires Wf(w) && TaskOk(w, t) && !t.TFail? && !t.TRun? && q < |w.queues| && !IsFor(w, t, q)
    ensures var m := Micro(w, t, env);
            && m.0.waiting == w.waiting && m.0.cold == w.cold && |m.0.queues| == |w.queues|
            && m.0.queues[q] == w.queues[q]
            && (m.1.Some? ==> TaskOk(m.0, m.1.value) && !IsFor(m.0, m.1.value, q))
  {
    MicroShrinks(w, t, env);
    match t
    case TError(c) => ErrorSpares(w, c, env, q);
    case TClose(c, o) => FireKeeps(Without(w.conns[c], o), Disconnect, env.setup);
    case _ =>
  }

  lemma ErrorSpares(w: World, c: nat, env: Env, q: nat)
    requires Wf(w) && c < |w.conns| && q < |w.queues| && w.conns[c].owner != Some(q)
    ensures var m := ReportError(w, c, env);
            && m.0.waiting == w.waiting && m.0.cold == w.cold && |m.0.queues| == |w.queues|
            && m.0.queues[q] == w.queues[q]
            && (m.1.Some? ==> exists k: nat :: k < |w.queues| && k != q && m.1 == Some(TAbort(k)))
  {
    assert OwnerOk(w, c);
  }

  /** Two tables of the same well-formed state give different queues to different ids. */
  lemma TableApart(w: World, a: PeerId, b: PeerId)
    requires Wf(w) && a in w.table && b in w.table && a != b
    ensures w.table[a] != w.table[b]
  {
  }

  /** One call: a queue it is not for stays as it is, unless its id is taken out to be started. */
  lemma MicroSpares(w: World, t: Task, env: Env, id: PeerId)
    requires Wf(w) && TaskOk(w, t) && !t.TFail? && LinesOk(w) && id in w.table && !IsFor(w, t, w.table[id])
    ensures var m := Micro(w, t, env);
            && LinesOk(m.0) && (forall x :: Waits(m.0, x) ==> Waits(w, x))
            && m.0.table == w.table && |m.0.queues| == |w.queues| && m.0.queues[w.table[id]] == w.queues[w.table[id]]
            && (m.1.Some? && (Waits(w, id) ==> Waits(m.0, id)) ==>
                  TaskOk(m.0, m.1.value) && !IsFor(m.0, m.1.value, w.table[id]))
  {
    MicroShrinks(w, t, env);
    if t.TRun? {
      PopLines(w);
      var m := RunOnce(w);
      if m.1.Some? {
        var x :| Waits(w, x) && !Waits(m.0, x) && x in w.table && m.1 == Some(TStart(w.table[x]));
        if x != id { TableApart(w, x, id); }
      }
    } else {
      OthersSpare(w, t, env, w.table[id]);
    }
  }

  /** The ids that wait after a cascade waited before it. */
  lemma {:induction false} ExecLines(w: World, t: Task, env: Env)
    requires Wf(w) && TaskOk(w, t) && LinesOk(w)
    ensures var r := Exec(w, t, env); LinesOk(r) && forall x :: Waits(r, x) ==> Waits(w, x)
    decreases Backlog(w), Focus(w, t), Phase(t)
  {
    if t.TFail? {
      ExecLines(w, TError(t.c), env);
      var r := UnfoldFail(w, t.c, t.op, env);
      ExecLines(r, TClose(t.c, t.op), env);
    } else {
      var w1, next := Unfold(w, t, env);
      MicroLines(w, t, env);
      if next.Some? { ExecLines(w1, next.value, env); }
    }
  }

  lemma MicroLines(w: World, t: Task, env: Env)
    requires Wf(w) && TaskOk(w, t) && !t.TFail? && LinesOk(w)
    ensures var m := Micro(w, t, env); LinesOk(m.0) && forall x :: Waits(m.0, x) ==> Waits(w, x)
  {
    if t.TRun? { PopLines(w); } else if t.TError? { assert OwnerOk(w, t.c); }
  }

  /** A cascade changes no queue but the one it is for, and those whose ids it takes out of the waiting sets. */
  lemma {:induction false} ExecSpares(w: World, t: Task, env: Env, id: PeerId)
    requires Wf(w) && TaskOk(w, t) && LinesOk(w) && id in w.table && !IsFor(w, t, w.table[id])
    requires Waits(w, id) ==> Waits(Exec(w, t, env), id)
    ensures Exec(w, t, env).queues[w.table[id]] == w.queues[w.table[id]]
    decreases Backlog(w), Focus(w, t), Phase(t)
  {
    if t.TFail? {
      var r := UnfoldFail(w, t.c, t.op, env);
      ExecLines(w, TError(t.c), env);
      ExecLines(r, TClose(t.c, t.op), env);
      ExecSpares(w, TError(t.c), env, id);
      ExecSpares(r, TClose(t.c, t.op), env, id);
    } else {
      var w1, next := Unfold(w, t, env);
      MicroSpares(w, t, env, id);
      if next.Some? {
        ExecLines(w1, next.value, env);
        ExecSpares(w1, next.value, env, id);
      }
    }
  }

  // ---------------------------------------------------------------- denials

  /** Every queue that was denied is denied. */
  ghost predicate StillDenied(w: World, r: World) {
    && |w.queues| <= |r.queues|
    && (forall q :: 0 <= q < |w.queues| && w.queues[q].denial != NotDenied ==> r.queues[q].denial != NotDenied)
  }

  lemma MicroDenies(w: World, t: Task, env: Env)
    requires Wf(w) && TaskOk(w, t) && !t.TFail?
    ensures StillDenied(w, Micro(w, t, env).0)
  {
    if t.TError? {
      ErrorDenies(w, t.c, env);
    } else if t.TNext? {
      NextDenies(w, t.q, env);
    }
  }

  lemma ErrorDenies(w: World, c: nat, env: Env)
    requires Wf(w) && c < |w.conns|
    ensures StillDenied(w, ReportError(w, c, env).0)
  {
    assert OwnerOk(w, c);
  }

  lemma NextDenies(w: World, q: nat, env: Env)
    requires Wf(w) && q < |w.queues|
    ensures StillDenied(w, NextDial(w, q, env).0)
  {
  }

  /** No cascade forgives a denial. */
  lemma {:induction false} ExecDenies(w: World, t: Task, env: Env)
    requires Wf(w) && TaskOk(w, t)
    ensures StillDenied(w, Exec(w, t, env))
    decreases Backlog(w), Focus(w, t), Phase(t)
  {
    if t.TFail? {
      ExecDenies(w, TError(t.c), env);
      var r := UnfoldFail(w, t.c, t.op, env);
      ExecDenies(r, TClose(t.c, t.op), env);
    } else {
      MicroDenies(w, t, env);
      var w1, next := Unfold(w, t, env);
      if next.Some? { ExecDenies(w1, next.value, env); }
    }
  }
}

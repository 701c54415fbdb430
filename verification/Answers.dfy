/**
 * What a call of `add` comes to, in the terms of the sets, the queue and the log alone: when it is aborted,
 * denied or accepted, and that an accepted dial starts its queue or leaves the id waiting in its set.
 */
module Answers {
  import opened Basics
  import opened Fsm
  import opened Connection
  import opened Scheduler
  import opened Turns
  import opened Slots
  import opened SafeTurns
  import opened Spared
  import opened Fates
  import opened Denials

  /** A request is aborted at once exactly when it is a cold call and there are too many, or its peer waits already. */
  lemma ColdCallAborted(w: World, id: PeerId, req: Request, priority: int, connected: bool, t1: int, t2: int, env: Env)
    requires Wf(w)
    ensures var r := Add(w, id, req, priority, connected, t1, t2, env);
            && |w.log| < |r.log|
            && (r.log[|w.log|] == Refused(id, req, DialAborted) <==>
                  priority > 10 && (|w.cold| >= w.cfg.maxColdCalls || id in w.waiting))
  {
    AddAnswers(w, id, req, priority, connected, t1, t2, env);
  }

  /** A request that is not aborted is refused exactly when the peer is denied for good or until later. */
  lemma DeniedOrAccepted(w: World, id: PeerId, req: Request, priority: int, connected: bool, t1: int, t2: int, env: Env)
    requires Wf(w) && !(priority > 10 && (|w.cold| >= w.cfg.maxColdCalls || id in w.waiting))
    ensures var r := Add(w, id, req, priority, connected, t1, t2, env);
            && |w.log| < |r.log|
            && r.log[|w.log|] ==
               if id in w.table && (w.queues[w.table[id]].denial == Forever
                                    || (w.queues[w.table[id]].denial.Until?
                                       && t1 <= w.queues[w.table[id]].denial.deadline))
               then Refused(id, req, DialDenied) else Accepted(id, req)
  {
    AddAnswers(w, id, req, priority, connected, t1, t2, env);
  }

  /** Something was started for the peer. */
  ghost predicate StartedFor(w: World, r: World, id: PeerId) {
    exists i :: |w.log| <= i < |r.log| && r.log[i].Started? && r.log[i].id == id
  }

  lemma StartedLater(w: World, m: World, r: World, id: PeerId)
    requires w.log <= m.log <= r.log && (StartedFor(w, m, id) || StartedFor(m, r, id))
    ensures StartedFor(w, r, id)
  {
    if StartedFor(w, m, id) {
      var i :| |w.log| <= i < |m.log| && m.log[i].Started? && m.log[i].id == id;
      assert r.log[i] == m.log[i];
    }
  }

  /** The id stays in the set it waits in, or something is started for it. */
  ghost predicate StaysOrStarts(w: World, r: World, id: PeerId) {
    || StartedFor(w, r, id)
    || ((id in w.waiting ==> id in r.waiting) && (id in w.cold ==> id in r.cold))
  }

  /** The queue has work, and the task is about to start it or to run its next dial. */
  ghost predicate AboutTo(w: World, t: Task, q: nat) {
    && q < |w.queues| && w.queues[q].pending != []
    && ((t == TStart(q) && !w.queues[q].running) || (t == TNext(q) && w.queues[q].running))
  }

  /** A queue with work that is asked for its next dial starts a dial. */
  lemma NextStarts(w: World, q: nat, env: Env)
    requires Wf(w) && AboutTo(w, TNext(q), q)
    ensures StartedFor(w, Exec(w, TNext(q), env), w.queues[q].id)
  {
    var w1, next := Unfold(w, TNext(q), env);
    assert w1.log[|w.log|].Started? && w1.log[|w.log|].id == w.queues[q].id;
    assert StartedFor(w, w1, w.queues[q].id);
    if next.Some? {
      ExecSays(w1, next.value, env);
      StartedLater(w, w1, Exec(w1, next.value, env), w.queues[q].id);
    }
  }

  /**
   * Over which connection a running queue with work dials: over the first muxed one tracked for its peer, if there is
   * one; else over a new one that it makes, wires and tracks, and that is dialled.
   */
  lemma NextGoesOver(w: World, q: nat, env: Env) returns (r: World)
    requires Wf(w) && q < |w.queues| && w.queues[q].pending != [] && w.queues[q].running
    ensures r == Exec(w, TNext(q), env) && |w.log| < |r.log| && r.log[|w.log|].Started?
    ensures r.log[|w.log|].id == w.queues[q].id && r.log[|w.log|].req == w.queues[q].pending[0]
    ensures var c := r.log[|w.log|].conn;
            if exists k :: k in w.tracked && w.conns[k].peer == w.queues[q].id && w.conns[k].state == Muxed then
              exists i :: 0 <= i < |w.tracked| && w.tracked[i] == c
                && w.conns[c].peer == w.queues[q].id && w.conns[c].state == Muxed
                && forall j :: 0 <= j < i ==>
                     w.conns[w.tracked[j]].peer != w.queues[q].id || w.conns[w.tracked[j]].state != Muxed
            else
              c == |w.conns|
    ensures r.log[|w.log|].conn == |w.conns| && !env.failsNow(|w.conns|) ==>
              && r.conns == w.conns + [Conn(w.queues[q].id, Some(q), Some(w.queues[q].pending[0]),
                                            Dialing, false, true, true,
                                            {DialOp}, [Disconnected, Dialing])]
              && r.tracked == w.tracked + [|w.conns|]
              && r.queues == w.queues[q := w.queues[q].(pending := w.queues[q].pending[1..])]
  {
    var w1, next := Unfold(w, TNext(q), env);
    r := Exec(w, TNext(q), env);
    if next.Some? { ExecSays(w1, next.value, env); }
    assert w1.log[|w.log|].Started? && w1.log <= r.log;
    FirstMuxedIs(w, w.queues[q].id);
  }

  lemma FirstMuxedIs(w: World, id: PeerId)
    requires Wf(w)
    ensures FirstMuxed(w.tracked, w.conns, id).Some? <==>
              exists k :: k in w.tracked && w.conns[k].peer == id && w.conns[k].state == Muxed
    ensures FirstMuxed(w.tracked, w.conns, id).Some? ==>
              exists i :: 0 <= i < |w.tracked| && w.tracked[i] == FirstMuxed(w.tracked, w.conns, id).value
                && forall j :: 0 <= j < i ==> w.conns[w.tracked[j]].peer != id || w.conns[w.tracked[j]].state != Muxed
  {
    if FirstMuxed(w.tracked, w.conns, id).None? {
      forall k | k in w.tracked ensures !(w.conns[k].peer == id && w.conns[k].state == Muxed) {
        var i :| 0 <= i < |w.tracked| && w.tracked[i] == k;
      }
    } else {
      var i := FirstMuxedAt(w.tracked, w.conns, id);
    }
  }

  lemma {:induction false} FirstMuxedAt(tracked: seq<nat>, conns: seq<Conn>, id: PeerId) returns (i: nat)
    requires (forall i :: 0 <= i < |tracked| ==> tracked[i] < |conns|) && FirstMuxed(tracked, conns, id).Some?
    ensures i < |tracked| && tracked[i] == FirstMuxed(tracked, conns, id).value
    ensures forall j :: 0 <= j < i ==> conns[tracked[j]].peer != id || conns[tracked[j]].state != Muxed
  {
    if conns[tracked[0]].peer == id && conns[tracked[0]].state == Muxed {
      i := 0;
    } else {
      var k := FirstMuxedAt(tracked[1..], conns, id);
      i := k + 1;
    }
  }

  lemma TaskStarts(w: World, t: Task, env: Env, q: nat)
    requires Wf(w) && TaskOk(w, t) && AboutTo(w, t, q)
    ensures StartedFor(w, Exec(w, t, env), w.queues[q].id)
  {
    if t.TStart? {
      var w1, next := Unfold(w, t, env);
      NextStarts(w1, q, env);
    } else {
      NextStarts(w, q, env);
    }
  }

  /** One call leaves a waiting id where it is, or takes it out to start its queue. */
  lemma MicroWaits(w: World, t: Task, env: Env, id: PeerId)
    requires Wf(w) && TaskOk(w, t) && !t.TFail? && LinesOk(w) && id in w.table && Waits(w, id)
    requires !IsFor(w, t, w.table[id]) && w.queues[w.table[id]].pending != [] && !w.queues[w.table[id]].running
    ensures var m := Micro(w, t, env);
            || (Waits(m.0, id) && (id in w.waiting <==> id in m.0.waiting) && (id in w.cold <==> id in m.0.cold))
            || (m.1.Some? && AboutTo(m.0, m.1.value, w.table[id]))
  {
    if t.TRun? {
      RunWaits(w, id);
    } else {
      OthersSpare(w, t, env, w.table[id]);
    }
  }

  lemma RunWaits(w: World, id: PeerId)
    requires Wf(w) && LinesOk(w) && id in w.table && Waits(w, id)
    requires w.queues[w.table[id]].pending != [] && !w.queues[w.table[id]].running
    ensures var m := RunOnce(w);
            || (Waits(m.0, id) && (id in w.waiting <==> id in m.0.waiting) && (id in w.cold <==> id in m.0.cold))
            || m.1 == Some(TStart(w.table[id]))
  {
    PopLines(w);
    if w.waiting != [] { assert forall x :: x in w.waiting <==> x == w.waiting[0] || x in w.waiting[1..]; }
    if w.cold != [] { assert forall x :: x in w.cold <==> x == w.cold[0] || x in w.cold[1..]; }
  }

  /** A cascade leaves a waiting id with work where it is, or starts a dial for it. */
  lemma {:induction false} ExecWaits(w: World, t: Task, env: Env, id: PeerId)
    requires Wf(w) && TaskOk(w, t) && LinesOk(w) && id in w.table && Waits(w, id) && !IsFor(w, t, w.table[id])
    requires w.queues[w.table[id]].pending != [] && !w.queues[w.table[id]].running
    ensures StaysOrStarts(w, Exec(w, t, env), id)
    decreases Backlog(w), Focus(w, t), Phase(t)
  {
    if t.TFail? {
      var r := UnfoldFail(w, t.c, t.op, env);
      ExecWaits(w, TError(t.c), env, id);
      ExecSays(w, TError(t.c), env);
      ExecSays(r, TClose(t.c, t.op), env);
      if StartedFor(w, r, id) {
        StartedLater(w, r, Exec(r, TClose(t.c, t.op), env), id);
      } else {
        ExecLines(w, TError(t.c), env);
        ExecSpares(w, TError(t.c), env, id);
        ExecWaits(r, TClose(t.c, t.op), env, id);
        if StartedFor(r, Exec(r, TClose(t.c, t.op), env), id)
        { StartedLater(w, r, Exec(r, TClose(t.c, t.op), env), id); }
      }
    } else {
      StepWaits(w, t, env, id);
    }
  }

  lemma {:induction false} StepWaits(w: World, t: Task, env: Env, id: PeerId)
    requires Wf(w) && TaskOk(w, t) && !t.TFail? && LinesOk(w) && id in w.table && Waits(w, id)
    requires !IsFor(w, t, w.table[id]) && w.queues[w.table[id]].pending != [] && !w.queues[w.table[id]].running
    ensures StaysOrStarts(w, Exec(w, t, env), id)
    decreases Backlog(w), Focus(w, t), Phase(t), 0
  {
    var w1, next := Unfold(w, t, env);
    MicroWaits(w, t, env, id);
    MicroSpares(w, t, env, id);
    MicroSays(w, t, env);
    if next.Some? {
      var r := Exec(w1, next.value, env);
      ExecSays(w1, next.value, env);
      if AboutTo(w1, next.value, w.table[id]) {
        TaskStarts(w1, next.value, env, w.table[id]);
        StartedLater(w, w1, r, id);
      } else {
        ExecWaits(w1, next.value, env, id);
        if StartedFor(w1, r, id) { StartedLater(w, w1, r, id); }
      }
    }
  }

  /** The queue of an accepted request, with the request in it and no denial. */
  lemma Offered(w: World, id: PeerId, req: Request, now: int) returns (q: nat, m: World)
    requires Wf(w) && (id in w.table ==> !InForce(w.queues[w.table[id]].denial, now))
    ensures Wf(GetQueue(w, id)) && id in GetQueue(w, id).table && q == GetQueue(w, id).table[id]
    ensures q < |GetQueue(w, id).queues| && m == Offer(GetQueue(w, id), q, req, now) && Wf(m)
    ensures m.log == w.log + [Accepted(id, req)] && id in m.table && m.table[id] == q && q < |m.queues|
    ensures m.queues[q].id == id && m.queues[q].pending != [] && m.queues[q].denial == NotDenied
    ensures m.queues[q].running == (id in w.table && w.queues[w.table[id]].running)
    ensures m.waiting == w.waiting && m.cold == w.cold
    ensures id in w.table ==> m.queues == w.queues[q := m.queues[q]] && m.table == w.table && q == w.table[id]
    ensures id in w.table && w.queues[q].denial == NotDenied ==>
              m.queues[q] == w.queues[q].(pending := w.queues[q].pending + [req])
    ensures m == w.(table := m.table, queues := m.queues, log := m.log)
  {
    GetQueueWf(w, id);
    q := GetQueue(w, id).table[id];
    OfferWf(GetQueue(w, id), q, req, now);
    m := Offer(GetQueue(w, id), q, req, now);
  }

  lemma EnqueueWaits(w: World, id: PeerId, priority: int)
    requires LinesOk(w) && (priority > 10 ==> id !in w.waiting)
    ensures var m := Enqueue(w, id, priority);
            LinesOk(m) && Waits(m, id) && m.table == w.table && m.queues == w.queues && m.log == w.log
            && (if priority <= 10 then id in m.waiting else id in m.cold)
  {
    RemoveDistinct(w.cold, id);
    assert w.waiting + [id] == w.waiting + [id] && (w.waiting + [id])[|w.waiting|] == id;
    assert (w.cold + [id])[|w.cold|] == id;
  }

  /**
   * A dial to an unconnected peer that is not aborted, not denied, and whose queue does not run: in the same turn
   * either a dial is started for the peer, or its id waits, in the normal set up to priority 10 and in the cold
   * set above.
   */
  lemma AdmittedWaitsOrStarts(w: World, id: PeerId, req: Request, priority: int, t1: int, t2: int, env: Env)
    requires Safe(w, None) && t1 <= t2 && !(priority > 10 && (|w.cold| >= w.cfg.maxColdCalls || id in w.waiting))
    requires id in w.table ==>
               var d := w.queues[w.table[id]];
               !d.running && (d.denial == NotDenied || (d.denial.Until? && t1 > d.denial.deadline))
    ensures var r := Add(w, id, req, priority, false, t1, t2, env);
            || (exists i :: |w.log| <= i < |r.log| && r.log[i].Started? && r.log[i].id == id)
            || (if priority <= 10 then id in r.waiting else id in r.cold)
  {
    var q, w1 := Offered(w, id, req, t1);
    var d := IsDialAllowed(w1.queues[q], t2).0;
    var w2 := SetQueue(w1, q, d);
    SetQueueWf(w1, q, d);
    assert w2.queues == w1.queues;
    EnqueueWf(w2, id, priority);
    EnqueueWaits(w2, id, priority);
    var w3 := Enqueue(w2, id, priority);
    ExecWaits(w3, TRun, env, id);
    PlacedRuns(w, id, req, priority, t1, t2, env, q, w1, w3);
    var r := Exec(w3, TRun, env);
    ExecSays(w3, TRun, env);
    if StartedFor(w3, r, id) { StartedLater(w, w3, r, id); }
  }

  lemma PlacedRuns(w: World, id: PeerId, req: Request, priority: int, t1: int, t2: int, env: Env, q: nat, w1: World,
                   w3: World)
    requires Wf(w) && !ColdRefused(w, id, priority) && Wf(GetQueue(w, id)) && id in GetQueue(w, id).table
    requires q == GetQueue(w, id).table[id] && q < |GetQueue(w, id).queues|
    requires w1 == Offer(GetQueue(w, id), q, req, t1) && Wf(w1)
    requires w1.queues[q].denial == NotDenied && !w1.queues[q].running
    requires w3 == Enqueue(SetQueue(w1, q, w1.queues[q]), id, priority) && Wf(w3)
    ensures Add(w, id, req, priority, false, t1, t2, env) == Exec(w3, TRun, env)
  {
  }

  /**
   * A dial to a connected peer that is not aborted and not denied: its queue, unless it runs,
   * starts a dial at once.
   */
  lemma ConnectedStarts(w: World, id: PeerId, req: Request, priority: int, t1: int, t2: int, env: Env)
    requires Safe(w, None) && t1 <= t2 && !(priority > 10 && (|w.cold| >= w.cfg.maxColdCalls || id in w.waiting))
    requires id in w.table ==>
               var d := w.queues[w.table[id]];
               !d.running && (d.denial == NotDenied || (d.denial.Until? && t1 > d.denial.deadline))
    ensures var r := Add(w, id, req, priority, true, t1, t2, env);
            exists i :: |w.log| <= i < |r.log| && r.log[i].Started? && r.log[i].id == id
  {
    var q, m := Offered(w, id, req, t1);
    TaskStarts(m, TStart(q), env, q);
    assert Add(w, id, req, priority, true, t1, t2, env) == Exec(m, TStart(q), env);
    ExecSays(m, TStart(q), env);
    StartedLater(w, m, Exec(m, TStart(q), env), id);
  }

  /**
   * A dial to a connected peer whose queue runs already, and that is neither aborted nor denied, joins the queue: the
   * request is put at its end, and nothing else happens.
   */
  lemma ConnectedJoins(w: World, id: PeerId, req: Request, priority: int, t1: int, t2: int, env: Env)
    requires Wf(w) && id in w.table && w.queues[w.table[id]].running && w.queues[w.table[id]].denial == NotDenied
    requires !(priority > 10 && (|w.cold| >= w.cfg.maxColdCalls || id in w.waiting))
    ensures var q := w.table[id];
            Add(w, id, req, priority, true, t1, t2, env) ==
            w.(queues := w.queues[q := w.queues[q].(pending := w.queues[q].pending + [req])],
               log := w.log + [Accepted(id, req)])
  {
    var q, m := Offered(w, id, req, t1);
    var w1, next := Unfold(m, TStart(q), env);
  }

  /**
   * The same for an unconnected peer whose id does not wait: the request is put at the end of its queue, which goes on
   * running as before, whatever other queue the manager starts meanwhile.
   */
  lemma RunningJoins(w: World, id: PeerId, req: Request, priority: int, t1: int, t2: int, env: Env)
    requires Safe(w, None) && t1 <= t2 && id !in w.waiting && id !in w.cold
    requires id in w.table && w.queues[w.table[id]].running && w.queues[w.table[id]].denial == NotDenied
    requires !(priority > 10 && |w.cold| >= w.cfg.maxColdCalls)
    ensures var q := w.table[id];
            var r := Add(w, id, req, priority, false, t1, t2, env);
            q < |r.queues| && r.queues[q] == w.queues[q].(pending := w.queues[q].pending + [req])
  {
    var q, m := Offered(w, id, req, t1);
    assert SetQueue(m, q, m.queues[q]).queues == m.queues;
    SetQueueWf(m, q, m.queues[q]);
    ExecLines(SetQueue(m, q, m.queues[q]), TRun, env);
    ExecSpares(SetQueue(m, q, m.queues[q]), TRun, env, id);
  }
}

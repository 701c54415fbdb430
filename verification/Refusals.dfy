/**
 * Denials over whole runs: a denied peer is refused until its deadline,
 * unless something named here ends its denial.
 */
module Refusals {
  import opened Basics
  import opened Fsm
  import opened Connection
  import opened Scheduler
  import opened Turns
  import opened Slots
  import opened SafeTurns
  import opened Failures
  import opened Denials
  import opened Runs
  import opened Stranding
  import opened Barring
  import opened Dating
  import opened Shutdown
  import opened Forgetting

  /** No turn of the run gives up the denial of the peer. */
  ghost predicate KeepsDenied(w: World, run: seq<Scene>, id: PeerId)
    requires Wf(w) && CanPlay(w, run)
    decreases |run|
  {
    run == [] ||
    (!GivesUp(w, run[0].turn, run[0].env, id) && KeepsDenied(Take(w, run[0].turn, run[0].env), run[1..], id))
  }

  /** No turn of the run opens a connection of the peer without a muxer. */
  ghost predicate KeepsFailures(w: World, run: seq<Scene>, id: PeerId)
    requires Wf(w) && CanPlay(w, run)
    decreases |run|
  {
    run == [] ||
    (!Resets(w, run[0].turn, run[0].env, id) && KeepsFailures(Take(w, run[0].turn, run[0].env), run[1..], id))
  }

  /** The clock never goes back. */
  ghost predicate Clocked(run: seq<Scene>) {
    && (forall i :: 0 <= i < |run| ==> Ticks(run[i].env))
    && (forall i, j, c: nat {:trigger run[i].env.now(c), run[j].env} ::
          0 <= i < j < |run| ==> run[i].env.now(c) <= run[j].env.now(0))
  }

  /** The clock of the run starts at `since`. */
  predicate Begins(run: seq<Scene>, since: int) { run == [] || since <= run[0].env.now(0) }

  lemma ClockedOn(run: seq<Scene>, c: nat)
    requires run != [] && Clocked(run)
    ensures Clocked(run[1..]) && Begins(run[1..], run[0].env.now(c))
  {
    var rest := run[1..];
    assert forall i :: 0 <= i < |rest| ==> rest[i] == run[i + 1];
  }

  /** What a run needs to only prolong a denial. */
  ghost predicate Prolongs(w: World, run: seq<Scene>, id: PeerId, since: int)
    requires Wf(w) && CanPlay(w, run)
  {
    Grows(w.cfg) && KeepsFailures(w, run, id) && Clocked(run) && Begins(run, since) && DatedFor(w, id, since)
  }

  lemma {:induction false} PlayDenied(w: World, run: seq<Scene>, id: PeerId, since: Option<int>)
    requires Safe(w, None) && Barred(w, None) && CanPlay(w, run) && KeepsDenied(w, run, id) && IsDenied(w, id)
    requires since.Some? ==> Prolongs(w, run, id, since.value)
    ensures IsDenied(Play(w, run), id)
    ensures since.Some? ==> Outlasts(DenialOf(w, id), DenialOf(Play(w, run), id))
    decreases |run|
  {
    if run != [] {
      var env := run[0].env;
      var m := Unplay(w, run);
      TurnStands(w, run[0].turn, env, id, since);
      TurnKeeps(w, run[0].turn, env);
      TurnBars(w, run[0].turn, env);
      TurnConfig(w, run[0].turn, env);
      if since.Some? {
        ClockedOn(run, |m.conns|);
        TurnDated(w, run[0].turn, env, id, since.value);
      }
      PlayDenied(m, run[1..], id, Later(m, since, env));
    }
  }

  /** A dial whose request is refused as denied, before anything else is noted. */
  ghost predicate Refuses(w: World, s: Scene)
    requires Wf(w) && CanTake(w, s.turn) && s.turn.DialTurn?
  {
    var r := Take(w, s.turn, s.env);
    |w.log| < |r.log| && r.log[|w.log|] == Refused(s.turn.id, s.turn.req, DialDenied)
  }

  lemma DialIsRefused(w: World, s: Scene, id: PeerId)
    requires Wf(w) && CanTake(w, s.turn) && s.turn.DialTurn? && s.turn.id == id
    requires !ColdRefused(w, id, s.turn.priority) && InForce(DenialOf(w, id), s.turn.t1)
    ensures Refuses(w, s)
  {
    AddAnswers(w, id, s.turn.req, s.turn.priority, s.turn.connected, s.turn.t1, s.turn.t2, s.env);
  }

  /**
   * After any run that does not give up its denial, a peer is still denied, and a dial to it that is no
   * cold call too many is refused as denied while the deadline then in force has not passed.
   */
  lemma RefusedWhileDenied(cfg: Config, w: World, id: PeerId, run: seq<Scene>, s: Scene)
    requires Reachable(cfg, w) && DenialOf(w, id) != NotDenied && CanPlay(w, run) && KeepsDenied(w, run, id)
    requires s.turn.DialTurn? && s.turn.id == id && CanTake(Play(w, run), s.turn)
    requires !ColdRefused(Play(w, run), id, s.turn.priority)
    ensures var m := Play(w, run);
            && DenialOf(m, id) != NotDenied
            && (InForce(DenialOf(m, id), s.turn.t1) ==> Refuses(m, s))
  {
    ReachableSafe(cfg, w);
    PlayDenied(w, run, id, None);
    if InForce(DenialOf(Play(w, run), id), s.turn.t1) { DialIsRefused(Play(w, run), s, id); }
  }

  /** The first turn of a run, which does not reset the failures of the peer's queue. */
  lemma FirstDated(w: World, run: seq<Scene>, id: PeerId, since: int) returns (m: World, t: nat)
    requires Safe(w, None) && Barred(w, None) && run != [] && CanPlay(w, run) && KeepsFailures(w, run, id)
    requires Grows(w.cfg) && Ticks(run[0].env) && since <= run[0].env.now(0) && DatedFor(w, id, since)
    ensures Safe(m, None) && Barred(m, None) && m.cfg == w.cfg && DatedFor(m, id, run[0].env.now(t))
    ensures CanPlay(m, run[1..]) && KeepsFailures(m, run[1..], id) && Play(w, run) == Play(m, run[1..])
  {
    var s := run[0];
    m := Unplay(w, run);
    TurnDated(w, s.turn, s.env, id, since);
    TurnKeeps(w, s.turn, s.env);
    TurnBars(w, s.turn, s.env);
    TurnConfig(w, s.turn, s.env);
    t := |m.conns|;
  }

  /** From here on nothing ends the denial of the peer, or resets its failures. */
  ghost predicate HoldsOut(w: World, run: seq<Scene>, id: PeerId) {
    Wf(w) && CanPlay(w, run) && KeepsFailures(w, run, id) && KeepsDenied(w, run, id) && IsDenied(w, id)
  }

  ghost predicate Prolonged(w: World, run: seq<Scene>, id: PeerId)
    requires Wf(w) && CanPlay(w, run)
  {
    IsDenied(w, id) && IsDenied(Play(w, run), id) && Outlasts(DenialOf(w, id), DenialOf(Play(w, run), id))
  }

  /** A denial that a run without a reset comes to is only prolonged by what follows. */
  lemma {:induction false} PlayProlongs(w: World, before: seq<Scene>, after: seq<Scene>, id: PeerId, since: int)
    requires Safe(w, None) && Barred(w, None) && CanPlay(w, before) && KeepsFailures(w, before, id)
    requires HoldsOut(Play(w, before), after, id)
    requires Grows(w.cfg) && Clocked(before + after) && Begins(before + after, since) && DatedFor(w, id, since)
    ensures Prolonged(Play(w, before), after, id)
    decreases |before|
  {
    if before == [] {
      assert before + after == after;
      PlayDenied(w, after, id, Some(since));
    } else {
      assert (before + after)[0] == before[0] && (before + after)[1..] == before[1..] + after;
      var m, t := FirstDated(w, before, id, since);
      ClockedOn(before + after, t);
      PlayProlongs(m, before[1..], after, id, before[0].env.now(t));
    }
  }

  /**
   * A denial with a deadline holds until that very deadline, whatever fails meanwhile. A peer that is not
   * denied comes to be denied in the course of a run; after any further run that does not give this denial
   * up, a dial to the peer that is no cold call too many is refused as denied until the deadline that the
   * denial began with. No connection of the peer opens without a muxer, which would reset the failures of
   * its queue; the clock does not go back; and at most sixteen attempts are allowed.
   */
  lemma RefusedUntilDeadline(cfg: Config, w: World, before: seq<Scene>, after: seq<Scene>, id: PeerId, s: Scene)
    requires Reachable(cfg, w) && DenialOf(w, id) == NotDenied && Grows(cfg) && Clocked(before + after)
    requires CanPlay(w, before) && KeepsFailures(w, before, id)
    requires var m := Play(w, before);
             HoldsOut(m, after, id) && s.turn.DialTurn? && InForce(DenialOf(m, id), s.turn.t1)
    requires var r := Play(Play(w, before), after);
             s.turn.id == id && CanTake(r, s.turn) && !ColdRefused(r, id, s.turn.priority)
    ensures Refuses(Play(Play(w, before), after), s)
  {
    ReachableSafe(cfg, w);
    var run := before + after;
    PlayProlongs(w, before, after, id, if run == [] then 0 else run[0].env.now(0));
    DialIsRefused(Play(Play(w, before), after), s, id);
  }

  // ---------------------------------------------------------------- the end of a denial

  /** The clean timer leaves every denial with a deadline as it is, whether the id waits or not. */
  lemma CleanSparesDenied(cfg: Config, w: World, order: seq<PeerId>, connected: PeerId -> bool, env: Env, id: PeerId)
    requires Reachable(cfg, w) && DenialOf(w, id).Until?
    ensures DenialOf(Clean(w, order, connected, env), id) == DenialOf(w, id)
  {
    ReachableSafe(cfg, w);
    CleanUntouched(w, order, connected, env, id, None);
  }

  /**
   * Other than by a dial, a denial ends exactly in the turns that give it up. For the clean timer, this is
   * so for all denials but those for good that a cascade may still change.
   */
  lemma EndsExactly(cfg: Config, w: World, t: Turn, env: Env, id: PeerId)
    requires Reachable(cfg, w) && CanTake(w, t) && DenialOf(w, id) != NotDenied && !t.DialTurn?
    requires t.CleanTurn? && DenialOf(w, id) == Forever ==> Condemned(w, id)
    ensures DenialOf(Take(w, t, env), id) == NotDenied <==> GivesUp(w, t, env, id)
  {
    ReachableSafe(cfg, w);
    if !GivesUp(w, t, env, id) {
      TurnStands(w, t, env, id, None);
    } else {
      match t
      case StopTurn(order) => StopDrains(w, order, env);
      case CompleteTurn(c, op, ok) => OpeningForgives(w, c, env);
      case CleanTurn(order, isConnected) => CleanForgets(w, order, isConnected, env, id);
      case _ =>
    }
  }

  // ---------------------------------------------------------------- denied for good, and dialling on

  /** Another dial to a peer whose queue runs is added to the queue. */
  lemma DialJoins(w: World, id: PeerId, req: Request, env: Env) returns (r: World)
    requires Wf(w) && id in w.table && w.queues[w.table[id]] == Busy(id) && w.waiting == [] && w.cold == []
    ensures Wf(r) && r == Take(w, DialTurn(id, req, PRIORITY_HIGH, false, 0, 0), env)
    ensures Looks(r, w.cfg, w.running, [], w.dialing, w.table, w.queues[w.table[id] := Busy(id).(pending := [req])],
                  w.conns, w.tracked)
  {
    var q := w.table[id];
    OfferWf(w, q, req, 0);
    var w1 := Offer(w, q, req, 0);
    assert [] + [req] == [req];
    assert SetQueue(w1, q, w1.queues[q]) == w1;
    var m, next := Unfold(w1, TRun, env);
    AddWf(w, id, req, PRIORITY_HIGH, false, 0, 0, env);
    r := m;
  }

  /** The last failure allowed denies the queue for good, and calls nothing. */
  lemma DeniesForGood(w: World, id: PeerId, first: Request, req: Request, env: Env) returns (a: World)
    requires Wf(w) && w.cfg.denyAttempts <= 1 && w.queues == [Busy(id).(pending := [req])]
    requires w.conns == [Dialled(id, 0, first)] && !env.keeps(0)
    ensures Wf(a) && a == Exec(w, TError(0), env)
    ensures a == w.(queues := [DialQueue(id, [req], Forever, 1, true)], conns := a.conns)
    ensures a.conns == [Dialled(id, 0, first).(errorArmed := false)]
  {
    var next;
    a, next := Unfold(w, TError(0), env);
  }

  /** A dial that is closed makes way for its queue's next request. */
  lemma CloseDialsNext(w: World, d: DialQueue, k: Conn, first: Request, req: Request, env: Env) returns (r: World)
    requires Wf(w) && w.queues == [d] && d.running && d.pending == [req] && w.conns == [k] && w.tracked == [0]
    requires k == Dialled(d.id, 0, first).(errorArmed := false) && !env.failsNow(1)
    ensures Wf(r) && r == Exec(w, TClose(0, None), env) && r.table == w.table && r.queues == [d.(pending := [])]
    ensures |r.conns| == 2 && r.conns[1] == Dialled(d.id, 0, req)
  {
    FireDisconnect(k, env.setup);
    var c, t2 := Unfold(w, TClose(0, None), env);
    assert t2 == Some(TNext(0)) && c.tracked == [];
    var t3;
    r, t3 := Unfold(c, TNext(0), env);
    assert [req][1..] == [];
  }

  /** The queue's dial fails for the last time allowed, and the queue goes on to its next request. */
  lemma FailsForGood(w: World, id: PeerId, first: Request, req: Request, env: Env) returns (r: World)
    requires Wf(w) && w.cfg.denyAttempts <= 1 && w.queues == [Busy(id).(pending := [req])]
    requires w.conns == [Dialled(id, 0, first)] && w.tracked == [0] && !env.keeps(0) && !env.failsNow(1)
    ensures Wf(r) && r == Exec(w, TFail(0, None), env)
    ensures r.table == w.table && r.queues == [DialQueue(id, [], Forever, 1, true)]
    ensures |r.conns| == 2 && r.conns[1] == Dialled(id, 0, req)
  {
    var a := DeniesForGood(w, id, first, req, env);
    r := CloseDialsNext(a, a.queues[0], a.conns[0], first, req, env);
    var b := UnfoldFail(w, 0, None, env);
  }

  /**
   * A run at whose end a queue is denied for good and dialling all the same: with one attempt allowed, two
   * requests for a peer and a failure of the first, the second is dialled by a new connection.
   */
  lemma DialsOnDenied(cfg: Config, id: PeerId, first: Request, req: Request, env: Env)
    returns (run: seq<Scene>, w: World)
    requires cfg.maxParallelDials > 0 && cfg.denyAttempts <= 1
    requires !env.failsNow(0) && !env.failsNow(1) && !env.keeps(0)
    ensures CanPlay(Init(cfg), run) && w == Play(Init(cfg), run) && Wf(w)
    ensures DenialOf(w, id) == Forever && w.queues[w.table[id]].running
    ensures |w.conns| == 2 && w.conns[1] == Dialled(id, w.table[id], req)
  {
    var w1 := DialStarts(Init(cfg), id, first, env);
    var w2 := DialJoins(w1, id, req, env);
    w := FailsForGood(w2, id, first, req, env);
    run := ThreeTurns(cfg, Scene(DialTurn(id, first, PRIORITY_HIGH, false, 0, 0), env), w1,
                      Scene(DialTurn(id, req, PRIORITY_HIGH, false, 0, 0), env), w2, Scene(CloseTurn(0, true), env), w);
  }

  lemma ThreeTurns(cfg: Config, a: Scene, w1: World, b: Scene, w2: World, c: Scene, w3: World) returns (run: seq<Scene>)
    requires Wf(w1) && Wf(w2)
    requires CanTake(Init(cfg), a.turn) && w1 == Take(Init(cfg), a.turn, a.env)
    requires CanTake(w1, b.turn) && w2 == Take(w1, b.turn, b.env)
    requires CanTake(w2, c.turn) && w3 == Take(w2, c.turn, c.env)
    ensures CanPlay(Init(cfg), run) && Play(Init(cfg), run) == w3
  {
    PlayFirst(w2, c, []);
    PlayFirst(w1, b, [c] + []);
    PlayFirst(Init(cfg), a, [b] + ([c] + []));
    run := [a] + ([b] + ([c] + []));
  }
}

/** What failed dials do to a queue: exactly when the back-off grows, and when a denial is only prolonged. */
module Failures {
  import opened Basics
  import opened Fsm
  import opened Connection
  import opened Scheduler
  import opened Turns
  import Backoff

  /** How long a queue is denied when it is denied for a while. */
  function Span(d: DialQueue, now: int): int
    requires d.denial.Until?
  {
    d.denial.deadline - now
  }

  /** For every queue, clock and draw, a second finite denial without a reset lasts longer than the first. */
  ghost predicate DenialsGrow(cfg: Config) {
    forall d: DialQueue, now: int, now': int, r: real, r': real
      {:trigger Denied(d, cfg, now, r), Denied(Denied(d, cfg, now, r), cfg, now', r')} ::
      Backoff.IsDraw(r) && Backoff.IsDraw(r') ==>
        var d1 := Denied(d, cfg, now, r);
        var d2 := Denied(d1, cfg, now', r');
        d1.denial.Until? && d2.denial.Until? ==> Span(d1, now) < Span(d2, now')
  }

  /** Exactly when the back-off of a queue strictly grows, whatever the jitter. */
  lemma DenialsGrowExactly(cfg: Config)
    requires cfg.denyTtl >= 1.0
    ensures DenialsGrow(cfg) <==> cfg.denyAttempts <= 16
  {
    Backoff.GrowsExactly(cfg.denyTtl, cfg.denyAttempts);
    if cfg.denyAttempts <= 16 {
      forall d: DialQueue, now: int, now': int, r: real, r': real | Backoff.IsDraw(r) && Backoff.IsDraw(r')
        ensures var d1 := Denied(d, cfg, now, r);
                var d2 := Denied(d1, cfg, now', r');
                d1.denial.Until? && d2.denial.Until? ==> Span(d1, now) < Span(d2, now')
      {
        var d1 := Denied(d, cfg, now, r);
        var d2 := Denied(d1, cfg, now', r');
        if d1.denial.Until? && d2.denial.Until? {
          assert Backoff.Ttl(cfg.denyTtl, d.denials + 1, r) < Backoff.Ttl(cfg.denyTtl, d.denials + 2, r');
        }
      }
    } else {
      Backoff.Overtaken(cfg.denyTtl);
      var d := DialQueue(PeerId(""), [], NotDenied, 14, false);
      var d1 := Denied(d, cfg, 0, 0.99);
      var d2 := Denied(d1, cfg, 0, 0.0);
      assert Span(d1, 0) == Backoff.Ttl(cfg.denyTtl, 15, 0.99) && Span(d2, 0) == Backoff.Ttl(cfg.denyTtl, 16, 0.0);
      assert Backoff.IsDraw(0.99) && Backoff.IsDraw(0.0);
    }
  }

  // ---------------------------------------------------------------- further failures

  /** A denial in force for at least as long. */
  ghost predicate Outlasts(a: Denial, b: Denial) {
    forall now: int :: InForce(a, now) ==> InForce(b, now)
  }

  /** The denial stems from the last failure counted, at a time that is not after `t`. */
  ghost predicate Dated(d: DialQueue, cfg: Config, t: int) {
    match d.denial
    case NotDenied => true
    case Forever => d.denials + 1 >= cfg.denyAttempts
    case Until(deadline) =>
      0 < d.denials && exists r: real :: Backoff.IsDraw(r) && deadline - Backoff.Ttl(cfg.denyTtl, d.denials, r) <= t
  }

  /** What does not forgive failures: a denial that stems from the last failure is replaced by longer ones only. */
  ghost predicate Lasts(d: DialQueue, e: DialQueue, cfg: Config, t: int, t': int) {
    Dated(d, cfg, t) ==> Dated(e, cfg, t') && Outlasts(d.denial, e.denial)
  }

  lemma LastsTwice(d: DialQueue, e: DialQueue, f: DialQueue, cfg: Config, t: int, t': int, t'': int)
    requires Lasts(d, e, cfg, t, t') && Lasts(e, f, cfg, t', t'')
    ensures Lasts(d, f, cfg, t, t'')
  {
  }

  lemma SameLasts(d: DialQueue, e: DialQueue, cfg: Config, t: int, t': int)
    requires e.denial == d.denial && e.denials == d.denials && t <= t'
    ensures Lasts(d, e, cfg, t, t')
  {
    if Dated(d, cfg, t) && d.denial.Until? {
      var r: real :| Backoff.IsDraw(r) && d.denial.deadline - Backoff.Ttl(cfg.denyTtl, d.denials, r) <= t;
      assert e.denial.deadline - Backoff.Ttl(cfg.denyTtl, e.denials, r) <= t';
    }
  }

  /** The settings for which the back-off grows whatever the jitter. */
  ghost predicate Grows(cfg: Config) { cfg.denyTtl >= 1.0 && cfg.denyAttempts <= 16 }

  /** A denial just made is dated. */
  lemma DeniedDated(d: DialQueue, cfg: Config, now: int, draw: real)
    requires Backoff.IsDraw(draw)
    ensures Dated(Denied(d, cfg, now, draw), cfg, now)
  {
    var e := Denied(d, cfg, now, draw);
    if e.denial.Until? { assert e.denial.deadline - Backoff.Ttl(cfg.denyTtl, e.denials, draw) <= now; }
  }

  /** One more failure without a reset in between never brings a deadline forward. */
  lemma DeniedLasts(d: DialQueue, cfg: Config, t: int, now: int, draw: real)
    requires Grows(cfg) && t <= now && Backoff.IsDraw(draw)
    ensures Lasts(d, Denied(d, cfg, now, draw), cfg, t, now)
  {
    var e := Denied(d, cfg, now, draw);
    DeniedDated(d, cfg, now, draw);
    if Dated(d, cfg, t) && e.denial.Until? && d.denial.Until? {
      var r: real :| Backoff.IsDraw(r) && d.denial.deadline - Backoff.Ttl(cfg.denyTtl, d.denials, r) <= t;
      Backoff.Strict(cfg.denyTtl, d.denials, r, draw);
    }
  }

  /** The clock does not go back within a turn, whose new connections fail one after another. */
  ghost predicate Ticks(env: Env) {
    && (forall c: nat, k: nat :: c <= k ==> env.now(c) <= env.now(k))
    && (forall c: nat :: Backoff.IsDraw(env.draw(c)))
  }

  /** The clock when the next failure of a cascade can be reported. */
  function Clock(w: World, t: Task, env: Env): int {
    match t
    case TFail(c, _) => env.now(c)
    case TError(c) => env.now(c)
    case _ => env.now(|w.conns|)
  }

  function After(w: World, next: Option<Task>, env: Env): int {
    if next.Some? then Clock(w, next.value, env) else env.now(|w.conns|)
  }

  lemma MicroLasts(w: World, t: Task, env: Env, q: nat, since: int)
    requires Wf(w) && TaskOk(w, t) && !t.TFail? && q < |w.queues|
    requires Grows(w.cfg) && Ticks(env) && since <= Clock(w, t, env)
    ensures var m := Micro(w, t, env);
            |m.0.queues| == |w.queues| && Lasts(w.queues[q], m.0.queues[q], w.cfg, since, After(m.0, m.1, env))
  {
    MicroShrinks(w, t, env);
    var m := Micro(w, t, env);
    if t.TError? {
      ErrorLasts(w, t.c, env, q, since);
    } else {
      SameLasts(w.queues[q], m.0.queues[q], w.cfg, since, After(m.0, m.1, env));
    }
  }

  lemma ErrorLasts(w: World, c: nat, env: Env, q: nat, since: int)
    requires Wf(w) && c < |w.conns| && q < |w.queues| && Grows(w.cfg) && Ticks(env) && since <= env.now(c)
    ensures var m := ReportError(w, c, env);
            |m.0.queues| == |w.queues| && Lasts(w.queues[q], m.0.queues[q], w.cfg, since, After(m.0, m.1, env))
  {
    assert OwnerOk(w, c);
    var m := ReportError(w, c, env);
    var d, e := w.queues[q], m.0.queues[q];
    if e != d {
      DeniedLasts(d, w.cfg, since, env.now(c), env.draw(c));
      SameLasts(e, e, w.cfg, env.now(c), After(m.0, m.1, env));
      LastsTwice(d, e, e, w.cfg, since, env.now(c), After(m.0, m.1, env));
    } else {
      SameLasts(d, e, w.cfg, since, After(m.0, m.1, env));
    }
  }

  /** Within a cascade, every denial of a queue lasts longer than the one it replaces. */
  lemma {:induction false} ExecLasts(w: World, t: Task, env: Env, q: nat, since: int)
    requires Wf(w) && TaskOk(w, t) && q < |w.queues| && Grows(w.cfg) && Ticks(env) && since <= Clock(w, t, env)
    ensures var r := Exec(w, t, env);
            Lasts(w.queues[q], r.queues[q], w.cfg, since, env.now(|r.conns|))
    decreases Backlog(w), Focus(w, t), Phase(t)
  {
    var r := Exec(w, t, env);
    if t.TFail? {
      ExecLasts(w, TError(t.c), env, q, since);
      var m := UnfoldFail(w, t.c, t.op, env);
      ExecLasts(m, TClose(t.c, t.op), env, q, env.now(|m.conns|));
      LastsTwice(w.queues[q], m.queues[q], r.queues[q], w.cfg, since, env.now(|m.conns|), env.now(|r.conns|));
    } else {
      MicroLasts(w, t, env, q, since);
      var w1, next := Unfold(w, t, env);
      if next.Some? {
        ExecLasts(w1, next.value, env, q, Clock(w1, next.value, env));
        LastsTwice(w.queues[q], w1.queues[q], r.queues[q], w.cfg, since,
                   Clock(w1, next.value, env), env.now(|r.conns|));
      }
    }
  }
}

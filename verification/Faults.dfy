/**
 * What a failure comes to, in the terms of the queue, the connection and the log alone: the connection closes, its
 * listener is used up, and the queue that wired it is denied, unless its peer is spared.
 */
module Faults {
  import opened Basics
  import opened Fsm
  import opened Connection
  import opened Scheduler
  import opened Turns
  import opened Slots
  import opened SafeTurns
  import opened Barring
  import opened Fates
  import opened Forgetting
  import opened Runs
  import Backoff

  // ---------------------------------------------------------------- failures are only ever counted up

  lemma MicroCounts(w: World, t: Task, env: Env, q: nat)
    requires Wf(w) && TaskOk(w, t) && !t.TFail? && q < |w.queues|
    ensures var m := Micro(w, t, env);
            && |m.0.queues| == |w.queues| && m.0.queues[q].denials >= w.queues[q].denials
            && (!t.TError? ==>
                  m.0.queues[q].denials == w.queues[q].denials && m.0.queues[q].denial == w.queues[q].denial)
            && (m.1.Some? && (m.1.value.TFail? || m.1.value.TError?) ==> exists k: nat :: env.failsNow(k))
  {
    if t.TError? { ErrorCounts(w, t.c, env, q); } else if t.TNext? { NextCounts(w, t.q, env, q); }
  }

  lemma ErrorCounts(w: World, c: nat, env: Env, q: nat)
    requires Wf(w) && c < |w.conns| && q < |w.queues|
    ensures var m := ReportError(w, c, env);
            && |m.0.queues| == |w.queues| && m.0.queues[q].denials >= w.queues[q].denials
            && (m.1.Some? ==> m.1.value.TAbort?)
  {
    assert OwnerOk(w, c);
  }

  lemma NextCounts(w: World, p: nat, env: Env, q: nat)
    requires Wf(w) && p < |w.queues| && q < |w.queues|
    ensures var m := NextDial(w, p, env);
            && |m.0.queues| == |w.queues|
            && m.0.queues[q].denials == w.queues[q].denials && m.0.queues[q].denial == w.queues[q].denial
            && (m.1.Some? && (m.1.value.TFail? || m.1.value.TError?) ==> exists k: nat :: env.failsNow(k))
  {
  }

  lemma {:induction false} ExecCounts(w: World, t: Task, env: Env, q: nat)
    requires Wf(w) && TaskOk(w, t) && q < |w.queues|
    ensures Exec(w, t, env).queues[q].denials >= w.queues[q].denials
    decreases Backlog(w), Focus(w, t), Phase(t)
  {
    if t.TFail? {
      ExecCounts(w, TError(t.c), env, q);
      var r := UnfoldFail(w, t.c, t.op, env);
      ExecCounts(r, TClose(t.c, t.op), env, q);
    } else {
      MicroCounts(w, t, env, q);
      var w1, next := Unfold(w, t, env);
      if next.Some? { ExecCounts(w1, next.value, env, q); }
    }
  }

  /** A cascade that begins with no error, and in which no dial fails at once, denies no queue. */
  lemma {:induction false} ExecCalm(w: World, t: Task, env: Env, q: nat)
    requires Wf(w) && TaskOk(w, t) && q < |w.queues| && !t.TFail? && !t.TError? && forall k: nat :: !env.failsNow(k)
    ensures Exec(w, t, env).queues[q].denials == w.queues[q].denials
    ensures Exec(w, t, env).queues[q].denial == w.queues[q].denial
    decreases Backlog(w), Focus(w, t), Phase(t)
  {
    MicroCounts(w, t, env, q);
    var w1, next := Unfold(w, t, env);
    if next.Some? { ExecCalm(w1, next.value, env, q); }
  }

  // ---------------------------------------------------------------- closing

  /** The connection closes, and nothing that follows touches it. */
  lemma CloseEnds(w: World, c: nat, o: Option<Op>, env: Env) returns (w1: World, next: Option<Task>)
    requires Ready(w, TClose(c, o))
    ensures c < |w1.conns| && w1.conns[c].state == (if w.conns[c].state == Muxed then Disconnecting else Disconnected)
    ensures !w1.conns[c].errorArmed || w.conns[c].errorArmed
    ensures w.conns[c].state == Muxed ==> EndOp in w1.conns[c].ops
    ensures w1.queues == w.queues && w1.log == w.log && Wf(w1)
    ensures next == None
            || (w.conns[c].owner.Some? && next == Some(TNext(w.conns[c].owner.value)) && TaskOk(w1, next.value))
    ensures var r := Exec(w, TClose(c, o), env);
            && (if next.Some? then r == Exec(w1, next.value, env) else r == w1)
            && c < |r.conns| && r.conns[c] == w1.conns[c]
            && Safe(r, None)
  {
    MicroKeeps(w, TClose(c, o), env);
    ExecKeeps(w, TClose(c, o), env);
    assert ConnOk(w.conns[c]);
    Disconnects(w.conns[c], o, env.setup);
    w1, next := Unfold(w, TClose(c, o), env);
    if next.Some? { ExecFrames(w1, next.value, env, c); }
  }

  // ---------------------------------------------------------------- an error that counts

  /** The time a failure denies a queue for: within a tenth of the cubic multiple of the base, floored. */
  ghost predicate DeniedFor(base: real, n: nat, ttl: int) {
    var multiple := base * (n * n * n) as real;
    multiple * 0.9 - 1.0 < ttl as real <= multiple * 1.1
  }

  lemma TtlIs(base: real, n: nat, draw: real)
    requires base >= 0.0 && Backoff.IsDraw(draw)
    ensures DeniedFor(base, n, Backoff.Ttl(base, n, draw))
  {
    var cube := Backoff.Cube(n) as real;
    assert Backoff.Cube(n) >= 0 by { CubeNat(n); }
    Backoff.ProductNonNegative(base, cube);
    Backoff.Jitter(base * cube, draw);
  }

  lemma CubeNat(n: nat)
    ensures Backoff.Cube(n) >= 0
  {
    assert n * n >= 0;
  }

  /** One more failure: the queue is denied for a while, or for good once it has failed often enough. */
  ghost predicate OnceMore(d: DialQueue, e: DialQueue, cfg: Config, now: int) {
    if d.denials + 1 >= cfg.denyAttempts then
      e.denial == Forever && e.denials >= d.denials + 1
    else
      && e.denials == d.denials + 1 && e.denial.Until?
      && DeniedFor(cfg.denyTtl, d.denials + 1, e.denial.deadline - now)
      && e.pending == [] && !e.running
  }

  /** Each request of the queue is aborted, in order, before anything else is noted. */
  ghost predicate AbortsFirst(w: World, r: World, d: DialQueue) {
    && |r.log| >= |w.log| + |d.pending| && w.log <= r.log
    && forall i :: 0 <= i < |d.pending| ==> r.log[|w.log| + i] == AbortedDial(d.id, d.pending[i])
  }

  lemma AbortedLater(w: World, m: World, r: World, d: DialQueue)
    requires AbortsFirst(w, m, d) && m.log <= r.log
    ensures AbortsFirst(w, r, d)
  {
    forall i | 0 <= i < |d.pending| ensures r.log[|w.log| + i] == AbortedDial(d.id, d.pending[i]) {
      assert r.log[|w.log| + i] == m.log[|w.log| + i];
    }
  }

  /** Aborting a queue empties and stops it, and leaves its denial. */
  lemma AbortEnds(w: World, q: nat, env: Env) returns (r: World)
    requires Wf(w) && q < |w.queues|
    ensures r == Exec(w, TAbort(q), env) && Wf(r) && q < |r.queues| && AbortsFirst(w, r, w.queues[q])
    ensures r.queues[q] == w.queues[q].(pending := [], running := false)
  {
    var a, next := Unfold(w, TAbort(q), env);
    ExecIdles(a, TStop(q), env, q);
    AbortQuietens(w, q, env);
    ExecSays(a, TStop(q), env);
    r := Exec(w, TAbort(q), env);
    assert AbortsFirst(w, a, w.queues[q]);
    AbortedLater(w, a, r, w.queues[q]);
  }

  lemma DeniedOnce(d: DialQueue, cfg: Config, now: int, draw: real)
    requires cfg.denyTtl >= 0.0 && Backoff.IsDraw(draw)
    ensures var e := Denied(d, cfg, now, draw);
            && OnceMore(d, e.(pending := [], running := false), cfg, now)
            && (d.denials + 1 >= cfg.denyAttempts ==> e == d.(denials := d.denials + 1, denial := Forever))
            && (d.denials + 1 < cfg.denyAttempts <==> e.denial != Forever)
  {
    TtlIs(cfg.denyTtl, d.denials + 1, draw);
  }

  /** Reporting an error sets the denial, and aborts the queue unless it is denied for good. */
  lemma ReportStep(w: World, c: nat, env: Env, q: nat, e: DialQueue) returns (a: World)
    requires Wf(w) && c < |w.conns| && w.conns[c].errorArmed && w.conns[c].owner == Some(q) && !env.keeps(c)
    requires q < |w.queues| && e == Denied(w.queues[q], w.cfg, env.now(c), env.draw(c))
    ensures Wf(a) && q < |a.queues| == |w.queues| && a.queues[q] == e && a.log == w.log && a.cfg == w.cfg
    ensures c < |a.conns| && !a.conns[c].errorArmed
    ensures Exec(w, TError(c), env) == if e.denial == Forever then a else Exec(a, TAbort(q), env)
  {
    assert OwnerOk(w, c);
    var next;
    a, next := Unfold(w, TError(c), env);
  }

  /** What reporting an error does to the queue that wired the connection. */
  lemma ErrorDeniesIt(w: World, c: nat, env: Env, q: nat) returns (r: World)
    requires Wf(w) && c < |w.conns| && w.conns[c].errorArmed && w.conns[c].owner == Some(q) && !env.keeps(c)
    requires w.cfg.denyTtl >= 0.0 && Backoff.IsDraw(env.draw(c))
    ensures r == Exec(w, TError(c), env) && Wf(r) && q < |w.queues| == |r.queues|
    ensures OnceMore(w.queues[q], r.queues[q], w.cfg, env.now(c)) && w.log <= r.log
    ensures r.queues[q].denials == w.queues[q].denials + 1
    ensures r.queues[q].denial == Forever ==> Hopeless(r, q)
    ensures r.queues[q].denial != Forever ==> AbortsFirst(w, r, w.queues[q])
    ensures c < |r.conns| && !r.conns[c].errorArmed
  {
    assert OwnerOk(w, c);
    var e := Denied(w.queues[q], w.cfg, env.now(c), env.draw(c));
    DeniedOnce(w.queues[q], w.cfg, env.now(c), env.draw(c));
    var a := ReportStep(w, c, env, q, e);
    if e.denial == Forever { r := a; } else { r := AbortAfter(w, a, c, q, env); }
  }

  lemma AbortAfter(w: World, a: World, c: nat, q: nat, env: Env) returns (r: World)
    requires Wf(a) && q < |w.queues| && q < |a.queues| && a.log == w.log && c < |a.conns| && !a.conns[c].errorArmed
    requires a.queues[q].pending == w.queues[q].pending && a.queues[q].id == w.queues[q].id
    ensures r == Exec(a, TAbort(q), env) && Wf(r) && |r.queues| == |a.queues|
    ensures r.queues[q] == a.queues[q].(pending := [], running := false)
    ensures AbortsFirst(w, r, w.queues[q]) && c < |r.conns| && !r.conns[c].errorArmed
  {
    r := AbortEnds(a, q, env);
    ExecFrames(a, TAbort(q), env, c);
  }

  /** A queue that is empty and stopped stays so when it is called back; one denied for good stays denied. */
  lemma NextAfter(w: World, q: nat, env: Env, d: DialQueue, now: int)
    requires Wf(w) && q < |w.queues| && OnceMore(d, w.queues[q], w.cfg, now)
    requires w.queues[q].denial == Forever ==> Hopeless(w, q)
    ensures var r := Exec(w, TNext(q), env);
            q < |r.queues| && OnceMore(d, r.queues[q], w.cfg, now) && w.log <= r.log
    ensures (forall k: nat :: !env.failsNow(k)) ==> Exec(w, TNext(q), env).queues[q].denials == w.queues[q].denials
  {
    ExecSays(w, TNext(q), env);
    if w.queues[q].denial == Forever {
      ExecHopeless(w, TNext(q), env, q);
      ExecCounts(w, TNext(q), env, q);
    } else {
      ExecIdles(w, TNext(q), env, q);
      ExecQuiet(w, TNext(q), env, q);
    }
    if forall k: nat :: !env.failsNow(k) { ExecCalm(w, TNext(q), env, q); }
  }

  /** What a failed connection that counts comes to. */
  ghost predicate Struck(w: World, r: World, c: nat, q: nat, env: Env) {
    && c < |w.conns| && c < |r.conns| && q < |w.queues| && q < |r.queues|
    && (if w.conns[c].state == Muxed then r.conns[c].state == Disconnecting && EndOp in r.conns[c].ops
        else r.conns[c].state == Disconnected && c !in r.tracked)
    && !r.conns[c].errorArmed
    && OnceMore(w.queues[q], r.queues[q], w.cfg, env.now(c))
    && (w.queues[q].denials + 1 < w.cfg.denyAttempts ==> AbortsFirst(w, r, w.queues[q]))
    && ((forall k: nat :: !env.failsNow(k)) ==> r.queues[q].denials == w.queues[q].denials + 1)
  }

  lemma FailStrikes(w: World, c: nat, o: Option<Op>, env: Env, q: nat)
    requires Ready(w, TFail(c, o)) && w.conns[c].errorArmed && w.conns[c].owner == Some(q) && !env.keeps(c)
    requires w.cfg.denyTtl >= 0.0 && Backoff.IsDraw(env.draw(c))
    ensures Struck(w, Exec(w, TFail(c, o), env), c, q, env)
  {
    var a := ErrorDeniesIt(w, c, env, q);
    var b := UnfoldFail(w, c, o, env);
    ExecKeeps(w, TError(c), env);
    ExecFrames(w, TError(c), env, c);
    var r := CloseStrikes(w, a, c, o, env, q);
  }

  /** The second half: the connection closes, and its queue is called back. */
  lemma CloseStrikes(w: World, a: World, c: nat, o: Option<Op>, env: Env, q: nat) returns (r: World)
    requires Ready(a, TClose(c, o)) && c < |w.conns| && q < |w.queues| && q < |a.queues| && a.cfg == w.cfg
    requires a.conns[c].state == w.conns[c].state && a.conns[c].owner == Some(q) && !a.conns[c].errorArmed
    requires OnceMore(w.queues[q], a.queues[q], w.cfg, env.now(c)) && w.log <= a.log
    requires a.queues[q].denials == w.queues[q].denials + 1
    requires a.queues[q].denial == Forever ==> Hopeless(a, q)
    requires a.queues[q].denial != Forever ==> AbortsFirst(w, a, w.queues[q])
    ensures r == Exec(a, TClose(c, o), env) && Struck(w, r, c, q, env)
  {
    r := Exec(a, TClose(c, o), env);
    var w1, next := CloseEnds(a, c, o, env);
    if next.Some? { NextAfter(w1, q, env, w.queues[q], env.now(c)); }
    if w.queues[q].denials + 1 < w.cfg.denyAttempts { AbortedLater(w, a, r, w.queues[q]); }
    assert c !in r.tracked <==> r.conns[c].state == Disconnected;
  }

  // ---------------------------------------------------------------- the turns that fail

  /**
   * A search, a protection, an encryption or an identify that fails, or a close with an error, on a connection whose
   * error listener is armed and whose peer is not spared. The connection closes, or begins to if it was muxed, and
   * the listener is used up. The queue that wired it has failed once more: it is denied for good once it has failed
   * often enough; else it is denied from now for a time within a tenth of the cubic multiple of the base, stopped
   * and emptied, and each of its requests is aborted, in order, before anything else is noted.
   */
  lemma FaultDenies(cfg: Config, w: World, t: Turn, c: nat, env: Env, q: nat) returns (r: World)
    requires Reachable(cfg, w) && CanTake(w, t) && c < |w.conns| && w.conns[c].state != Disconnecting
    requires t == CloseTurn(c, true)
             || t == CompleteTurn(c, DialOp, false) || t == CompleteTurn(c, ProtectOp, false)
             || t == CompleteTurn(c, CryptoOp, false) || t == CompleteTurn(c, IdentifyOp, false)
    requires w.conns[c].errorArmed && w.conns[c].owner == Some(q) && !env.keeps(c)
    requires cfg.denyTtl >= 0.0 && 0.0 <= env.draw(c) < 1.0
    ensures r == Take(w, t, env) && c < |r.conns| && q < |w.queues| == |r.queues| && w.log <= r.log
    ensures r.conns[c].state == (if w.conns[c].state == Muxed then Disconnecting else Disconnected)
    ensures (c in r.tracked <==> w.conns[c].state == Muxed) && !r.conns[c].errorArmed
    ensures var d, e := w.queues[q], r.queues[q];
            d.denials + 1 >= cfg.denyAttempts ==>
              && e.denial == Forever && e.denials >= d.denials + 1
              && ((forall k: nat :: !env.failsNow(k)) ==> e.denials == d.denials + 1)
    ensures var d, e := w.queues[q], r.queues[q];
            d.denials + 1 < cfg.denyAttempts ==>
              && e.denials == d.denials + 1 && e.denial.Until? && e.pending == [] && !e.running
              && DeniedFor(cfg.denyTtl, d.denials + 1, e.denial.deadline - env.now(c))
              && |r.log| >= |w.log| + |d.pending|
              && forall i :: 0 <= i < |d.pending| ==> r.log[|w.log| + i] == AbortedDial(d.id, d.pending[i])
  {
    ReachableSafe(cfg, w);
    r := FaultStrikes(w, t, c, env, q);
    StruckSays(w, r, c, q, env);
  }

  lemma FaultStrikes(w: World, t: Turn, c: nat, env: Env, q: nat) returns (r: World)
    requires Safe(w, None) && CanTake(w, t) && c < |w.conns| && w.conns[c].state != Disconnecting
    requires t == CloseTurn(c, true)
             || t == CompleteTurn(c, DialOp, false) || t == CompleteTurn(c, ProtectOp, false)
             || t == CompleteTurn(c, CryptoOp, false) || t == CompleteTurn(c, IdentifyOp, false)
    requires w.conns[c].errorArmed && w.conns[c].owner == Some(q) && !env.keeps(c)
    requires w.cfg.denyTtl >= 0.0 && Backoff.IsDraw(env.draw(c))
    ensures r == Take(w, t, env) && Struck(w, r, c, q, env)
            && w.log <= r.log && Safe(r, None) && |r.queues| == |w.queues|
  {
    var o := if t.CloseTurn? then None else Some(t.op);
    FailStrikes(w, c, o, env, q);
    ExecSays(w, TFail(c, o), env);
    ExecKeeps(w, TFail(c, o), env);
    r := Exec(w, TFail(c, o), env);
    assert Take(w, t, env) == r;
  }

  lemma StruckSays(w: World, r: World, c: nat, q: nat, env: Env)
    requires Struck(w, r, c, q, env) && Safe(r, None)
    ensures r.conns[c].state == (if w.conns[c].state == Muxed then Disconnecting else Disconnected)
    ensures (c in r.tracked <==> w.conns[c].state == Muxed) && !r.conns[c].errorArmed
    ensures var d, e := w.queues[q], r.queues[q];
            d.denials + 1 >= w.cfg.denyAttempts ==>
              && e.denial == Forever && e.denials >= d.denials + 1
              && ((forall k: nat :: !env.failsNow(k)) ==> e.denials == d.denials + 1)
    ensures var d, e := w.queues[q], r.queues[q];
            d.denials + 1 < w.cfg.denyAttempts ==>
              && e.denials == d.denials + 1 && e.denial.Until? && e.pending == [] && !e.running
              && DeniedFor(w.cfg.denyTtl, d.denials + 1, e.denial.deadline - env.now(c))
              && |r.log| >= |w.log| + |d.pending|
              && forall i :: 0 <= i < |d.pending| ==> r.log[|w.log| + i] == AbortedDial(d.id, d.pending[i])
  {
  }

  /** The connection closes as above, and no queue is denied or pardoned. */
  ghost predicate Parts(w: World, r: World, c: nat) {
    && c < |w.conns| && c < |r.conns|
    && (if w.conns[c].state == Muxed then r.conns[c].state == Disconnecting && EndOp in r.conns[c].ops
        else r.conns[c].state == Disconnected)
    && (c in r.tracked <==> w.conns[c].state == Muxed) && |r.queues| == |w.queues|
    && (forall q :: 0 <= q < |w.queues| ==>
          r.queues[q].denial == w.queues[q].denial && r.queues[q].denials == w.queues[q].denials)
  }

  lemma ClosePlain(w: World, a: World, c: nat, o: Option<Op>, env: Env) returns (r: World)
    requires Ready(a, TClose(c, o)) && c < |w.conns| && a.conns[c].state == w.conns[c].state
    requires |a.queues| == |w.queues| && forall k: nat :: !env.failsNow(k)
    requires forall q :: 0 <= q < |w.queues| ==>
               a.queues[q].denial == w.queues[q].denial && a.queues[q].denials == w.queues[q].denials
    ensures r == Exec(a, TClose(c, o), env) && Parts(w, r, c)
  {
    r := Exec(a, TClose(c, o), env);
    var w1, next := CloseEnds(a, c, o, env);
    forall q | 0 <= q < |w.queues|
      ensures r.queues[q].denial == w.queues[q].denial && r.queues[q].denials == w.queues[q].denials
    {
      if next.Some? { ExecCalm(w1, next.value, env, q); }
    }
    assert c in r.tracked <==> r.conns[c].state != Disconnected;
  }

  lemma FailSpares(w: World, c: nat, o: Option<Op>, env: Env) returns (r: World)
    requires Ready(w, TFail(c, o)) && forall k: nat :: !env.failsNow(k)
    requires env.keeps(c) || !w.conns[c].errorArmed || w.conns[c].owner.None?
    ensures r == Exec(w, TFail(c, o), env) && Parts(w, r, c)
  {
    assert OwnerOk(w, c);
    var a, next := Unfold(w, TError(c), env);
    var b := UnfoldFail(w, c, o, env);
    ExecKeeps(w, TError(c), env);
    ExecFrames(w, TError(c), env, c);
    r := ClosePlain(w, a, c, o, env);
  }

  /**
   * The same failures when the peer is spared, or no queue listens for them; and a close without an error, or a muxer
   * that has closed: the connection closes, or begins to if it was muxed, and no queue is denied, counts a failure
   * or is pardoned, unless a dial fails at once in the same turn.
   */
  lemma ClosingSpares(cfg: Config, w: World, t: Turn, c: nat, env: Env) returns (r: World)
    requires Reachable(cfg, w) && CanTake(w, t) && c < |w.conns| && w.conns[c].state != Disconnecting
    requires
      || t == CloseTurn(c, false) || t == CompleteTurn(c, MuxerCloseOp, true)
      || t == CompleteTurn(c, MuxerCloseOp, false)
      || ((t == CloseTurn(c, true) || t == CompleteTurn(c, DialOp, false) || t == CompleteTurn(c, ProtectOp, false)
           || t == CompleteTurn(c, CryptoOp, false) || t == CompleteTurn(c, IdentifyOp, false))
          && (env.keeps(c) || !w.conns[c].errorArmed || w.conns[c].owner.None?))
    requires forall k: nat :: !env.failsNow(k)
    ensures r == Take(w, t, env) && c < |r.conns| && |r.queues| == |w.queues|
    ensures r.conns[c].state == (if w.conns[c].state == Muxed then Disconnecting else Disconnected)
    ensures (w.conns[c].state == Muxed ==> EndOp in r.conns[c].ops) && (c in r.tracked <==> w.conns[c].state == Muxed)
    ensures forall q :: 0 <= q < |w.queues| ==>
              r.queues[q].denial == w.queues[q].denial && r.queues[q].denials == w.queues[q].denials
  {
    ReachableSafe(cfg, w);
    if t == CloseTurn(c, false) || (t.CompleteTurn? && t.op == MuxerCloseOp) {
      r := PlainSpares(w, t, c, env);
    } else {
      r := FaultSpares(w, t, c, env);
    }
  }

  lemma PlainSpares(w: World, t: Turn, c: nat, env: Env) returns (r: World)
    requires Safe(w, None) && CanTake(w, t) && c < |w.conns| && w.conns[c].state != Disconnecting
    requires t == CloseTurn(c, false) || (t.CompleteTurn? && t.c == c && t.op == MuxerCloseOp)
    requires forall k: nat :: !env.failsNow(k)
    ensures r == Take(w, t, env) && Parts(w, r, c)
  {
    r := ClosePlain(w, w, c, if t.CloseTurn? then None else Some(t.op), env);
  }

  lemma FaultSpares(w: World, t: Turn, c: nat, env: Env) returns (r: World)
    requires Safe(w, None) && CanTake(w, t) && c < |w.conns| && w.conns[c].state != Disconnecting
    requires t == CloseTurn(c, true)
             || t == CompleteTurn(c, DialOp, false) || t == CompleteTurn(c, ProtectOp, false)
             || t == CompleteTurn(c, CryptoOp, false) || t == CompleteTurn(c, IdentifyOp, false)
    requires env.keeps(c) || !w.conns[c].errorArmed || w.conns[c].owner.None?
    requires forall k: nat :: !env.failsNow(k)
    ensures r == Take(w, t, env) && Parts(w, r, c)
  {
    if t.CloseTurn? {
      r := FailSpares(w, c, None, env);
    } else {
      r := FailSpares(w, c, Some(t.op), env);
      BadlyFails(w, c, t.op, env);
    }
  }

  lemma BadlyFails(w: World, c: nat, o: Op, env: Env)
    requires Wf(w) && c < |w.conns| && w.conns[c].state != Disconnecting
    requires o == DialOp || o == ProtectOp || o == CryptoOp || o == IdentifyOp
    ensures Complete(w, c, o, false, env) == Exec(w, TFail(c, Some(o)), env)
  {
  }

  // ---------------------------------------------------------------- a dial that fails at once

  /**
   * A queue with work and no open connection to its peer dials its first request by a new connection. If that fails
   * at once, the queue is denied as above in the same turn, and its further requests are aborted, in order.
   */
  lemma FailsAtOnce(w: World, q: nat, env: Env) returns (r: World)
    requires Ready(w, TNext(q)) && w.queues[q].running && w.queues[q].pending != []
    requires forall k :: k in w.tracked ==>
               k < |w.conns| && (w.conns[k].peer != w.queues[q].id || w.conns[k].state != Muxed)
    requires env.failsNow(|w.conns|) && !env.keeps(|w.conns|) && w.cfg.denyTtl >= 0.0
             && 0.0 <= env.draw(|w.conns|) < 1.0
    ensures r == Exec(w, TNext(q), env) && q < |w.queues| == |r.queues| && |w.conns| < |r.conns|
    ensures r.conns[|w.conns|].state == Disconnected && |w.conns| !in r.tracked
    ensures |w.log| < |r.log| && r.log[|w.log|] == Started(w.queues[q].id, w.queues[q].pending[0], |w.conns|)
    ensures var d, e := w.queues[q], r.queues[q];
            d.denials + 1 >= w.cfg.denyAttempts ==> e.denial == Forever && e.denials >= d.denials + 1
    ensures var d, e := w.queues[q], r.queues[q];
            d.denials + 1 < w.cfg.denyAttempts ==>
              && e.denials == d.denials + 1 && e.denial.Until? && e.pending == [] && !e.running
              && DeniedFor(w.cfg.denyTtl, d.denials + 1, e.denial.deadline - env.now(|w.conns|))
              && |r.log| >= |w.log| + |d.pending|
              && forall i :: 0 < i < |d.pending| ==> r.log[|w.log| + i] == AbortedDial(d.id, d.pending[i])
  {
    var m := DialsAnew(w, q, env);
    r := StrikesNew(m, |w.conns|, env, q);
    RestAborted(w, m, r, q, env);
  }

  lemma StrikesNew(m: World, c: nat, env: Env, q: nat) returns (r: World)
    requires Ready(m, TFail(c, Some(DialOp))) && m.conns[c].owner == Some(q) && m.conns[c].errorArmed
    requires m.conns[c].state == Dialing && !env.keeps(c) && m.cfg.denyTtl >= 0.0 && Backoff.IsDraw(env.draw(c))
    ensures r == Exec(m, TFail(c, Some(DialOp)), env) && Struck(m, r, c, q, env) && m.log <= r.log
    ensures r.conns[c].state == Disconnected && c !in r.tracked && |r.queues| == |m.queues|
  {
    FailStrikes(m, c, Some(DialOp), env, q);
    ExecSays(m, TFail(c, Some(DialOp)), env);
    r := Exec(m, TFail(c, Some(DialOp)), env);
  }

  lemma RestAborted(w: World, m: World, r: World, q: nat, env: Env)
    requires q < |w.queues| == |m.queues| && w.queues[q].pending != [] && m.cfg == w.cfg
    requires m.queues[q] == w.queues[q].(pending := w.queues[q].pending[1..]) && m.log <= r.log
    requires m.log == w.log + [Started(w.queues[q].id, w.queues[q].pending[0], |w.conns|)]
    requires Struck(m, r, |w.conns|, q, env)
    ensures |w.log| < |r.log| && r.log[|w.log|] == Started(w.queues[q].id, w.queues[q].pending[0], |w.conns|)
    ensures q < |r.queues| && OnceMore(w.queues[q], r.queues[q], w.cfg, env.now(|w.conns|))
    ensures var d := w.queues[q];
            d.denials + 1 < w.cfg.denyAttempts ==>
              && |r.log| >= |w.log| + |d.pending|
              && forall i :: 0 < i < |d.pending| ==> r.log[|w.log| + i] == AbortedDial(d.id, d.pending[i])
  {
    assert r.log[|w.log|] == m.log[|w.log|];
    if w.queues[q].denials + 1 < w.cfg.denyAttempts { AbortsRest(w, m, r, q); }
  }

  lemma DialsAnew(w: World, q: nat, env: Env) returns (m: World)
    requires Ready(w, TNext(q)) && w.queues[q].running && w.queues[q].pending != []
    requires forall k :: k in w.tracked ==>
               k < |w.conns| && (w.conns[k].peer != w.queues[q].id || w.conns[k].state != Muxed)
    requires env.failsNow(|w.conns|)
    ensures |m.conns| == |w.conns| + 1 && Ready(m, TFail(|w.conns|, Some(DialOp))) && m.cfg == w.cfg
    ensures q < |m.queues| == |w.queues| && m.queues[q] == w.queues[q].(pending := w.queues[q].pending[1..])
    ensures m.log == w.log + [Started(w.queues[q].id, w.queues[q].pending[0], |w.conns|)]
    ensures m.conns[|w.conns|] == Dialled(w.queues[q].id, q, w.queues[q].pending[0])
    ensures Exec(w, TNext(q), env) == Exec(m, TFail(|w.conns|, Some(DialOp)), env)
  {
    MicroKeeps(w, TNext(q), env);
    var next;
    m, next := Unfold(w, TNext(q), env);
  }

  lemma AbortsRest(w: World, m: World, r: World, q: nat)
    requires q < |w.queues| && q < |m.queues| && w.queues[q].pending != [] && |m.log| == |w.log| + 1
    requires m.queues[q] == w.queues[q].(pending := w.queues[q].pending[1..]) && AbortsFirst(m, r, m.queues[q])
    ensures |r.log| >= |w.log| + |w.queues[q].pending|
    ensures forall i :: 0 < i < |w.queues[q].pending| ==>
              r.log[|w.log| + i] == AbortedDial(w.queues[q].id, w.queues[q].pending[i])
  {
    var d, e := w.queues[q], m.queues[q];
    forall i | 0 < i < |d.pending| ensures r.log[|w.log| + i] == AbortedDial(d.id, d.pending[i]) {
      assert r.log[|m.log| + (i - 1)] == AbortedDial(e.id, e.pending[i - 1]);
    }
  }
}

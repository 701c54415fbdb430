/**
 * A run with the default settings in which a reset of the failures lets a further failure bring a deadline
 * forward, so that the theorem on deadlines needs runs without a reset.
 */
module Shortening {
  import opened Basics
  import opened Fsm
  import opened Connection
  import opened Scheduler
  import opened Turns
  import opened Failures
  import opened Denials
  import opened Runs
  import opened Stranding
  import opened Refusals
  import Backoff

  const DENY_TTL := 300000.0
  const DENY_ATTEMPTS := 5

  /** A connection of the first queue that has come as far as the state, without a muxer. */
  predicate IsAt(k: Conn, id: PeerId, s: State) {
    && k.peer == id && k.owner == Some(0) && k.dial.Some? && k.state == s && !k.muxer
    && k.nextArmed == InFlight(s) && (s != Disconnected ==> k.errorArmed)
    && (s == Dialing ==> k.ops == {DialOp}) && (s == Encrypting ==> k.ops == {CryptoOp})
  }

  /** A running manager with one peer and its queue. */
  ghost predicate Alone(w: World, id: PeerId, d: DialQueue) {
    && Wf(w) && w.running && w.waiting == [] && w.cold == [] && w.table == map[id := 0] && w.queues == [d]
    && w.dialing == (if d.running then {id} else {}) && d.id == id
    && (forall c :: 0 <= c < |w.conns| ==> w.conns[c].state != Muxed)
  }

  /** The search for a connection ends, and the connection encrypts. */
  lemma SearchEnds(w: World, c: nat, id: PeerId, d: DialQueue, env: Env) returns (r: World)
    requires Alone(w, id, d) && c < |w.conns| && IsAt(w.conns[c], id, Dialing) && !env.setup.protector
    ensures CanTake(w, CompleteTurn(c, DialOp, true)) && r == Take(w, CompleteTurn(c, DialOp, true), env)
    ensures Alone(r, id, d) && r.cfg == w.cfg && r.tracked == w.tracked && |r.conns| == |w.conns|
    ensures r.conns == w.conns[c := r.conns[c]] && IsAt(r.conns[c], id, Encrypting)
  {
    var k := DialFires(w.conns[c], env.setup);
    StoreWf(w, c, k);
    r := Take(w, CompleteTurn(c, DialOp, true), env);
    assert r == Announced(w, c, k) == Store(w, c, k);
  }

  /** A connection opens without a muxer: the failures are reset, the denial stays, and the queue goes on. */
  lemma OpensPlain(w: World, c: nat, id: PeerId, d: DialQueue, env: Env) returns (m: World)
    requires Alone(w, id, d) && c < |w.conns| && IsAt(w.conns[c], id, Encrypting) && !env.setup.muxers
    ensures CanTake(w, CompleteTurn(c, CryptoOp, true))
    ensures Alone(m, id, d.(denials := 0)) && m.cfg == w.cfg && m.tracked == w.tracked && |m.conns| == |w.conns|
    ensures m.conns == w.conns[c := m.conns[c]] && IsAt(m.conns[c], id, Connected)
    ensures Take(w, CompleteTurn(c, CryptoOp, true), env) == Exec(m, TNext(0), env)
  {
    var k := CryptoFires(w.conns[c], env.setup);
    StoreWf(w, c, k);
    m := Announced(w, c, k);
    assert m == Greet(Store(w, c, k), c);
    assert Wakes(k) == Some(TNext(0));
  }

  /** The queue makes a connection for its next request. */
  lemma DialsNext(w: World, id: PeerId, d: DialQueue, req: Request, env: Env) returns (r: World)
    requires Alone(w, id, d) && d.running && d.pending == [req] && !env.failsNow(|w.conns|)
    requires forall i :: 0 <= i < |w.tracked| ==> w.tracked[i] < |w.conns|
    ensures r == Exec(w, TNext(0), env) && Alone(r, id, d.(pending := [])) && r.cfg == w.cfg
    ensures r.conns == w.conns + [Dialled(id, 0, req)] && r.tracked == w.tracked + [|w.conns|]
  {
    var next;
    r, next := Unfold(w, TNext(0), env);
    assert [req][1..] == [];
  }

  /** A queue that does not run stays as it is. */
  lemma NextRests(w: World, id: PeerId, d: DialQueue, env: Env)
    requires Alone(w, id, d) && !d.running
    ensures Exec(w, TNext(0), env) == w
  {
    var a, t1 := Unfold(w, TNext(0), env);
    var b, t2 := Unfold(a, TStop(0), env);
  }

  /** An open connection closes with an error, which denies the queue for a while and aborts it. */
  lemma ClosesBadly(w: World, c: nat, id: PeerId, d: DialQueue, e: DialQueue, env: Env) returns (r: World)
    requires Alone(w, id, d) && c < |w.conns| && IsAt(w.conns[c], id, Connected) && !env.keeps(c)
    requires e == Denied(d, w.cfg, env.now(c), env.draw(c)) && e.denial.Until?
    ensures r == Take(w, CloseTurn(c, true), env) && r.cfg == w.cfg && |r.conns| == |w.conns|
    ensures Alone(r, id, e.(pending := [], running := false)) && r.conns == w.conns[c := r.conns[c]]
  {
    r := FailsAlone(w, c, id, d, e, env);
  }

  lemma FailsAlone(w: World, c: nat, id: PeerId, d: DialQueue, e: DialQueue, env: Env) returns (r: World)
    requires Alone(w, id, d) && c < |w.conns| && IsAt(w.conns[c], id, Connected) && !env.keeps(c)
    requires e == Denied(d, w.cfg, env.now(c), env.draw(c)) && e.denial.Until?
    ensures r == Exec(w, TFail(c, None), env) && r.cfg == w.cfg && |r.conns| == |w.conns|
    ensures Alone(r, id, e.(pending := [], running := false)) && r.conns == w.conns[c := r.conns[c]]
  {
    var a := FailureStops(w, c, id, d, e, env);
    var b := UnfoldFail(w, c, None, env);
    r := CloseRests(a, c, id, e.(pending := [], running := false), env);
  }

  /** An open connection closes, and no queue waits for it. */
  lemma CloseRests(w: World, c: nat, id: PeerId, d: DialQueue, env: Env) returns (r: World)
    requires Alone(w, id, d) && c < |w.conns| && w.conns[c].state == Connected
    requires !w.conns[c].nextArmed && !w.conns[c].muxer
    ensures r == Exec(w, TClose(c, None), env) && r.cfg == w.cfg && |r.conns| == |w.conns| && Alone(r, id, d)
    ensures r.conns == w.conns[c := r.conns[c]]
  {
    FireDisconnect(w.conns[c], env.setup);
    var next;
    r, next := Unfold(w, TClose(c, None), env);
    assert next == None;
  }

  lemma FailureStops(w: World, c: nat, id: PeerId, d: DialQueue, e: DialQueue, env: Env) returns (r: World)
    requires Alone(w, id, d) && c < |w.conns| && IsAt(w.conns[c], id, Connected) && !env.keeps(c)
    requires e == Denied(d, w.cfg, env.now(c), env.draw(c)) && e.denial.Until?
    ensures r == Exec(w, TError(c), env) && r.cfg == w.cfg && r.tracked == w.tracked
    ensures Alone(r, id, e.(pending := [], running := false))
    ensures r.conns == w.conns[c := w.conns[c].(errorArmed := false)]
  {
    var a, t1 := Unfold(w, TError(c), env);
    r := AbortStops(a, id, e, env);
  }

  lemma AbortStops(w: World, id: PeerId, d: DialQueue, env: Env) returns (r: World)
    requires Alone(w, id, d)
    ensures r == Exec(w, TAbort(0), env) && Alone(r, id, d.(pending := [], running := false))
    ensures r.cfg == w.cfg && r.tracked == w.tracked && r.conns == w.conns
  {
    var a, t1 := Unfold(w, TAbort(0), env);
    var b, t2 := Unfold(a, TStop(0), env);
    r := b;
    if t2.Some? {
      var t3;
      assert b.dialing == {};
      r, t3 := Unfold(b, TRun, env);
    }
  }

  // ---------------------------------------------------------------- the run

  /** No protector and no muxers, all dials are under way, every error counts, and all happens at time zero. */
  function Draws(draw: real): Env {
    Env(Setup(false, false, false), _ => false, _ => false, _ => draw, _ => 0)
  }

  function DialAt(id: PeerId, req: Request, now: int): Turn { DialTurn(id, req, PRIORITY_HIGH, false, now, now) }

  /** With the default settings, a first failure denies for a time between these two. */
  lemma FirstDeadlines(d: DialQueue, cfg: Config)
    requires cfg.denyTtl == DENY_TTL && cfg.denyAttempts == DENY_ATTEMPTS && d.denials == 0
    ensures Denied(d, cfg, 0, 0.99) == d.(denials := 1, denial := Until(329400))
    ensures Denied(d, cfg, 0, 0.0) == d.(denials := 1, denial := Until(270000))
  {
    assert Backoff.Cube(1) == 1 && DENY_TTL * 1.0 == DENY_TTL;
    assert Backoff.Jittered(DENY_TTL, 0.99) == 329400.0 && Backoff.Jittered(DENY_TTL, 0.0) == 270000.0;
  }

  /** Two requests for a peer: the first is being dialled. */
  lemma TwoAsked(cfg: Config, id: PeerId, first: Request, req: Request, env: Env) returns (run: seq<Scene>, w: World)
    requires cfg.maxParallelDials > 0 && env == Draws(0.99)
    ensures CanPlay(Init(cfg), run) && w == Play(Init(cfg), run) && w.cfg == cfg
    ensures Alone(w, id, Busy(id).(pending := [req])) && |w.conns| == 1 && IsAt(w.conns[0], id, Dialing)
    ensures forall i :: 0 <= i < |run| ==> run[i].env == env
  {
    var w1 := DialStarts(Init(cfg), id, first, env);
    w := DialJoins(w1, id, req, env);
    assert w.queues == [Busy(id).(pending := [req])];
    var a, b := Scene(DialAt(id, first, 0), env), Scene(DialAt(id, req, 0), env);
    PlayFirst(w1, b, []);
    PlayFirst(Init(cfg), a, [b] + []);
    run := [a] + ([b] + []);
  }

  /** The first dial opens a connection without a muxer, and the second is under way. */
  lemma OneOpens(w: World, id: PeerId, req: Request, env: Env) returns (run: seq<Scene>, r: World)
    requires Alone(w, id, Busy(id).(pending := [req])) && |w.conns| == 1 && IsAt(w.conns[0], id, Dialing)
    requires env == Draws(0.99)
    ensures CanPlay(w, run) && r == Play(w, run) && Alone(r, id, Busy(id)) && r.cfg == w.cfg && |r.conns| == 2
    ensures IsAt(r.conns[0], id, Connected) && IsAt(r.conns[1], id, Dialing)
    ensures forall i :: 0 <= i < |run| ==> run[i].env == env
  {
    var m := SearchEnds(w, 0, id, Busy(id).(pending := [req]), env);
    var n := OpensPlain(m, 0, id, Busy(id).(pending := [req]), env);
    r := DialsNext(n, id, Busy(id).(pending := [req]), req, env);
    var a, b := Scene(CompleteTurn(0, DialOp, true), env), Scene(CompleteTurn(0, CryptoOp, true), env);
    PlayFirst(m, b, []);
    PlayFirst(w, a, [b] + []);
    run := [a] + ([b] + []);
  }

  lemma TwoDials(cfg: Config, id: PeerId, first: Request, req: Request, env: Env) returns (run: seq<Scene>, w: World)
    requires cfg.maxParallelDials > 0 && env == Draws(0.99)
    ensures CanPlay(Init(cfg), run) && w == Play(Init(cfg), run) && w.cfg == cfg
    ensures Alone(w, id, Busy(id)) && |w.conns| == 2
    ensures IsAt(w.conns[0], id, Connected) && IsAt(w.conns[1], id, Dialing)
    ensures forall i :: 0 <= i < |run| ==> run[i].env == env
  {
    var asked, m := TwoAsked(cfg, id, first, req, env);
    var more;
    more, w := OneOpens(m, id, req, env);
    PlayBoth(Init(cfg), asked, m, more);
    run := asked + more;
  }

  /** The open connection fails: the queue is denied, and its second dial goes on. */
  lemma DeniedDialling(cfg: Config, id: PeerId, first: Request, req: Request) returns (run: seq<Scene>, w: World)
    requires cfg.maxParallelDials > 0 && cfg.denyTtl == DENY_TTL && cfg.denyAttempts == DENY_ATTEMPTS
    ensures CanPlay(Init(cfg), run) && w == Play(Init(cfg), run) && w.cfg == cfg
    ensures Alone(w, id, DialQueue(id, [], Until(329400), 1, false)) && |w.conns| == 2 && IsAt(w.conns[1], id, Dialing)
    ensures forall i :: 0 <= i < |run| ==> run[i].env == Draws(0.99)
  {
    var before, m := TwoDials(cfg, id, first, req, Draws(0.99));
    FirstDeadlines(Busy(id), cfg);
    w := ClosesBadly(m, 0, id, Busy(id), Busy(id).(denials := 1, denial := Until(329400)), Draws(0.99));
    PlayThen(Init(cfg), before, Scene(CloseTurn(0, true), Draws(0.99)));
    run := before + [Scene(CloseTurn(0, true), Draws(0.99))];
  }

  /** The second dial opens without a muxer and fails. */
  lemma OpensAndFails(w: World, id: PeerId) returns (run: seq<Scene>, r: World)
    requires Alone(w, id, DialQueue(id, [], Until(329400), 1, false)) && |w.conns| == 2 && IsAt(w.conns[1], id, Dialing)
    requires w.cfg.denyTtl == DENY_TTL && w.cfg.denyAttempts == DENY_ATTEMPTS
    ensures CanPlay(w, run) && r == Play(w, run) && KeepsDenied(w, run, id)
    ensures Alone(r, id, DialQueue(id, [], Until(270000), 1, false))
    ensures forall i :: 0 <= i < |run| ==> run[i].env == Draws(0.0)
  {
    var env := Draws(0.0);
    var d := DialQueue(id, [], Until(329400), 1, false);
    var w1 := SearchEnds(w, 1, id, d, env);
    var w2 := PlainRests(w1, id, d, env);
    FirstDeadlines(d.(denials := 0), w.cfg);
    r := ClosesBadly(w2, 1, id, d.(denials := 0), d.(denial := Until(270000)), env);
    run := ThreeKept(w, Scene(CompleteTurn(1, DialOp, true), env), w1, Scene(CompleteTurn(1, CryptoOp, true), env), w2,
                     Scene(CloseTurn(1, true), env), r, id);
  }

  /** A connection of a queue that does not run opens without a muxer. */
  lemma PlainRests(w: World, id: PeerId, d: DialQueue, env: Env) returns (r: World)
    requires Alone(w, id, d) && |w.conns| == 2 && IsAt(w.conns[1], id, Encrypting) && !env.setup.muxers && !d.running
    ensures CanTake(w, CompleteTurn(1, CryptoOp, true)) && r == Take(w, CompleteTurn(1, CryptoOp, true), env)
    ensures Alone(r, id, d.(denials := 0)) && |r.conns| == 2 && IsAt(r.conns[1], id, Connected) && r.cfg == w.cfg
  {
    r := OpensPlain(w, 1, id, d, env);
    NextRests(r, id, d.(denials := 0), env);
  }

  lemma ThreeKept(w: World, a: Scene, w1: World, b: Scene, w2: World, c: Scene, w3: World, id: PeerId)
    returns (run: seq<Scene>)
    requires Wf(w) && Wf(w1) && Wf(w2) && Wf(w3)
    requires CanTake(w, a.turn) && w1 == Take(w, a.turn, a.env) && !GivesUp(w, a.turn, a.env, id)
    requires CanTake(w1, b.turn) && w2 == Take(w1, b.turn, b.env) && !GivesUp(w1, b.turn, b.env, id)
    requires CanTake(w2, c.turn) && w3 == Take(w2, c.turn, c.env) && !GivesUp(w2, c.turn, c.env, id)
    ensures run == [a] + ([b] + ([c] + [])) && CanPlay(w, run) && Play(w, run) == w3 && KeepsDenied(w, run, id)
  {
    KeepsFirst(w2, c, [], id);
    KeepsFirst(w1, b, [c] + [], id);
    KeepsFirst(w, a, [b] + ([c] + []), id);
    run := [a] + ([b] + ([c] + []));
  }

  lemma KeepsFirst(w: World, s: Scene, rest: seq<Scene>, id: PeerId)
    requires Wf(w) && CanTake(w, s.turn) && CanPlay(Take(w, s.turn, s.env), rest)
    requires !GivesUp(w, s.turn, s.env, id) && KeepsDenied(Take(w, s.turn, s.env), rest, id)
    ensures CanPlay(w, [s] + rest) && Play(w, [s] + rest) == Play(Take(w, s.turn, s.env), rest)
    ensures KeepsDenied(w, [s] + rest, id)
  {
    PlayFirst(w, s, rest);
    assert ([s] + rest)[1..] == rest;
  }

  /**
   * With the default settings, a denial does not hold until its deadline when the failures are reset: a
   * connection opens without a muxer and fails while the queue's second dial is in flight; that dial opens
   * without a muxer too, which resets the failures and leaves the denial, and fails. The denial is never given
   * up, and the clock does not go back; still the deadline has come forward, and a dial before the first
   * deadline is accepted.
   */
  lemma ResetShortens(cfg: Config, id: PeerId, first: Request, req: Request, again: Request)
    returns (before: seq<Scene>, after: seq<Scene>, s: Scene)
    requires cfg.maxParallelDials > 0 && cfg.denyTtl == DENY_TTL && cfg.denyAttempts == DENY_ATTEMPTS
    ensures Grows(cfg) && Clocked(before + after) && CanPlay(Init(cfg), before)
    ensures var w := Play(Init(cfg), before);
            && DenialOf(w, id) == Until(329400) && CanPlay(w, after) && KeepsDenied(w, after, id)
            && AcceptsEarly(Play(w, after), id, s)
    ensures s.turn == DialAt(id, again, 300000)
  {
    var w, r;
    before, w := DeniedDialling(cfg, id, first, req);
    after, r := OpensAndFails(w, id);
    s := Scene(DialAt(id, again, 300000), Draws(0.0));
    AcceptsNow(r, id, s, again);
    AllAtZero(before, after);
  }

  lemma AcceptsNow(w: World, id: PeerId, s: Scene, req: Request)
    requires Wf(w) && DenialOf(w, id) == Until(270000) && s.turn == DialAt(id, req, 300000)
    ensures AcceptsEarly(w, id, s)
  {
    AddAnswers(w, id, req, PRIORITY_HIGH, false, 300000, 300000, s.env);
  }

  lemma AllAtZero(before: seq<Scene>, after: seq<Scene>)
    requires forall i :: 0 <= i < |before| ==> before[i].env == Draws(0.99)
    requires forall i :: 0 <= i < |after| ==> after[i].env == Draws(0.0)
    ensures Clocked(before + after)
  {
  }

  /** The deadline is earlier now, and a dial after it is accepted at once. */
  ghost predicate AcceptsEarly(w: World, id: PeerId, s: Scene)
    requires Wf(w)
  {
    && DenialOf(w, id) == Until(270000) && s.turn.DialTurn? && CanTake(w, s.turn)
    && var r := Take(w, s.turn, s.env);
       |w.log| < |r.log| && r.log[|w.log|] == Accepted(id, s.turn.req)
  }
}

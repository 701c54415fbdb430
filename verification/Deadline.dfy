/**
 * How long a push can wait. Every push sets the timer again, and sooner the longer the queue has
 * become, so a buffer that keeps being pushed to is still flushed.
 */
module Deadline {
  import opened Basics
  import opened Stat

  /** A push comes no later than the deadline and no earlier than the last push; only a set timer fires. */
  predicate CanStep(b: Buffer, s: Step) {
    match s
    case Pushed(at) =>
      (b.times != [] ==> b.times[|b.times| - 1] <= at) && (b.deadline.Some? ==> at <= b.deadline.value)
    case Fired => b.deadline.Some?
  }

  ghost predicate CanRun(b: Buffer, steps: seq<Step>, o: Options)
    requires o.computeThrottleMaxQueueSize > 0
    decreases |steps|
  {
    steps == [] || (CanStep(b, steps[0]) && CanRun(Stepped(b, steps[0], o), steps[1..], o))
  }

  function StepAll(b: Buffer, steps: seq<Step>, o: Options): Buffer
    requires o.computeThrottleMaxQueueSize > 0
    decreases |steps|
  {
    if steps == [] then b else StepAll(Stepped(b, steps[0], o), steps[1..], o)
  }

  const EMPTY := Buffer([], None)

  /** A real option set: at least one push fits, and no negative time. */
  predicate Sound(o: Options) { o.computeThrottleMaxQueueSize > 0 && o.computeThrottleTimeout >= 0.0 }

  // ---------------------------------------------------------------- the bound

  /** All waits of the first `n` pushes together. */
  function TotalWait(o: Options, n: nat): real
    requires o.computeThrottleMaxQueueSize > 0
  {
    if n == 0 then 0.0 else TotalWait(o, n - 1) + Wait(o, n)
  }

  /** The n-th part of a time, so that products stay out of sight. */
  function Part(t: real, m: nat): real
    requires m > 0
  {
    t / m as real
  }

  function Product(x: real, n: int): real { x * n as real }

  function Half(t: real, k: int): real { Product(t, k) / 2.0 }

  /** Half the throttle timeout for each push that fits besides the first. */
  function Bound(o: Options): real { Half(o.computeThrottleTimeout, o.computeThrottleMaxQueueSize - 1) }

  lemma WaitIs(o: Options, n: nat)
    requires Sound(o)
    ensures var m := o.computeThrottleMaxQueueSize;
            Wait(o, n) == if n < m then (o.computeThrottleTimeout / m as real) * (m - n) as real else 0.0
  {
    var m, t := o.computeThrottleMaxQueueSize, o.computeThrottleTimeout;
    var u := n as real / m as real;
    assert t * (1.0 - u) == Product(Part(t, m), m - n) by { FractionGrows(t, n, m); }
    Sign(Part(t, m), m - n);
  }

  lemma FractionGrows(t: real, n: nat, m: nat)
    requires m > 0
    ensures t * (1.0 - n as real / m as real) == (t / m as real) * (m - n) as real
  {
    var p := t / m as real;
    assert t == p * m as real;
    assert t * (n as real / m as real) == p * n as real by {
      assert (n as real / m as real) * m as real == n as real;
      assert p * (m as real * (n as real / m as real)) == p * n as real;
      assert (p * m as real) * (n as real / m as real) == p * (m as real * (n as real / m as real));
    }
    assert p * m as real - p * n as real == p * (m - n) as real;
  }

  lemma Sign(p: real, n: int)
    requires p >= 0.0
    ensures n >= 0 ==> Product(p, n) >= 0.0
    ensures n <= 0 ==> Product(p, n) <= 0.0
  {
  }

  /** Twice the number of parts in the first `n` of `m` waits. */
  function Parts(n: int, m: int): int { n * (2 * m - n - 1) }

  lemma PartsStep(n: int, m: int)
    ensures Parts(n, m) == Parts(n - 1, m) + 2 * (m - n)
  {
  }

  lemma AddProducts(p: real, a: int, b: int)
    ensures Product(p, a + b) == Product(p, a) + Product(p, b)
  {
  }

  lemma {:induction false} WaitsAre(o: Options, n: nat)
    requires Sound(o) && n <= o.computeThrottleMaxQueueSize
    ensures var m := o.computeThrottleMaxQueueSize;
            2.0 * TotalWait(o, n) == Product(Part(o.computeThrottleTimeout, m), Parts(n, m))
  {
    var m := o.computeThrottleMaxQueueSize;
    var p := Part(o.computeThrottleTimeout, m);
    if n > 0 {
      WaitsAre(o, n - 1);
      WaitIs(o, n);
      PartsStep(n, m);
      AddProducts(p, Parts(n - 1, m), 2 * (m - n));
      AddProducts(p, m - n, m - n);
      Sign(p, 0);
    }
  }

  /** The waits of a full queue add up to the bound. */
  lemma WaitsReachBound(o: Options)
    requires Sound(o)
    ensures TotalWait(o, o.computeThrottleMaxQueueSize) == Bound(o)
  {
    var m := o.computeThrottleMaxQueueSize;
    WaitsAre(o, m);
    AllParts(m);
    WholeParts(o.computeThrottleTimeout, m, m - 1, Parts(m, m));
  }

  lemma AllParts(m: int)
    ensures Parts(m, m) == m * (m - 1)
  {
  }

  lemma WholeParts(t: real, m: nat, k: int, n: int)
    requires m > 0 && n == m * k
    ensures Product(Part(t, m), n) == Product(t, k)
  {
    assert (t / m as real) * m as real == t;
    assert n as real == m as real * k as real;
  }

  lemma {:induction false} WaitsGrow(o: Options, n: nat, k: nat)
    requires Sound(o) && n <= k
    ensures TotalWait(o, n) <= TotalWait(o, k)
    ensures o.computeThrottleMaxQueueSize <= n ==> TotalWait(o, n) == TotalWait(o, k)
    decreases k
  {
    if n < k {
      WaitsGrow(o, n, k - 1);
      WaitIs(o, k);
      Sign(Part(o.computeThrottleTimeout, o.computeThrottleMaxQueueSize), o.computeThrottleMaxQueueSize - k);
    }
  }

  /** The waits of any number of pushes never add up to more. */
  lemma WaitsBounded(o: Options, n: nat)
    requires Sound(o)
    ensures TotalWait(o, n) <= Bound(o)
  {
    var m := o.computeThrottleMaxQueueSize;
    WaitsReachBound(o);
    if n < m { WaitsGrow(o, n, m); } else { WaitsGrow(o, m, n); }
  }

  // ---------------------------------------------------------------- every run

  /** In every state of a run the timer is set while something waits, and fires in time. */
  ghost predicate InTime(b: Buffer, o: Options)
    requires o.computeThrottleMaxQueueSize > 0
  {
    if b.times == [] then b.deadline == None
    else b.deadline.Some? && b.deadline.value <= b.times[0] + TotalWait(o, |b.times|)
  }

  lemma {:induction false} RunInTime(b: Buffer, steps: seq<Step>, o: Options)
    requires Sound(o) && InTime(b, o) && CanRun(b, steps, o)
    ensures InTime(StepAll(b, steps, o), o)
    decreases |steps|
  {
    if steps != [] { RunInTime(Stepped(b, steps[0], o), steps[1..], o); }
  }

  /** Whatever is pushed and whenever, the buffer is flushed within the bound after its first push. */
  lemma FlushedInTime(o: Options, steps: seq<Step>)
    requires Sound(o) && CanRun(EMPTY, steps, o)
    ensures var b := StepAll(EMPTY, steps, o);
            b.times != [] ==> b.deadline.Some? && b.deadline.value <= b.times[0] + Bound(o)
  {
    RunInTime(EMPTY, steps, o);
    WaitsBounded(o, |StepAll(EMPTY, steps, o).times|);
  }

  // ---------------------------------------------------------------- the bound is exact

  lemma {:induction false} RunMore(b: Buffer, steps: seq<Step>, s: Step, o: Options)
    requires Sound(o) && CanRun(b, steps, o) && CanStep(StepAll(b, steps, o), s)
    ensures CanRun(b, steps + [s], o) && StepAll(b, steps + [s], o) == Stepped(StepAll(b, steps, o), s, o)
    decreases |steps|
  {
    if steps == [] {
      assert [] + [s] == [s];
    } else {
      assert (steps + [s])[1..] == steps[1..] + [s];
      RunMore(Stepped(b, steps[0], o), steps[1..], s, o);
    }
  }

  /** Pushes that each come at the last moment. */
  function Late(o: Options, n: nat): seq<Step>
    requires o.computeThrottleMaxQueueSize > 0
  {
    if n == 0 then [] else Late(o, n - 1) + [Pushed(TotalWait(o, n - 1))]
  }

  lemma {:induction false} LateRun(o: Options, n: nat)
    requires Sound(o)
    ensures CanRun(EMPTY, Late(o, n), o)
    ensures var b := StepAll(EMPTY, Late(o, n), o);
            && |b.times| == n
            && (n > 0 ==>
                  b.times[0] == 0.0 && b.deadline == Some(TotalWait(o, n)) && b.times[n - 1] == TotalWait(o, n - 1))
  {
    if n > 0 {
      LateRun(o, n - 1);
      if n > 1 {
        WaitIs(o, n - 1);
        var m := o.computeThrottleMaxQueueSize;
        Sign(Part(o.computeThrottleTimeout, m), m - (n - 1));
      }
      RunMore(EMPTY, Late(o, n - 1), Pushed(TotalWait(o, n - 1)), o);
    }
  }

  /** Every buffer is flushed within some time of its first push. */
  ghost predicate AlwaysWithin(o: Options, limit: real)
    requires o.computeThrottleMaxQueueSize > 0
  {
    forall steps: seq<Step> {:trigger StepAll(EMPTY, steps, o)} :: CanRun(EMPTY, steps, o) ==>
      var b := StepAll(EMPTY, steps, o);
      b.times != [] ==> b.deadline.Some? && b.deadline.value <= b.times[0] + limit
  }

  /** The bound is the least there is. */
  lemma ExactBound(o: Options, limit: real)
    requires Sound(o)
    ensures AlwaysWithin(o, limit) <==> Bound(o) <= limit
  {
    if Bound(o) <= limit {
      forall steps: seq<Step> | CanRun(EMPTY, steps, o)
        ensures var b := StepAll(EMPTY, steps, o);
                b.times != [] ==> b.deadline.Some? && b.deadline.value <= b.times[0] + limit
      {
        FlushedInTime(o, steps);
      }
    } else {
      var m := o.computeThrottleMaxQueueSize;
      LateRun(o, m);
      WaitsReachBound(o);
      assert !(StepAll(EMPTY, Late(o, m), o).deadline.value <= StepAll(EMPTY, Late(o, m), o).times[0] + limit);
    }
  }

  /** The throttle timeout itself is the maximum interval exactly for queues of at most three. */
  lemma PromisedInterval(o: Options)
    requires Sound(o)
    ensures AlwaysWithin(o, o.computeThrottleTimeout) <==>
            o.computeThrottleMaxQueueSize <= 3 || o.computeThrottleTimeout == 0.0
  {
    ExactBound(o, o.computeThrottleTimeout);
    var t, m := o.computeThrottleTimeout, o.computeThrottleMaxQueueSize;
    HalfOf(t, m);
  }

  lemma HalfOf(t: real, m: nat)
    requires t >= 0.0 && m > 0
    ensures Half(t, m - 1) <= t <==> m <= 3 || t == 0.0
  {
    if m <= 3 {
      if m == 1 {} else if m == 2 {} else {}
    } else if t > 0.0 {
      AddProducts(t, 2, m - 3);
      PositiveProduct(t, m - 3);
    }
  }

  lemma PositiveProduct(t: real, n: int)
    requires t > 0.0 && n > 0
    ensures Product(t, n) > 0.0
  {
  }
}

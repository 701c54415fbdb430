/**
 * One buffered counter: operations wait in a queue until a timer applies them. What was pushed is
 * always either applied or waiting, and the frequency samples integrate to what was applied.
 */
module Stat {
  import opened Basics

  /** An increment of a counter, with the time it was pushed. */
  datatype Increment = Increment(key: string, inc: int, time: int)

  /** A frequency handed to the moving averages of a counter, and the time span it stands for. */
  datatype Sample = Sample(key: string, hz: real, span: int)

  datatype Options = Options(computeThrottleTimeout: real, computeThrottleMaxQueueSize: nat)

  /** The part of a list of operations that falls to a counter. */
  function Total(ops: seq<Increment>, key: string): int {
    if ops == [] then 0 else Total(ops[..|ops| - 1], key) + if ops[|ops| - 1].key == key then ops[|ops| - 1].inc else 0
  }

  /** What the samples of a counter integrate to. */
  function Integral(samples: seq<Sample>, key: string): real {
    if samples == [] then 0.0
    else
      var s := samples[|samples| - 1];
      Integral(samples[..|samples| - 1], key) + if s.key == key then Weight(s) else 0.0
  }

  /** The count a sample stands for, times a thousand: its frequency is per second, its span in milliseconds. */
  function Weight(s: Sample): real { s.hz * s.span as real }

  /** The frequency, per second, of a count over a span in milliseconds. */
  function Rate(count: int, span: int): real
    requires span != 0
  {
    (count as real / span as real) * 1000.0
  }

  function Get(m: map<string, int>, key: string): int {
    if key in m then m[key] else 0
  }

  /** How long to wait after a push that makes the queue `n` long. */
  function Wait(o: Options, n: nat): real
    requires o.computeThrottleMaxQueueSize > 0
  {
    var urgency := n as real / o.computeThrottleMaxQueueSize as real;
    var timeout := o.computeThrottleTimeout * (1.0 - urgency);
    if timeout > 0.0 then timeout else 0.0
  }

  /** The throttle timeout, less an equal part of it for each operation in the queue. */
  function TimeoutAfter(o: Options, n: nat): real
    requires o.computeThrottleMaxQueueSize > 0
  {
    var left := o.computeThrottleTimeout -
               o.computeThrottleTimeout * (n as real / o.computeThrottleMaxQueueSize as real);
    if left > 0.0 then left else 0.0
  }

  /** The times of the waiting pushes, and when the timer fires. */
  datatype Buffer = Buffer(times: seq<real>, deadline: Option<real>)

  /** A push at some time, or the timer firing. */
  datatype Step = Pushed(at: real) | Fired

  /** What a step makes of a buffer. */
  function Stepped(b: Buffer, s: Step, o: Options): Buffer
    requires o.computeThrottleMaxQueueSize > 0
  {
    match s
    case Pushed(at) => Buffer(b.times + [at], Some(at + Wait(o, |b.times| + 1)))
    case Fired => Buffer([], None)
  }

  function Times(ops: seq<Increment>): (r: seq<real>)
    ensures |r| == |ops|
  {
    seq(|ops|, i requires 0 <= i < |ops| => ops[i].time as real)
  }

  lemma {:induction false} TotalConcat(a: seq<Increment>, b: seq<Increment>, key: string)
    ensures Total(a + b, key) == Total(a, key) + Total(b, key)
  {
    if b == [] {
      assert a + b == a;
    } else {
      assert (a + b)[..|a + b| - 1] == a + b[..|b| - 1];
      TotalConcat(a, b[..|b| - 1], key);
    }
  }

  /** One more sample. */
  lemma IntegralPush(samples: seq<Sample>, s: Sample, key: string)
    ensures Integral(samples + [s], key) == Integral(samples, key) + if s.key == key then Weight(s) else 0.0
  {
    assert (samples + [s])[..|samples|] == samples;
  }

  /** A sampled count can be got back from its sample. */
  lemma SampleKeepsCount(key: string, count: int, span: int)
    requires span != 0
    ensures Weight(Sample(key, Rate(count, span), span)) == Thousand(count)
  {
    assert (count as real / span as real) * span as real == count as real;
  }

  /** The samples of every counter account for what was applied, up to what is still accumulated. */
  ghost predicate Integrates(samples: seq<Sample>, accumulated: map<string, int>, done: seq<Increment>) {
    forall k :: Integral(samples, k) + Thousand(Get(accumulated, k)) == Thousand(Total(done, k))
  }

  function Thousand(n: int): real { 1000.0 * n as real }

  /** Sampling a counter moves its accumulated count into the samples. */
  lemma SampleIntegrates(samples: seq<Sample>, accumulated: map<string, int>, done: seq<Increment>, key: string,
                         span: int)
    requires Integrates(samples, accumulated, done) && span != 0
    ensures Integrates(samples + [Sample(key, Rate(Get(accumulated, key), span), span)], accumulated[key := 0], done)
  {
    var count := Get(accumulated, key);
    var sample := Sample(key, Rate(count, span), span);
    SampleKeepsCount(key, count, span);
    forall k
      ensures Integral(samples + [sample], k) + Thousand(Get(accumulated[key := 0], k)) == Thousand(Total(done, k)) {
      IntegralPush(samples, sample, k);
    }
  }

  /** The sample of a counter over a span, which counts as one when it is zero. */
  function SampleOf(accumulated: map<string, int>, key: string, span: int): Sample {
    var s := if span == 0 then 1 else span;
    Sample(key, Rate(Get(accumulated, key), s), s)
  }

  /** One sample of each counter, and no other. */
  ghost predicate OneEach(samples: seq<Sample>, keys: set<string>, accumulated: map<string, int>, span: int) {
    && Distinct(samples)
    && (forall s :: s in samples <==> s.key in keys && s == SampleOf(accumulated, s.key, span))
  }

  lemma OneMore(samples: seq<Sample>, keys: set<string>, accumulated: map<string, int>, span: int, key: string)
    requires OneEach(samples, keys, accumulated, span) && key !in keys
    ensures OneEach(samples + [SampleOf(accumulated, key, span)], keys + {key}, accumulated, span)
  {
    var s := SampleOf(accumulated, key, span);
    assert s.key == key && s !in samples;
    assert forall x :: x in samples + [s] <==> x in samples || x == s;
  }

  /** Applying an operation adds it to its counter. */
  lemma ApplyTotals(stats: map<string, int>, done: seq<Increment>, op: Increment)
    requires forall k :: Get(stats, k) == Total(done, k)
    ensures forall k :: Get(stats[op.key := Get(stats, op.key) + op.inc], k) == Total(done + [op], k)
  {
    assert (done + [op])[..|done|] == done;
  }

  /** Applying an operation accumulates it. */
  lemma ApplyIntegrates(samples: seq<Sample>, accumulated: map<string, int>, done: seq<Increment>, op: Increment)
    requires Integrates(samples, accumulated, done)
    ensures Integrates(samples, accumulated[op.key := Get(accumulated, op.key) + op.inc], done + [op])
  {
    assert (done + [op])[..|done|] == done;
  }

  class Stats {
    ghost const number: nat              // which of the counters of a switch this is
    const options: Options
    var queue: seq<Increment>
    var stats: map<string, int>
    var frequencyAccumulators: map<string, int>
    var frequencyLastTime: int
    var timeout: Option<real>            // when the timer fires, if it is set
    ghost var done: seq<Increment>              // the operations applied, in order
    ghost var samples: seq<Sample>       // the frequencies handed to the moving averages

    /** The counters hold what was applied, and the samples account for it up to the accumulators. */
    ghost predicate Accounted()
      reads this
    {
      && options.computeThrottleMaxQueueSize > 0
      && (forall k :: Get(stats, k) == Total(done, k))
      && (forall i :: 0 <= i < |done| ==> done[i].key in stats)
      && (forall k :: k in frequencyAccumulators ==> k in stats)
      && Integrates(samples, frequencyAccumulators, done)
    }

    /** As Accounted; outside an update the accumulators are zero. */
    ghost predicate Valid()
      reads this
    {
      Accounted() && forall k :: Get(frequencyAccumulators, k) == 0
    }

    /** Everything pushed: what is applied and what waits. */
    ghost function Given(): seq<Increment>
      reads this
    {
      done + queue
    }

    ghost function Buffered(): Buffer
      reads this
    {
      Buffer(Times(queue), timeout)
    }

    constructor (initialCounters: seq<string>, options: Options, now: int, ghost number: nat)
      requires options.computeThrottleMaxQueueSize > 0
      ensures Valid() && this.options == options && this.number == number && done == [] && queue == []
      ensures samples == [] && timeout == None
      ensures frequencyLastTime == now
      ensures forall k :: k in stats <==> k in initialCounters
    {
      this.options, this.number := options, number;
      queue, frequencyAccumulators, frequencyLastTime, timeout := [], map[], now, None;
      stats := map k | k in initialCounters :: 0;
      done, samples := [], [];
    }

    /** The timer is set again if anything waits. */
    method Start(now: real)
      requires Valid()
      modifies this`timeout
      ensures Valid() && timeout == if queue == [] then old(timeout) else Some(now + Wait(options, |queue|))
    {
      if |queue| > 0 { ResetComputeTimeout(now); }
    }

    method Stop()
      requires Valid()
      modifies this`timeout
      ensures Valid() && timeout == None
    {
      if timeout.Some? { timeout := None; }
    }

    /** Puts an operation in the queue, and sets the timer by how long the queue has become. */
    method Push(key: string, inc: int, now: int)
      requires Valid()
      modifies this`queue, this`timeout
      ensures Valid()
      ensures queue == old(queue) + [Increment(key, inc, now)] && Given() == old(Given()) + [Increment(key, inc, now)]
      ensures Buffered() == Stepped(old(Buffered()), Pushed(now as real), options)
      ensures timeout.Some? && timeout.value - now as real == TimeoutAfter(options, |queue|)
    {
      queue := queue + [Increment(key, inc, now)];
      ResetComputeTimeout(now as real);
      assert Times(queue) == Times(old(queue)) + [now as real];
    }

    method ResetComputeTimeout(now: real)
      requires options.computeThrottleMaxQueueSize > 0
      modifies this`timeout
      ensures timeout == Some(now + Wait(options, |queue|))
    {
      timeout := Some(now + Wait(options, |queue|));
    }

    /** The timer fires: everything that waits is applied, and sampled over the time since the last update. */
    method Update()
      requires Valid()
      modifies this
      ensures Valid() && queue == [] && done == old(Given()) && Given() == old(Given())
      ensures Buffered() == Stepped(old(Buffered()), Fired, options)
      ensures forall k :: k in stats <==> k in old(stats) || exists i :: 0 <= i < |old(queue)| && old(queue)[i].key == k
      ensures frequencyLastTime ==
              if old(queue) == [] then old(frequencyLastTime) else old(queue)[|old(queue)| - 1].time
      ensures forall k :: Integral(samples, k) == 1000.0 * (if k in stats then stats[k] else 0) as real
    {
      timeout := None;
      if |queue| > 0 {
        var last := ApplyAll();
        UpdateFrequency(last.time);
      }
    }

    /** Applies the whole queue, first to last, and returns the last operation. */
    method ApplyAll() returns (last: Increment)
      requires Valid() && queue != []
      modifies this`queue, this`stats, this`frequencyAccumulators, this`done
      ensures Accounted() && queue == [] && done == old(Given()) && last == old(queue)[|old(queue)| - 1]
      ensures forall k :: k in stats <==> k in old(stats) || exists i :: 0 <= i < |old(queue)| && old(queue)[i].key == k
    {
      last := queue[|queue| - 1];
      ghost var n := 0;
      while |queue| > 0
        invariant n <= |old(queue)| && queue == old(queue)[n..]
        invariant Accounted() && done == old(done) + old(queue)[..n]
        invariant n > 0 ==> last == old(queue)[n - 1]
        invariant forall k :: k in stats <==> k in old(stats) || exists i :: 0 <= i < n && old(queue)[i].key == k
      {
        var op := queue[0];
        last, queue, n := op, queue[1..], n + 1;
        ApplyOp(op);
      }
    }

    /** Adds one operation to its counter and to its accumulator. */
    method ApplyOp(op: Increment)
      requires Accounted()
      modifies this`stats, this`frequencyAccumulators, this`done
      ensures Accounted() && done == old(done) + [op]
      ensures stats == old(stats)[op.key := Get(old(stats), op.key) + op.inc]
    {
      ApplyIntegrates(samples, frequencyAccumulators, done, op);
      ApplyTotals(stats, done, op);
      var n := Get(stats, op.key);
      stats := stats[op.key := n + op.inc];
      frequencyAccumulators := frequencyAccumulators[op.key := Get(frequencyAccumulators, op.key) + op.inc];
      done := done + [op];
    }

    /** All counters but those with the keys have been sampled since the samples numbered `n` and after. */
    ghost predicate Sampled(keys: set<string>, n: nat, before: map<string, int>, span: int)
      reads this
    {
      && keys <= stats.Keys && n <= |samples|
      && (forall k :: Get(frequencyAccumulators, k) == if k in keys then Get(before, k) else 0)
      && OneEach(samples[n..], stats.Keys - keys, before, span)
    }

    /** Samples every counter over the time since the last update, and empties its accumulator. */
    method UpdateFrequency(latest: int)
      requires Accounted()
      modifies this`frequencyAccumulators, this`frequencyLastTime, this`samples
      ensures Valid() && frequencyLastTime == latest && old(samples) <= samples
      ensures OneEach(samples[|old(samples)|..], stats.Keys, old(frequencyAccumulators),
                      latest - old(frequencyLastTime))
    {
      var span := latest - frequencyLastTime;
      var keys := stats.Keys;
      NoneSampled(|samples|, span);
      while keys != {}
        invariant Accounted() && old(samples) <= samples
        invariant Sampled(keys, |old(samples)|, old(frequencyAccumulators), span)
        decreases keys
      {
        var key :| key in keys;
        SampleNext(key, keys, span, |old(samples)|, old(frequencyAccumulators));
        keys := keys - {key};
      }
      assert stats.Keys - {} == stats.Keys;
      frequencyLastTime := latest;
    }

    lemma NoneSampled(n: nat, span: int)
      requires Accounted() && n == |samples|
      ensures Sampled(stats.Keys, n, frequencyAccumulators, span)
    {
    }

    /** Samples one of the counters that are left. */
    method SampleNext(key: string, ghost keys: set<string>, span: int, ghost n: nat, ghost before: map<string, int>)
      requires Accounted() && Sampled(keys, n, before, span) && key in keys
      modifies this`frequencyAccumulators, this`samples
      ensures Accounted() && Sampled(keys - {key}, n, before, span) && old(samples) <= samples
    {
      OneMore(samples[n..], stats.Keys - keys, before, span, key);
      UpdateFrequencyFor(key, span);
      assert samples[n..] == old(samples[n..]) + [SampleOf(before, key, span)];
      assert stats.Keys - (keys - {key}) == stats.Keys - keys + {key};
    }

    /** Samples one counter and empties its accumulator; a span of zero counts as one. */
    method UpdateFrequencyFor(key: string, span: int)
      requires Accounted() && key in stats
      modifies this`frequencyAccumulators, this`samples
      ensures Accounted()
      ensures frequencyAccumulators == old(frequencyAccumulators)[key := 0]
      ensures samples == old(samples) + [SampleOf(old(frequencyAccumulators), key, span)]
    {
      PushAverages(key, if span == 0 then 1 else span);
      frequencyAccumulators := frequencyAccumulators[key := 0];
    }

    /** Hands the frequency of one counter to its moving averages. */
    method PushAverages(key: string, span: int)
      requires span != 0 && Integrates(samples, frequencyAccumulators, done)
      modifies this`samples
      ensures Integrates(samples, frequencyAccumulators[key := 0], done)
      ensures samples == old(samples) + [Sample(key, Rate(Get(frequencyAccumulators, key), span), span)]
    {
      var hz := Rate(Get(frequencyAccumulators, key), span);
      SampleIntegrates(samples, frequencyAccumulators, done, key, span);
      samples := samples + [Sample(key, hz, span)];
    }
  }
}

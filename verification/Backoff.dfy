/** How long a queue refuses dials after its n-th failure in a row. */
module Backoff {
  function Cube(n: nat): int { n * n * n }

  /** Moves a time to live by a random part of a fifth of it, around its value. */
  function Jittered(ttl: real, draw: real): real {
    var minTtl := ttl * 0.9;
    var maxTtl := ttl * 1.1;
    draw * (maxTtl - minTtl) + minTtl
  }

  /** The jittered multiple of the base, floored to a whole number of milliseconds. */
  function Scaled(base: real, cube: real, draw: real): int {
    Jittered(base * cube, draw).Floor
  }

  /** The time to live of denial number `count`; `draw` is a number in [0, 1). */
  function Ttl(base: real, count: nat, draw: real): int {
    Scaled(base, Cube(count) as real, draw)
  }

  predicate IsDraw(r: real) { 0.0 <= r < 1.0 }

  /** A draw picks a point between two bounds. */
  lemma Between(lo: real, hi: real, r: real)
    requires lo <= hi && IsDraw(r)
    ensures lo <= r * (hi - lo) + lo <= hi
  {
    ProductNonNegative(r, hi - lo);
    ProductNonNegative(1.0 - r, hi - lo);
  }

  /** A draw moves a value by at most a tenth either way. */
  lemma Jitter(ttl: real, draw: real)
    requires ttl >= 0.0 && IsDraw(draw)
    ensures ttl * 0.9 <= Jittered(ttl, draw) <= ttl * 1.1
  {
    Between(ttl * 0.9, ttl * 1.1, draw);
  }

  lemma ProductNonNegative(x: real, y: real)
    requires x >= 0.0 && y >= 0.0
    ensures x * y >= 0.0
  {
  }

  lemma ProductAtLeastOne(x: real, y: real)
    requires x >= 1.0 && y >= 1.0
    ensures x * y >= 1.0
  {
    ProductNonNegative(x - 1.0, y - 1.0);
    assert x * y == (x - 1.0) * (y - 1.0) + x + y - 1.0;
  }

  /** The gap between the shortest next denial and the longest current one, per unit of `base`. */
  lemma Gap(c: nat)
    requires 1 <= c <= 14
    ensures 0 <= Cube(c) && 9 * Cube(c + 1) - 11 * Cube(c) >= 10
  {
    if c == 1 {} else if c == 2 {} else if c == 3 {} else if c == 4 {} else if c == 5 {}
    else if c == 6 {} else if c == 7 {} else if c == 8 {} else if c == 9 {} else if c == 10 {}
    else if c == 11 {} else if c == 12 {} else if c == 13 {} else { assert c == 14; }
  }

  /** Up to the fourteenth denial, the shortest next one outlasts the longest current one. */
  lemma Strict(base: real, c: nat, draw: real, draw': real)
    requires base >= 1.0 && 1 <= c <= 14 && IsDraw(draw) && IsDraw(draw')
    ensures Ttl(base, c, draw) < Ttl(base, c + 1, draw')
  {
    Gap(c);
    StrictFor(base, Cube(c) as real, Cube(c + 1) as real, draw, draw');
  }

  lemma StrictFor(base: real, a: real, b: real, draw: real, draw': real)
    requires base >= 1.0 && a >= 0.0 && b >= 0.0 && 0.9 * b - 1.1 * a >= 1.0 && IsDraw(draw) && IsDraw(draw')
    ensures Scaled(base, a, draw) < Scaled(base, b, draw')
  {
    ProductNonNegative(base, a);
    ProductNonNegative(base, b);
    Jitter(base * a, draw);
    Jitter(base * b, draw');
    Spread(base, a, b);
    StepsUp(Jittered(base * a, draw), Jittered(base * b, draw'));
  }

  lemma Spread(base: real, a: real, b: real)
    requires base >= 1.0 && 0.9 * b - 1.1 * a >= 1.0
    ensures base * b * 0.9 >= base * a * 1.1 + 1.0
  {
    var g := 0.9 * b - 1.1 * a;
    ProductAtLeastOne(base, g);
    assert base * g == base * b * 0.9 - base * a * 1.1;
  }

  lemma StepsUp(x: real, y: real)
    requires y >= x + 1.0
    ensures x.Floor < y.Floor
  {
  }

  /** At the fifteenth denial the largest jitter can outlast the next denial's smallest one. */
  lemma Overtaken(base: real)
    requires base >= 1.0
    ensures Ttl(base, 15, 0.99) >= Ttl(base, 16, 0.0)
  {
    var a, b := base * 3375.0, base * 4096.0;
    assert Jittered(a, 0.99) >= Jittered(b, 0.0);
  }

  /** Every finite denial lasts longer than the one before it, whatever the draws. */
  ghost predicate AlwaysGrows(base: real, attempts: int) {
    forall c: nat, d: nat, r: real, r': real {:trigger Ttl(base, c, r), Ttl(base, d, r')} ::
      1 <= c && d == c + 1 && d < attempts && IsDraw(r) && IsDraw(r') ==> Ttl(base, c, r) < Ttl(base, d, r')
  }

  /** Exactly when the back-off grows for every draw: at most sixteen attempts. */
  lemma GrowsExactly(base: real, attempts: int)
    requires base >= 1.0
    ensures AlwaysGrows(base, attempts) <==> attempts <= 16
  {
    if attempts <= 16 {
      forall c: nat, d: nat, r: real, r': real | 1 <= c && d == c + 1 && d < attempts && IsDraw(r) && IsDraw(r')
        ensures Ttl(base, c, r) < Ttl(base, d, r')
      {
        Strict(base, c, r, r');
      }
    } else {
      Overtaken(base);
      assert IsDraw(0.99) && IsDraw(0.0);
    }
  }
}

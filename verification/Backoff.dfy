/** ReconnectConfig.calcDelay (heartbeat.go), in exact arithmetic: durations are integers, the
    multiplier and the jitter are reals, and converting back to a duration truncates. */
module Backoff {
  import opened Powers

  datatype Config = Config(initial: int, max: int, multiplier: real, jitter: real)

  /** time.Duration(x): toward zero. */
  function Trunc(x: real): int {
    if x >= 0.0 then x.Floor else -((-x).Floor)
  }

  function Scale(delay: int, factor: real): int {
    Trunc(delay as real * factor)
  }

  /** The loop, with this many rounds to go. */
  function Grow(c: Config, delay: int, rounds: nat): int
    decreases rounds
  {
    if rounds > 0 && delay < c.max then Grow(c, Scale(delay, c.multiplier), rounds - 1) else delay
  }

  function Capped(c: Config, attempt: nat): int {
    var delay := Grow(c, c.initial, attempt);
    if delay > c.max then c.max else delay
  }

  function Jittered(c: Config, delay: int): int {
    delay + Scale(delay, c.jitter)
  }

  method CalcDelay(c: Config, attempt: int) returns (r: int)
    ensures r == Jittered(c, Capped(c, if attempt < 0 then 0 else attempt))
  {
    var delay := c.initial;
    var i := 0;
    while i < attempt && delay < c.max
      invariant 0 <= i && (attempt >= 0 ==> i <= attempt)
      invariant attempt >= 0 ==> Grow(c, delay, attempt - i) == Grow(c, c.initial, attempt)
      invariant attempt < 0 ==> delay == c.initial
    {
      delay := Scale(delay, c.multiplier);
      i := i + 1;
    }
    if delay > c.max {
      delay := c.max;
    }
    var jitter := Scale(delay, c.jitter);
    return delay + jitter;
  }

  /** Toward zero, by less than one. */
  lemma TruncMeans(x: real)
    ensures x >= 0.0 ==> 0 <= Trunc(x) && Trunc(x) as real <= x < Trunc(x) as real + 1.0
    ensures x <= 0.0 ==> Trunc(x) <= 0 && Trunc(x) as real - 1.0 < x <= Trunc(x) as real
  {
  }

  lemma ScaleMeans(delay: int, factor: real)
    requires delay >= 0 && factor >= 0.0
    ensures WholePart(Scale(delay, factor), delay as real * factor)
  {
    Product(delay as real, factor);
    TruncMeans(delay as real * factor);
  }

  /** One attempt more multiplies the delay once more, as long as it is below the cap. */
  lemma {:induction false} GrowOnce(c: Config, delay: int, rounds: nat)
    ensures Grow(c, delay, 0) == delay
    ensures var v := Grow(c, delay, rounds);
            Grow(c, delay, rounds + 1) == if v < c.max then Scale(v, c.multiplier) else v
    decreases rounds
  {
    if delay < c.max {
      var next := Scale(delay, c.multiplier);
      assert Grow(c, delay, rounds + 1) == Grow(c, next, rounds);
      if rounds > 0 {
        assert Grow(c, delay, rounds) == Grow(c, next, rounds - 1);
        GrowOnce(c, next, rounds - 1);
        assert Grow(c, next, rounds - 1 + 1) == Grow(c, next, rounds);
      } else {
        assert Grow(c, next, 0) == next && Grow(c, delay, 0) == delay;
      }
    }
  }

  /** The whole part of a number that is not negative. */
  predicate WholePart(n: int, x: real) {
    0 <= n && n as real <= x < n as real + 1.0
  }

  /** The wait is the capped delay and, on top of it, the whole part of its jitter. */
  lemma JitterAmount(c: Config, attempt: nat)
    requires c.initial >= 0 && c.max >= 0 && c.multiplier > 0.0 && c.jitter >= 0.0
    ensures var base := Capped(c, attempt);
            && base == Min(Grow(c, c.initial, attempt), c.max)
            && WholePart(Jittered(c, base) - base, base as real * c.jitter)
  {
    NotNegative(c, attempt);
    JitterOf(c, Capped(c, attempt));
  }

  lemma NotNegative(c: Config, attempt: nat)
    requires c.initial >= 0 && c.max >= 0 && c.multiplier > 0.0
    ensures Capped(c, attempt) >= 0
  {
    ValuesBounded(c, c.initial, attempt);
  }

  lemma JitterOf(c: Config, base: int)
    requires base >= 0 && c.jitter >= 0.0
    ensures WholePart(Jittered(c, base) - base, base as real * c.jitter)
  {
    Product(base as real, c.jitter);
    TruncMeans(base as real * c.jitter);
  }

  lemma TruncMonotone(x: real, y: real)
    requires x <= y
    ensures Trunc(x) <= Trunc(y)
  {
  }

  lemma ScaleGrows(delay: int, factor: real)
    requires delay >= 0 && factor >= 1.0
    ensures Scale(delay, factor) >= delay
  {
    var x := delay as real;
    assert x * factor == x + x * (factor - 1.0);
    Product(x, factor - 1.0);
    TruncMonotone(x, x * factor);
  }

  lemma Product(x: real, y: real)
    requires x >= 0.0 && y >= 0.0
    ensures x * y >= 0.0
  {
  }

  lemma ProductMonotone(x: real, y: real, factor: real)
    requires x <= y && factor >= 0.0
    ensures x * factor <= y * factor
  {
    Product(y - x, factor);
    assert (y - x) * factor == y * factor - x * factor;
  }

  lemma {:induction false} GrowAtLeast(c: Config, delay: int, rounds: nat)
    requires delay >= 0 && c.multiplier >= 1.0
    ensures Grow(c, delay, rounds) >= delay
    decreases rounds
  {
    if rounds > 0 && delay < c.max {
      ScaleGrows(delay, c.multiplier);
      GrowAtLeast(c, Scale(delay, c.multiplier), rounds - 1);
    }
  }

  lemma {:induction false} GrowMonotone(c: Config, delay: int, a: nat, b: nat)
    requires delay >= 0 && c.multiplier >= 1.0 && a <= b
    ensures Grow(c, delay, a) <= Grow(c, delay, b)
    decreases a
  {
    if a == 0 {
      GrowAtLeast(c, delay, b);
    } else if delay < c.max {
      ScaleGrows(delay, c.multiplier);
      GrowMonotone(c, Scale(delay, c.multiplier), a - 1, b - 1);
    }
  }

  lemma ScaleMonotone(x: int, y: int, factor: real)
    requires x <= y && factor >= 0.0
    ensures Scale(x, factor) <= Scale(y, factor)
  {
    var a, b := x as real * factor, y as real * factor;
    ProductMonotone(x as real, y as real, factor);
    TruncMonotone(a, b);
    assert Scale(x, factor) == Trunc(a) && Scale(y, factor) == Trunc(b);
  }

  lemma JitterMonotone(c: Config, x: int, y: int)
    requires x <= y && c.jitter >= 0.0
    ensures Jittered(c, x) <= Jittered(c, y)
  {
    ScaleMonotone(x, y, c.jitter);
  }

  /** A later attempt never waits less. */
  lemma DelayNonDecreasing(c: Config, a: nat, b: nat)
    requires c.initial >= 0 && c.multiplier >= 1.0 && c.jitter >= 0.0 && a <= b
    ensures Jittered(c, Capped(c, a)) <= Jittered(c, Capped(c, b))
  {
    GrowMonotone(c, c.initial, a, b);
    JitterMonotone(c, Capped(c, a), Capped(c, b));
  }

  /** No attempt waits longer than the cap and its jitter. */
  lemma DelayBounded(c: Config, attempt: nat)
    requires c.jitter >= 0.0
    ensures Jittered(c, Capped(c, attempt)) <= c.max + Scale(c.max, c.jitter)
  {
    JitterMonotone(c, Capped(c, attempt), c.max);
  }

  /** Before the cap no value that delay takes, except the first, reaches the cap times the
      multiplier, so that nothing overflows a duration which that product fits. */
  lemma {:induction false} ValuesBounded(c: Config, delay: int, rounds: nat)
    requires delay >= 0 && c.multiplier > 0.0
    ensures var v := Grow(c, delay, rounds);
            v >= 0 && (v == delay || v as real < c.max as real * c.multiplier)
    decreases rounds
  {
    if rounds > 0 && delay < c.max {
      ScaleBelow(delay, c.max, c.multiplier);
      ValuesBounded(c, Scale(delay, c.multiplier), rounds - 1);
    }
  }

  lemma ScaleBelow(delay: int, bound: int, factor: real)
    requires 0 <= delay < bound && factor > 0.0
    ensures 0 <= Scale(delay, factor) && Scale(delay, factor) as real < bound as real * factor
  {
    Product(delay as real, factor);
    StrictProduct(delay as real, bound as real, factor);
  }

  lemma StrictProduct(x: real, y: real, factor: real)
    requires x < y && factor > 0.0
    ensures x * factor < y * factor
  {
    assert y * factor - x * factor == (y - x) * factor;
  }

  lemma {:induction false} GrowDoubles(c: Config, delay: int, rounds: nat)
    requires c.multiplier == 2.0 && delay >= 0
    ensures Min(Grow(c, delay, rounds), c.max) == Min(delay * Pow2(rounds), c.max)
    decreases rounds
  {
    if rounds > 0 {
      if delay < c.max {
        assert Scale(delay, 2.0) == 2 * delay by {
          assert delay as real * 2.0 == (2 * delay) as real;
        }
        GrowDoubles(c, 2 * delay, rounds - 1);
        assert (2 * delay) * Pow2(rounds - 1) == delay * Pow2(rounds);
      } else {
        AtLeast(delay, Pow2(rounds));
      }
    }
  }

  lemma AtLeast(x: int, p: nat)
    requires x >= 0 && p >= 1
    ensures x * p >= x
  {
  }

  function Min(x: int, y: int): int {
    if x > y then y else x
  }

  /** With the default multiplier the delay doubles until it meets the cap. */
  lemma DoublesUntilCapped(c: Config, attempt: nat)
    requires c.multiplier == 2.0 && c.initial >= 0
    ensures Capped(c, attempt) == Min(c.initial * Pow2(attempt), c.max)
  {
    GrowDoubles(c, c.initial, attempt);
  }
}

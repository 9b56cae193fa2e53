/** The retry policy: a capped geometric delay with up to 30% of jitter. Products go by the
    name `Times`, so that a proof can hide what a product is and use the few laws it needs. */
module Backoff {
  import opened Common

  datatype Config = Config(initialDelay: int, multiplier: real, maxRetries: int, maxDelay: int, jitter: bool)
  {
    /** No setting is negative. */
    ghost predicate Positive() { 0 <= initialDelay && 0 <= maxDelay && 0.0 <= multiplier }

    /** The settings delays are meant for: delays do not shrink either. */
    ghost predicate Sensible() { Positive() && 1.0 <= multiplier }

    /** Whether another retry is allowed after `attempt` retries. */
    predicate ShouldRetry(attempt: int) { attempt < maxRetries }

    /** The delay before jitter and before it is cut to a whole number of nanoseconds. */
    function Base(attempt: int): real {
      if attempt <= 0 then 0.0 else Min(maxDelay as real, Geometric(initialDelay as real, multiplier, attempt))
    }

    /** The delay before the retry that follows attempt number `attempt`; `draw` is the
        random number in [0, 1) taken for the jitter. */
    function Calculate(attempt: int, draw: real): int {
      var delay := Base(attempt);
      Truncate(if jitter then delay + 0.3 * Times(delay, draw) else delay)
    }
  }

  const DEFAULT := Config(1 * SECOND, 2.0, 3, 30 * SECOND, true)

  function Times(x: real, y: real): real { x * y }

  /** The delay after attempt k before it is capped: initial * m^(k-1), see `GeometricIsPower`. */
  function Geometric(initial: real, m: real, k: nat): real
    requires 1 <= k
  {
    if k == 1 then initial else Times(m, Geometric(initial, m, k - 1))
  }

  function Pow(base: real, exponent: nat): real {
    if exponent == 0 then 1.0 else Times(base, Pow(base, exponent - 1))
  }

  function Min(x: real, y: real): real { if x <= y then x else y }

  /** Conversion of a float64 to a Duration: towards zero. */
  function Truncate(x: real): int { if x < 0.0 then -((-x).Floor) else x.Floor }

  // --- Laws of products ---

  lemma TimesUnit(x: real)
    ensures Times(x, 0.0) == 0.0 && Times(x, 1.0) == x
    ensures Times(0.0, x) == 0.0 && Times(1.0, x) == x
  {
  }

  lemma TimesMonotone(k: real, x: real, y: real)
    requires 0.0 <= k && x <= y
    ensures Times(k, x) <= Times(k, y) && Times(x, k) <= Times(y, k)
    ensures 0.0 < k && x < y ==> Times(k, x) < Times(k, y)
  {
    hide Times;
    var d := y - x;
    TimesAdds(x, d, k);
    TimesCommutes(k, x);
    TimesCommutes(k, y);
    TimesSign(d, k);
  }

  lemma TimesSign(x: real, y: real)
    requires 0.0 <= x && 0.0 <= y
    ensures 0.0 <= Times(x, y)
    ensures 0.0 < x && 0.0 < y ==> 0.0 < Times(x, y)
  {
  }

  lemma TimesCommutes(x: real, y: real)
    ensures Times(x, y) == Times(y, x)
  {
  }

  lemma TimesAdds(x: real, y: real, k: real)
    ensures Times(x + y, k) == Times(x, k) + Times(y, k)
    ensures Times(x - y, k) == Times(x, k) - Times(y, k)
    ensures Times(k, x - y) == Times(x, k) - Times(y, k)
  {
  }

  lemma TimesSwaps(x: real, y: real, z: real)
    ensures Times(x, Times(y, z)) == Times(y, Times(x, z))
  {
    assert x * (y * z) == y * (x * z);
  }

  lemma TimesConstant(x: real)
    requires 0.0 <= x
    ensures Times(1.3, x) == 1.3 * x && Times(x, 1.3) == 1.3 * x
  {
  }

  lemma TimesInverts(s: real, q: real)
    requires q != 0.0
    ensures s == Times(s, q) / q
  {
  }

  lemma TimesDivides(t: real, q: real)
    requires q != 0.0
    ensures Times(t / q, q) == t
  {
  }

  // --- The geometric delay ---

  lemma {:induction false} GeometricIsPower(initial: real, m: real, k: nat)
    requires 1 <= k
    ensures Geometric(initial, m, k) == Times(initial, Pow(m, k - 1))
  {
    hide Times;
    if k == 1 {
      TimesUnit(initial);
    } else {
      GeometricIsPower(initial, m, k - 1);
      TimesSwaps(m, initial, Pow(m, k - 2));
    }
  }

  lemma {:induction false} GeometricIsPositive(initial: real, m: real, k: nat)
    requires 0.0 <= initial && 0.0 <= m && 1 <= k
    ensures 0.0 <= Geometric(initial, m, k)
  {
    hide Times;
    if k == 1 {
    } else {
      GeometricIsPositive(initial, m, k - 1);
      TimesSign(m, Geometric(initial, m, k - 1));
    }
  }

  lemma {:induction false} GeometricGrows(initial: real, m: real, a: nat, b: nat)
    requires 0.0 <= initial && 1.0 <= m && 1 <= a <= b
    ensures 0.0 <= Geometric(initial, m, a) <= Geometric(initial, m, b)
    decreases b
  {
    hide Times;
    if b == 1 {
    } else {
      GeometricGrows(initial, m, if a == b then a - 1 else a, b - 1);
      TimesMonotone(Geometric(initial, m, b - 1), 1.0, m);
      TimesUnit(Geometric(initial, m, b - 1));
    }
  }

  /** Bernoulli's inequality. */
  lemma {:induction false} GeometricIsAtLeastLinear(initial: real, m: real, k: nat)
    requires 1.0 <= initial && 1.0 <= m && 1 <= k
    ensures 1.0 + Times((k - 1) as real, m - 1.0) <= Geometric(initial, m, k)
  {
    hide Times;
    TimesUnit(m - 1.0);
    if k == 1 {
    } else {
      GeometricIsAtLeastLinear(initial, m, k - 1);
      GeometricGrows(initial, m, 1, k - 1);
      var g := Geometric(initial, m, k - 1);
      TimesMonotone(m - 1.0, 1.0, g);
      TimesAdds(m, 1.0, g);
      TimesUnit(g);
      TimesAdds((k - 2) as real, 1.0, m - 1.0);
    }
  }

  lemma GeometricGrowsByAThird(initial: real, m: real, k: nat)
    requires 0.0 <= initial && 1.3 <= m && 1 <= k
    ensures 0.0 <= 1.3 * Geometric(initial, m, k) <= Geometric(initial, m, k + 1)
  {
    hide Times;
    GeometricGrows(initial, m, k, k);
    TimesMonotone(Geometric(initial, m, k), 1.3, m);
    TimesConstant(Geometric(initial, m, k));
  }

  // --- Single delays ---

  lemma BaseIsPositive(c: Config, attempt: int)
    requires c.Positive()
    ensures 0.0 <= c.Base(attempt)
  {
    if 0 < attempt {
      GeometricIsPositive(c.initialDelay as real, c.multiplier, attempt);
    }
  }

  lemma BaseIsMonotone(c: Config, a: int, b: int)
    requires c.Sensible() && a <= b
    ensures 0.0 <= c.Base(a) <= c.Base(b)
  {
    hide Times;
    if 0 < a {
      GeometricGrows(c.initialDelay as real, c.multiplier, a, b);
    } else if 0 < b {
      GeometricGrows(c.initialDelay as real, c.multiplier, b, b);
    }
  }

  /** With jitter or without, a delay lies between the base delay and 1.3 times it. */
  lemma DelayRange(c: Config, attempt: int, draw: real)
    requires c.Positive() && 0.0 <= draw < 1.0
    ensures c.Base(attempt).Floor <= c.Calculate(attempt, draw)
    ensures c.Calculate(attempt, draw) as real <= 1.3 * c.Base(attempt)
    ensures 0.0 < c.Base(attempt) ==> c.Calculate(attempt, draw) as real < 1.3 * c.Base(attempt)
    ensures !c.jitter ==> c.Calculate(attempt, draw) == c.Base(attempt).Floor
  {
    hide Times, Geometric;
    BaseIsPositive(c, attempt);
    TimesMonotone(c.Base(attempt), 0.0, draw);
    TimesMonotone(c.Base(attempt), draw, 1.0);
    TimesUnit(c.Base(attempt));
  }

  lemma BaseMeans(c: Config, attempt: int)
    requires 1 <= attempt
    ensures var power := Times(c.initialDelay as real, Pow(c.multiplier, attempt - 1));
            c.Base(attempt) == if power <= c.maxDelay as real then power else c.maxDelay as real
  {
    GeometricIsPower(c.initialDelay as real, c.multiplier, attempt);
    hide Geometric, Pow, Times;
  }

  /** What a delay is: nothing before the first attempt, then initial * m^(attempt-1) up to the
      maximum, with that times 0.3 times the draw on top, cut down to a whole number. */
  lemma CalculateMeans(c: Config, attempt: int, draw: real)
    requires c.Positive() && 0.0 <= draw < 1.0
    ensures attempt <= 0 ==> c.Calculate(attempt, draw) == 0
    ensures 1 <= attempt ==>
              var power := Times(c.initialDelay as real, Pow(c.multiplier, attempt - 1));
              var uncut := if power <= c.maxDelay as real then power else c.maxDelay as real;
              && (!c.jitter ==> c.Calculate(attempt, draw) == uncut.Floor)
              && (c.jitter ==> c.Calculate(attempt, draw) == (uncut + 0.3 * Times(uncut, draw)).Floor)
              && (c.jitter ==>
                    uncut.Floor <= c.Calculate(attempt, draw) && c.Calculate(attempt, draw) as real <= 1.3 * uncut)
  {
    hide Geometric, Pow, Times;
    if 1 <= attempt {
      BaseMeans(c, attempt);
      hide Config.Base;
      BaseIsPositive(c, attempt);
      DelayRange(c, attempt, draw);
      TimesSign(c.Base(attempt), draw);
    } else {
      TimesUnit(draw);
    }
  }

  lemma TimesIsTheProduct(x: real, y: real)
    ensures Times(x, y) == x * y
  {
  }

  /** The delays of the default policy before jitter, in seconds: 0, 1, 2, 4, 8, 16, 30, 30. */
  lemma DefaultDelays(draw: real)
    requires 0.0 <= draw < 1.0
    ensures var c := DEFAULT.(jitter := false);
            && c.Calculate(0, draw) == 0
            && c.Calculate(1, draw) == 1_000_000_000 && c.Calculate(2, draw) == 2_000_000_000
            && c.Calculate(3, draw) == 4_000_000_000 && c.Calculate(4, draw) == 8_000_000_000
            && c.Calculate(5, draw) == 16_000_000_000
            && c.Calculate(6, draw) == c.Calculate(7, draw) == 30_000_000_000
  {
    DefaultReachesTheCap();
    var second := SECOND as real;
    assert Geometric(second, 2.0, 2) == 2.0 * second && Geometric(second, 2.0, 3) == 4.0 * second;
    assert Geometric(second, 2.0, 4) == 8.0 * second && Geometric(second, 2.0, 5) == 16.0 * second;
  }

  /** Without jitter a later attempt never waits less. */
  lemma DelayIsMonotone(c: Config, a: int, b: int, drawA: real, drawB: real)
    requires c.Sensible() && !c.jitter && a <= b
    ensures c.Calculate(a, drawA) <= c.Calculate(b, drawB)
  {
    hide Times, Geometric;
    BaseIsMonotone(c, a, b);
  }

  /** How many steps of size `step` reach `target`. */
  lemma StepsTo(target: real, step: real) returns (steps: nat)
    requires 0.0 <= target && 0.0 < step
    ensures target <= Times(steps as real, step)
  {
    hide Times;
    var quotient := target / step;
    TimesDivides(target, step);
    if quotient < 0.0 {
      TimesMonotone(step, quotient, 0.0);
      TimesUnit(step);
    }
    steps := if quotient < 0.0 then 0 else quotient.Floor + 1;
    TimesMonotone(step, quotient, steps as real);
  }

  /** From some attempt on, a growing delay stays at the cap. */
  lemma DelayReachesTheCap(c: Config) returns (n: nat)
    requires c.Sensible() && 1.0 < c.multiplier && 0 < c.initialDelay
    ensures forall attempt: int :: n <= attempt ==> c.Base(attempt) == c.maxDelay as real
    ensures !c.jitter ==> forall attempt: int :: n <= attempt ==> c.Calculate(attempt, 0.0) == c.maxDelay
  {
    hide Times, Geometric;
    var steps := StepsTo(c.maxDelay as real, c.multiplier - 1.0);
    n := steps + 1;
    GeometricIsAtLeastLinear(c.initialDelay as real, c.multiplier, n);
    forall attempt: int | n <= attempt
      ensures c.Base(attempt) == c.maxDelay as real
      ensures !c.jitter ==> c.Calculate(attempt, 0.0) == c.maxDelay
    {
      GeometricGrows(c.initialDelay as real, c.multiplier, n, attempt);
      DelayRange(c, attempt, 0.0);
    }
  }

  /** While the next delay is still below the cap, a multiplier of at least 1.3 keeps attempts
      in order: no jittered delay exceeds a delay of the next attempt, whatever is drawn. */
  lemma JitterKeepsOrderBelowTheCap(c: Config, attempt: int, draw: real, nextDraw: real)
    requires c.Sensible() && 1.3 <= c.multiplier && 0.0 <= draw < 1.0 && 0.0 <= nextDraw < 1.0
    requires 1 <= attempt && Geometric(c.initialDelay as real, c.multiplier, attempt + 1) <= c.maxDelay as real
    ensures c.Calculate(attempt, draw) <= c.Calculate(attempt + 1, nextDraw)
  {
    hide Times, Geometric;
    DelayRange(c, attempt, draw);
    DelayRange(c, attempt + 1, nextDraw);
    GeometricGrowsByAThird(c.initialDelay as real, c.multiplier, attempt);
  }

  /** The longest delay the jitter can make of a base delay: it stays strictly below 1.3 times. */
  function Longest(base: real): int { if base == 0.0 then 0 else -((-1.3 * base).Floor) - 1 }

  lemma LongestIsReached(base: real) returns (draw: real)
    requires 0.0 <= base
    ensures 0.0 <= draw < 1.0
    ensures Longest(base) as real <= base + 0.3 * Times(base, draw)
  {
    hide Times;
    var excess := (Longest(base) as real - base) / 0.3;
    if excess <= 0.0 {
      draw := 0.0;
      TimesUnit(base);
    } else {
      draw := excess / base;
      TimesDivides(excess, base);
      TimesCommutes(base, draw);
      if draw < 0.0 {
        TimesMonotone(base, draw, 0.0);
        TimesUnit(base);
      } else if 1.0 <= draw {
        TimesMonotone(base, 1.0, draw);
        TimesUnit(base);
      }
    }
  }

  /** Jitter comes on top of the cap. For some draw the delay exceeds it exactly when the longest
      delay does; without jitter it never does. */
  lemma ExceedsTheCapExactly(c: Config, attempt: int)
    requires c.Positive()
    ensures c.jitter ==>
              ((exists draw: real :: 0.0 <= draw < 1.0 && c.maxDelay < c.Calculate(attempt, draw))
               <==> c.maxDelay < Longest(c.Base(attempt)))
    ensures !c.jitter ==> forall draw: real | 0.0 <= draw < 1.0 :: c.Calculate(attempt, draw) <= c.maxDelay
  {
    hide Times, Geometric;
    BaseIsPositive(c, attempt);
    forall draw: real | 0.0 <= draw < 1.0
      ensures c.Calculate(attempt, draw) <= Longest(c.Base(attempt))
      ensures !c.jitter ==> c.Calculate(attempt, draw) <= c.maxDelay
    {
      DelayRange(c, attempt, draw);
    }
    var draw := LongestIsReached(c.Base(attempt));
    assert c.jitter ==> Longest(c.Base(attempt)) <= c.Calculate(attempt, draw);
  }

  /** Under the default policy that happens as soon as the cap is reached: attempt 6, drawing a
      half, would wait 34.5 of at most 30 seconds. */
  lemma DefaultExceedsTheCap()
    ensures DEFAULT.Calculate(6, 0.5) == 34_500_000_000 > DEFAULT.maxDelay
  {
    DefaultReachesTheCap();
  }

  lemma DefaultReachesTheCap()
    ensures DEFAULT.Base(6) == DEFAULT.Base(7) == 30.0 * SECOND as real
  {
    var second := SECOND as real;
    assert Geometric(second, 2.0, 2) == 2.0 * second;
    assert Geometric(second, 2.0, 4) == 8.0 * second;
    assert Geometric(second, 2.0, 6) == 32.0 * second;
  }

  /** A delay does not exceed one of the next attempt, for these two draws. */
  ghost predicate InOrder(c: Config, attempt: int, draw: real, nextDraw: real) {
    0.0 <= draw < 1.0 && 0.0 <= nextDraw < 1.0 ==>
      c.Calculate(attempt, draw) <= c.Calculate(attempt + 1, nextDraw)
  }

  /** In general, attempts stay in order for all draws exactly when the longest delay of the
      earlier one does not exceed the base delay of the later one. At the cap they do not. */
  lemma {:induction false} JitterKeepsOrderExactly(c: Config, attempt: int)
    requires c.Sensible() && c.jitter && 1 <= attempt
    ensures (forall draw: real, nextDraw: real :: InOrder(c, attempt, draw, nextDraw))
            <==> Longest(c.Base(attempt)) <= c.Base(attempt + 1).Floor
  {
    hide Times, Geometric;
    BaseIsMonotone(c, attempt, attempt + 1);
    if Longest(c.Base(attempt)) <= c.Base(attempt + 1).Floor {
      forall draw: real, nextDraw: real ensures InOrder(c, attempt, draw, nextDraw) {
        if 0.0 <= draw < 1.0 && 0.0 <= nextDraw < 1.0 {
          DelayRange(c, attempt, draw);
          DelayRange(c, attempt + 1, nextDraw);
        }
      }
    } else {
      var draw := LongestIsReached(c.Base(attempt));
      TimesUnit(c.Base(attempt + 1));
      assert !InOrder(c, attempt, draw, 0.0);
    }
  }

  /** Such a case: the capped attempts 6 and 7 of the default policy can be out of order. */
  lemma DefaultOvertakesAtTheCap()
    ensures !InOrder(DEFAULT, 6, 0.5, 0.0)
  {
    DefaultReachesTheCap();
  }

  /** But with three retries the handler never asks for these: all attempts for which it does
      compute a delay are in order. */
  lemma DefaultStaysInOrder(attempt: int, draw: real, nextDraw: real)
    requires 0 <= attempt && DEFAULT.ShouldRetry(attempt + 1)
    ensures InOrder(DEFAULT, attempt, draw, nextDraw)
  {
    if 0.0 <= draw < 1.0 && 0.0 <= nextDraw < 1.0 {
      if attempt == 0 {
        BaseIsPositive(DEFAULT, 1);
        DelayRange(DEFAULT, 1, nextDraw);
      } else {
        assert Geometric(SECOND as real, 2.0, attempt + 1) <= 30.0 * SECOND as real;
        JitterKeepsOrderBelowTheCap(DEFAULT, attempt, draw, nextDraw);
      }
    }
  }

  // --- The whole wait of one invocation ---

  ghost predicate Draws(draws: seq<real>) { forall k | 0 <= k < |draws| :: 0.0 <= draws[k] < 1.0 }

  /** The delays armed after attempts 0, 1, ..., |draws| - 1. */
  function Delays(c: Config, draws: seq<real>): seq<int> {
    seq(|draws|, k requires 0 <= k < |draws| => c.Calculate(k, draws[k]))
  }

  function Sum(delays: seq<int>): int {
    if delays == [] then 0 else Sum(delays[..|delays| - 1]) + delays[|delays| - 1]
  }

  function TotalWait(c: Config, draws: seq<real>): int { Sum(Delays(c, draws)) }

  /** initial + initial * m + ... + initial * m^(n-1) */
  function GeometricSum(initial: real, m: real, n: nat): real {
    if n == 0 then 0.0 else GeometricSum(initial, m, n - 1) + Geometric(initial, m, n)
  }

  lemma {:induction false} GeometricSumGrows(initial: real, m: real, a: nat, b: nat)
    requires 0.0 <= initial && 0.0 <= m && a <= b
    ensures GeometricSum(initial, m, a) <= GeometricSum(initial, m, b)
    decreases b
  {
    hide Geometric;
    if a == b {
    } else {
      GeometricSumGrows(initial, m, a, b - 1);
      GeometricIsPositive(initial, m, b);
    }
  }

  lemma {:induction false} GeometricSumTelescopes(initial: real, m: real, n: nat)
    ensures Times(GeometricSum(initial, m, n), m - 1.0) == Geometric(initial, m, n + 1) - initial
  {
    hide Times;
    TimesUnit(m - 1.0);
    if n == 0 {
    } else {
      GeometricSumTelescopes(initial, m, n - 1);
      var g := Geometric(initial, m, n);
      TimesAdds(GeometricSum(initial, m, n - 1), g, m - 1.0);
      TimesAdds(m, 1.0, g);
      TimesUnit(g);
    }
  }

  /** initial * (m^n - 1) / (m - 1) */
  function ClosedSum(initial: real, m: real, n: nat): real
    requires m != 1.0
  {
    Times(initial, Pow(m, n) - 1.0) / (m - 1.0)
  }

  lemma GeometricSumClosed(initial: real, m: real, n: nat)
    requires 1.0 < m
    ensures GeometricSum(initial, m, n) == ClosedSum(initial, m, n)
  {
    hide Times;
    GeometricSumTelescopes(initial, m, n);
    GeometricIsPower(initial, m, n + 1);
    TimesCommutes(initial, Pow(m, n));
    TimesAdds(Pow(m, n), 1.0, initial);
    TimesUnit(initial);
    TimesInverts(GeometricSum(initial, m, n), m - 1.0);
  }

  lemma {:induction false} SumBelowCaps(delays: seq<int>, max: real)
    requires 1 <= |delays| && delays[0] <= 0
    requires forall k | 1 <= k < |delays| :: delays[k] as real <= 1.3 * max
    ensures Sum(delays) as real <= 1.3 * Times((|delays| - 1) as real, max)
  {
    hide Times;
    var n := |delays| - 1;
    TimesUnit(max);
    if n == 0 {
      assert Sum(delays[..0]) == 0;
    } else {
      SumBelowCaps(delays[..n], max);
      TimesAdds((n - 1) as real, 1.0, max);
    }
  }

  lemma {:induction false} SumBelowPowers(delays: seq<int>, initial: real, m: real)
    requires 1 <= |delays| && delays[0] <= 0
    requires forall k | 1 <= k < |delays| :: delays[k] as real <= 1.3 * Geometric(initial, m, k)
    ensures Sum(delays) as real <= 1.3 * GeometricSum(initial, m, |delays| - 1)
  {
    hide Geometric;
    var n := |delays| - 1;
    if n == 0 {
      assert Sum(delays[..0]) == 0;
    } else {
      SumBelowPowers(delays[..n], initial, m);
    }
  }

  /** A history of R = |draws| retries, the first of them immediate, waits altogether at most
      1.3 * (R-1) * maxDelay and at most 1.3 * initialDelay * (m^(R-1) - 1) / (m - 1). */
  lemma TotalWaitBound(c: Config, draws: seq<real>)
    requires c.Positive() && 1 <= |draws| && Draws(draws)
    ensures TotalWait(c, draws) as real <= 1.3 * Times((|draws| - 1) as real, c.maxDelay as real)
    ensures 1.0 < c.multiplier ==>
              TotalWait(c, draws) as real <= 1.3 * ClosedSum(c.initialDelay as real, c.multiplier, |draws| - 1)
  {
    hide Times, Geometric, GeometricSum, ClosedSum, Sum;
    var initial := c.initialDelay as real;
    forall k | 0 <= k < |draws|
      ensures Delays(c, draws)[k] as real <= 1.3 * c.Base(k)
    {
      DelayRange(c, k, draws[k]);
    }
    SumBelowCaps(Delays(c, draws), c.maxDelay as real);
    SumBelowPowers(Delays(c, draws), initial, c.multiplier);
    if 1.0 < c.multiplier {
      GeometricSumClosed(initial, c.multiplier, |draws| - 1);
    }
  }

  /** Under the default policy that is 3.9 seconds. */
  lemma DefaultTotalWait(draws: seq<real>)
    requires |draws| <= DEFAULT.maxRetries && Draws(draws)
    ensures TotalWait(DEFAULT, draws) as real <= 3.9 * SECOND as real
  {
    if draws != [] {
      TotalWaitBound(DEFAULT, draws);
      assert Pow(2.0, 1) == 2.0 && Pow(2.0, 2) == 4.0;
    }
  }

  lemma {:induction false} SumOrder(a: seq<int>, b: seq<int>)
    requires |a| == |b| && forall k | 0 <= k < |a| :: a[k] <= b[k]
    ensures Sum(a) <= Sum(b)
  {
    if a == [] {
    } else {
      SumOrder(a[..|a| - 1], b[..|b| - 1]);
    }
  }

  /** A history waits at least as long as its delays before jitter. */
  lemma TotalWaitAtLeast(c: Config, draws: seq<real>)
    requires c.Positive() && Draws(draws)
    ensures TotalWait(c.(jitter := false), draws) <= TotalWait(c, draws)
  {
    hide Sum;
    var bare := c.(jitter := false);
    forall k | 0 <= k < |draws| ensures Delays(bare, draws)[k] <= Delays(c, draws)[k] {
      DelayRange(c, k, draws[k]);
      DelayRange(bare, k, draws[k]);
      assert bare.Base(k) == c.Base(k);
    }
    hide Config.Calculate, Config.Base;
    SumOrder(Delays(bare, draws), Delays(c, draws));
  }

  /** Under the default policy, three retries wait at least 3 seconds. */
  lemma DefaultTotalWaitAtLeast(draws: seq<real>)
    requires |draws| == 3 && Draws(draws)
    ensures 3 * SECOND <= TotalWait(DEFAULT, draws)
  {
    var bare := DEFAULT.(jitter := false);
    TotalWaitAtLeast(DEFAULT, draws);
    DefaultDelays(draws[0]);
    DefaultDelays(draws[1]);
    DefaultDelays(draws[2]);
    var delays := Delays(bare, draws);
    assert delays == [0, 1 * SECOND, 2 * SECOND];
    hide Config.Calculate, Delays;
    SumOfThree(0, 1 * SECOND, 2 * SECOND);
  }

  lemma SumOfThree(x: int, y: int, z: int)
    ensures Sum([x, y, z]) == x + y + z
  {
    assert [x, y, z][..2] == [x, y] && [x, y][..1] == [x] && [x][..0] == [];
    assert Sum([x]) == x && Sum([x, y]) == x + y;
  }
}

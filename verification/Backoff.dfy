/**
 The delay strategies of internal/retry/backoff.go. Delays are whole nanoseconds; powers and
 products are exact reals, truncated where the Go code converts to a duration.
 */
module Backoff {

  datatype Exponential = Exponential(initialDelay: int, multiplier: real, maxDelay: int, jitter: bool) {
    // The constructor panics otherwise.
    predicate Valid() {
      0 < initialDelay <= maxDelay && multiplier > 0.0
    }
  }

  function Pow(m: real, n: nat): real {
    if n == 0 then 1.0 else m * Pow(m, n - 1)
  }

  function AttemptOf(attempt: int): nat {
    if attempt <= 0 then 1 else attempt
  }

  // The delay before truncation and jitter.
  function BaseDelay(eb: Exponential, attempt: int): real {
    var base := eb.initialDelay as real * Pow(eb.multiplier, AttemptOf(attempt) - 1);
    if base > eb.maxDelay as real then eb.maxDelay as real else base
  }

  function Jittered(delay: int, draw: real): real {
    var range := delay as real * 0.1;
    delay as real + (draw - 0.5) * 2.0 * range
  }

  // `draw` is the random number in [0, 1) that the call takes when jitter is on.
  function CalculateDelay(eb: Exponential, attempt: int, draw: real): int {
    var delay := BaseDelay(eb, attempt).Floor;
    if eb.jitter then
      var jittered := Jittered(delay, draw);
      (if jittered < 0.0 then delay as real * 0.1 else jittered).Floor
    else delay
  }

  // ---------- the capped power ----------

  function Cap(x: real, max: real): real {
    if x > max then max else x
  }

  function Iterate(f: real -> real, x: real, n: nat): real {
    if n == 0 then x else f(Iterate(f, x, n - 1))
  }

  function Step(m: real): real -> real { (y: real) => y * m }

  function CappedStep(m: real, max: real): real -> real { (y: real) => Cap(y * m, max) }

  lemma StepIs(m: real, max: real, y: real)
    ensures Step(m)(y) == y * m && CappedStep(m, max)(y) == Cap(y * m, max)
  {
  }

  lemma Shrinks(x: real, m: real)
    requires x > 0.0 && 0.0 < m <= 1.0
    ensures 0.0 < x * m <= x
  {
    assert x * (1.0 - m) >= 0.0;
  }

  lemma Grows(x: real, m: real)
    requires x > 0.0 && m >= 1.0
    ensures x <= x * m
  {
    assert x * (m - 1.0) >= 0.0;
  }

  // One capped step from a value below the cap; y stands for x * m.
  lemma CapStep(x: real, m: real, y: real, max: real)
    requires 0.0 < x <= max && m > 0.0 && y == x * m
    ensures 0.0 < Cap(y, max) <= max
    ensures m >= 1.0 ==> x <= Cap(y, max)
    ensures m <= 1.0 ==> Cap(y, max) <= x
  {
    if m >= 1.0 { Grows(x, m); }
    if m <= 1.0 { Shrinks(x, m); }
  }

  // Capping before a step loses nothing if the step does not shrink, or nothing was cut.
  lemma CapThenStep(x: real, m: real, max: real)
    requires x > 0.0 && m > 0.0 && max > 0.0 && (m >= 1.0 || x <= max)
    ensures Cap(Cap(x, max) * m, max) == Cap(x * m, max)
  {
    if x > max {
      Grows(x, m);
      Grows(max, m);
    }
  }

  lemma {:induction false} PowerIsIterate(x: real, m: real, n: nat)
    ensures Iterate(Step(m), x, n) == x * Pow(m, n)
  {
    if n > 0 {
      PowerIsIterate(x, m, n - 1);
      Regroup(x, m, Pow(m, n - 1));
    }
  }

  lemma Regroup(x: real, m: real, p: real)
    ensures (x * p) * m == x * (m * p)
  {
  }

  // Values the uncapped steps reach: positive, and below the cap unless they grow.
  predicate Reached(m: real, max: real, y: real) {
    y > 0.0 && (m >= 1.0 || y <= max)
  }

  lemma ReachedNext(m: real, max: real, y: real)
    requires m > 0.0 && Reached(m, max, y)
    ensures Reached(m, max, Step(m)(y))
  {
    StepIs(m, max, y);
    if m <= 1.0 { Shrinks(y, m); } else { Grows(y, m); }
  }

  lemma {:induction false} ReachedAlways(x: real, m: real, max: real, n: nat)
    requires m > 0.0 && Reached(m, max, x)
    ensures Reached(m, max, Iterate(Step(m), x, n))
  {
    if n > 0 {
      ReachedAlways(x, m, max, n - 1);
      ReachedNext(m, max, Iterate(Step(m), x, n - 1));
    }
  }

  lemma CapBeforeStep(m: real, max: real, y: real)
    requires m > 0.0 && max > 0.0 && Reached(m, max, y)
    ensures CappedStep(m, max)(Cap(y, max)) == Cap(Step(m)(y), max)
  {
    CapThenStep(y, m, max);
    StepIs(m, max, y);
    StepIs(m, max, Cap(y, max));
  }

  // Capping the power once is the same as capping after every step, for growing and for
  // shrinking multipliers.
  lemma {:induction false} CappedPower(x: real, m: real, max: real, n: nat)
    requires 0.0 < x <= max && m > 0.0
    ensures Cap(Iterate(Step(m), x, n), max) == Iterate(CappedStep(m, max), x, n)
  {
    if n > 0 {
      CappedPower(x, m, max, n - 1);
      ReachedAlways(x, m, max, n - 1);
      CapBeforeStep(m, max, Iterate(Step(m), x, n - 1));
    }
  }

  // f maps (0, max] into itself and moves no value down, or no value up.
  ghost predicate OneWay(f: real -> real, max: real, up: bool) {
    forall y :: 0.0 < y <= max ==> 0.0 < f(y) <= max && (if up then y <= f(y) else f(y) <= y)
  }

  lemma {:induction false} IterateOrdered(f: real -> real, x: real, max: real, up: bool, i: nat, j: nat)
    requires 0.0 < x <= max && i <= j && OneWay(f, max, up)
    ensures 0.0 < Iterate(f, x, j) <= max
    ensures if up then Iterate(f, x, i) <= Iterate(f, x, j) else Iterate(f, x, j) <= Iterate(f, x, i)
    decreases j
  {
    if j > 0 {
      IterateOrdered(f, x, max, up, if i < j then i else j - 1, j - 1);
    }
  }

  lemma CappedStepOneWay(m: real, max: real, up: bool)
    requires m > 0.0 && (if up then m >= 1.0 else m <= 1.0)
    ensures OneWay(CappedStep(m, max), max, up)
  {
    forall y | 0.0 < y <= max
      ensures
        var z := CappedStep(m, max)(y);
        0.0 < z <= max && (if up then y <= z else z <= y)
    {
      StepIs(m, max, y);
      CapStep(y, m, y * m, max);
    }
  }

  lemma StepsOrdered(x: real, m: real, max: real, i: nat, j: nat)
    requires 0.0 < x <= max && m > 0.0 && i <= j
    ensures
      var f := CappedStep(m, max);
      && 0.0 < Iterate(f, x, j) <= max
      && (m >= 1.0 ==> Iterate(f, x, i) <= Iterate(f, x, j))
      && (m <= 1.0 ==> Iterate(f, x, j) <= Iterate(f, x, i))
  {
    if m >= 1.0 {
      CappedStepOneWay(m, max, true);
      IterateOrdered(CappedStep(m, max), x, max, true, i, j);
    }
    if m <= 1.0 {
      CappedStepOneWay(m, max, false);
      IterateOrdered(CappedStep(m, max), x, max, false, i, j);
    }
  }

  // The delay of attempt k is k - 1 capped steps away from the initial delay, and an attempt that is
  // not positive is taken for the first.
  lemma BaseIsCappedSteps(eb: Exponential, attempt: int)
    requires eb.Valid()
    ensures BaseDelay(eb, attempt) ==
            Iterate(CappedStep(eb.multiplier, eb.maxDelay as real), eb.initialDelay as real,
                    if attempt >= 1 then attempt - 1 else 0)
  {
    var n := AttemptOf(attempt) - 1;
    PowerIsIterate(eb.initialDelay as real, eb.multiplier, n);
    CappedPower(eb.initialDelay as real, eb.multiplier, eb.maxDelay as real, n);
  }

  lemma BaseOrdered(eb: Exponential, i: int, j: int)
    requires eb.Valid() && i <= j
    ensures 0.0 < BaseDelay(eb, j) <= eb.maxDelay as real
    ensures eb.multiplier >= 1.0 ==> BaseDelay(eb, i) <= BaseDelay(eb, j)
    ensures eb.multiplier <= 1.0 ==> BaseDelay(eb, j) <= BaseDelay(eb, i)
  {
    BaseIsCappedSteps(eb, i);
    BaseIsCappedSteps(eb, j);
    StepsOrdered(eb.initialDelay as real, eb.multiplier, eb.maxDelay as real, AttemptOf(i) - 1, AttemptOf(j) - 1);
  }

  // Without jitter the delays lie between 0 and the maximum, never fall if the multiplier is
  // at least 1 and never rise if it is at most 1, and stay at the maximum once they reach it
  // in growing.
  lemma DelaysOrdered(eb: Exponential, i: int, j: int, draw1: real, draw2: real)
    requires eb.Valid() && !eb.jitter && i <= j
    ensures 0 <= CalculateDelay(eb, j, draw2) <= eb.maxDelay
    ensures eb.multiplier >= 1.0 ==> CalculateDelay(eb, i, draw1) <= CalculateDelay(eb, j, draw2)
    ensures eb.multiplier <= 1.0 ==> CalculateDelay(eb, j, draw2) <= CalculateDelay(eb, i, draw1)
    ensures eb.multiplier >= 1.0 && CalculateDelay(eb, i, draw1) == eb.maxDelay ==>
        CalculateDelay(eb, j, draw2) == eb.maxDelay
  {
    BaseOrdered(eb, i, j);
  }

  // ---------- jitter ----------

  // Jitter keeps the delay within ten percent, and the guard against negative delays is
  // never taken.
  lemma JitterBand(eb: Exponential, attempt: int, draw: real)
    requires eb.Valid() && eb.jitter && 0.0 <= draw < 1.0
    ensures
      var plain := BaseDelay(eb, attempt).Floor;
      var delay := CalculateDelay(eb, attempt, draw);
      && Jittered(plain, draw) >= 0.0
      && 9 * plain < 10 * (delay + 1) && 10 * delay <= 11 * plain
      && 10 * delay <= 11 * eb.maxDelay
  {
    BaseOrdered(eb, attempt, attempt);
    var plain := BaseDelay(eb, attempt).Floor;
    JitterRange(plain, draw);
  }

  lemma DrawScaled(draw: real, x: real) returns (d: real)
    requires x >= 0.0 && 0.0 <= draw < 1.0
    ensures d == draw * x && 0.0 <= d <= x && (x > 0.0 ==> d < x)
  {
    d := draw * x;
    assert x * (1.0 - draw) >= 0.0;
    if x > 0.0 { assert x * (1.0 - draw) > 0.0; }
  }

  lemma JitterForm(draw: real, x: real, d: real)
    requires d == draw * x
    ensures x + (draw - 0.5) * 2.0 * (x * 0.1) == 0.9 * x + 0.2 * d
  {
  }

  lemma JitterRange(plain: int, draw: real)
    requires plain >= 0 && 0.0 <= draw < 1.0
    ensures 0.9 * plain as real <= Jittered(plain, draw) <= 1.1 * plain as real
    ensures plain > 0 ==> Jittered(plain, draw) < 1.1 * plain as real
  {
    var x := plain as real;
    var d := DrawScaled(draw, x);
    JitterForm(draw, x, d);
  }

  lemma PositiveFactor(a: real, x: real)
    requires x > 0.0
    ensures a * x > 0.0 ==> a > 0.0
    ensures a * x >= 0.0 ==> a >= 0.0
  {
    if a <= 0.0 {
      assert (-a) * x >= 0.0;
    }
    if a < 0.0 {
      assert (-a) * x > 0.0;
    }
  }

  // The draw that turns the delay into a value of the band.
  lemma DrawFor(plain: int, value: real) returns (draw: real)
    requires plain > 0 && 0.9 * plain as real <= value < 1.1 * plain as real
    ensures 0.0 <= draw < 1.0 && Jittered(plain, draw) == value
  {
    var x := plain as real;
    var q := value / x;
    assert q * x == value;
    assert (q - 0.9) * x == value - 0.9 * x && (1.1 - q) * x == 1.1 * x - value;
    PositiveFactor(q - 0.9, x);
    PositiveFactor(1.1 - q, x);
    draw := (q - 0.9) * 5.0;
    JitterForm(draw, x, draw * x);
    assert draw * x == 5.0 * value - 4.5 * x;
  }

  // Jitter spreads the draws evenly over the whole band: opposite draws lie equally far from the
  // delay, equal steps of the draw give equal steps, and every value of the band is reached.
  lemma JitterSpread(plain: int, draw1: real, draw2: real, value: real)
    requires plain > 0
    ensures Jittered(plain, draw1) + Jittered(plain, 1.0 - draw1) == 2.0 * plain as real
    ensures Jittered(plain, draw2) - Jittered(plain, draw1) == (draw2 - draw1) * (0.2 * plain as real)
    ensures (exists draw: real :: 0.0 <= draw < 1.0 && Jittered(plain, draw) == value) <==>
            0.9 * plain as real <= value < 1.1 * plain as real
  {
    var x := plain as real;
    JitterForm(draw1, x, draw1 * x);
    JitterForm(draw2, x, draw2 * x);
    JitterForm(1.0 - draw1, x, (1.0 - draw1) * x);
    if draw: real :| 0.0 <= draw < 1.0 && Jittered(plain, draw) == value {
      JitterRange(plain, draw);
    }
    if 0.9 * x <= value < 1.1 * x {
      var draw := DrawFor(plain, value);
    }
  }

  // Jitter is added after the cap, so some draw exceeds the maximum exactly when a tenth of
  // the capped delay reaches more than one nanosecond beyond it.
  lemma JitterExceedsMaximum(eb: Exponential, attempt: int)
    requires eb.Valid() && eb.jitter
    ensures (exists draw: real :: 0.0 <= draw < 1.0 && CalculateDelay(eb, attempt, draw) > eb.maxDelay)
            <==> 11 * BaseDelay(eb, attempt).Floor > 10 * (eb.maxDelay + 1)
  {
    BaseOrdered(eb, attempt, attempt);
    var plain := BaseDelay(eb, attempt).Floor;
    if draw: real :| 0.0 <= draw < 1.0 && CalculateDelay(eb, attempt, draw) > eb.maxDelay {
      JitterRange(plain, draw);
    }
    if 11 * plain > 10 * (eb.maxDelay + 1) {
      var draw := DrawFor(plain, (eb.maxDelay + 1) as real);
      assert CalculateDelay(eb, attempt, draw) > eb.maxDelay by {
        JitterRange(plain, draw);
        assert Jittered(plain, draw) == (eb.maxDelay + 1) as real;
      }
    }
  }

  // ---------- linear backoff ----------

  datatype Linear = Linear(initialDelay: int, increment: int, maxDelay: int) {
    predicate Valid() {
      0 < initialDelay <= maxDelay && increment > 0
    }
  }

  function LinearDelay(lb: Linear, attempt: int): int {
    var delay := lb.initialDelay + (AttemptOf(attempt) - 1) * lb.increment;
    if delay > lb.maxDelay then lb.maxDelay else delay
  }

  // Every linear delay is positive and within the maximum.
  lemma LinearWithin(lb: Linear, attempt: int)
    requires lb.Valid()
    ensures 0 < LinearDelay(lb, attempt) <= lb.maxDelay
  {
    assert (AttemptOf(attempt) - 1) * lb.increment >= 0;
  }

  // Each further attempt adds the increment, up to the cap.
  lemma LinearSteps(lb: Linear, attempt: nat)
    requires lb.Valid() && attempt >= 1
    ensures forall k: int :: k <= 1 ==> LinearDelay(lb, k) == lb.initialDelay
    ensures
      var next := LinearDelay(lb, attempt) + lb.increment;
      LinearDelay(lb, attempt + 1) == if next > lb.maxDelay then lb.maxDelay else next
    ensures 0 < LinearDelay(lb, attempt) <= lb.maxDelay
  {
    assert attempt * lb.increment == (attempt - 1) * lb.increment + lb.increment;
    assert (attempt - 1) * lb.increment >= 0;
  }
}

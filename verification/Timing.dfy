/** Durations in integer nanoseconds, and the random variance put on them.  A random draw is a
    parameter: any real in [0, 1).  Floating-point intermediate values are modelled as reals. */
module Timing {

  const MILLISECOND := 1_000_000
  const SECOND := 1_000_000_000

  datatype Option<+T> = None | Some(value: T)

  predicate Draw(u: real) {
    0.0 <= u < 1.0
  }

  /** Conversion of a float to an integer type: truncation toward zero. */
  function Trunc(x: real): int {
    if x >= 0.0 then x.Floor else -((-x).Floor)
  }

  /** `x` with a relative variance between -factor and +factor. */
  function Varied(x: real, factor: real, u: real): real {
    x * Share(factor, u)
  }

  function Pow(base: real, n: nat): real {
    if n == 0 then 1.0 else base * Pow(base, n - 1)
  }

  lemma MulMono(a: real, b: real, c: real)
    requires a <= b && 0.0 <= c
    ensures a * c <= b * c && c * a <= c * b
  {
  }

  lemma MulNonNegative(a: real, b: real)
    requires 0.0 <= a && 0.0 <= b
    ensures 0.0 <= a * b
  {
  }

  lemma MulSign(a: real, b: real)
    requires 0.0 < b
    ensures 0.0 < a * b <==> 0.0 < a
  {
  }

  lemma Distribute(a: real, b: real, c: real)
    ensures (a - b) * c == a * c - b * c
  {
  }

  lemma DistributeSum(a: real, b: real, c: real)
    ensures (a + b) * c == a * c + b * c
  {
  }

  lemma MulAssoc(a: real, b: real, c: real)
    ensures (a * b) * c == a * (b * c)
  {
  }

  lemma DivMul(a: real, b: real)
    requires 0.0 < b
    ensures a / b * b == a
  {
  }

  lemma DivPositive(a: real, b: real)
    requires 0.0 < a && 0.0 < b
    ensures 0.0 < a / b
  {
    DivMul(a, b);
    MulSign(a / b, b);
  }

  lemma DivNonNegative(a: real, b: real)
    requires 0.0 <= a && 0.0 < b
    ensures 0.0 <= a / b
  {
    if 0.0 < a {
      DivPositive(a, b);
    }
  }

  lemma DivUnique(a: real, b: real, c: real)
    requires 0.0 < b && a == c * b
    ensures a / b == c
  {
  }

  /** What a draw multiplies a value by. */
  function Share(factor: real, u: real): real {
    1.0 + (u * 2.0 - 1.0) * factor
  }

  lemma ShareBand(factor: real, u: real)
    requires 0.0 <= factor && Draw(u)
    ensures 1.0 - factor <= Share(factor, u) <= 1.0 + factor
  {
    var shift := u * 2.0 - 1.0;
    MulMono(-1.0, shift, factor);
    MulMono(shift, 1.0, factor);
  }

  lemma ScaleBand(lo: real, share: real, hi: real, x: real)
    requires lo <= share <= hi && 0.0 <= x
    ensures lo * x <= x * share <= hi * x
  {
    MulMono(lo, share, x);
    MulMono(share, hi, x);
  }

  lemma VariedEnvelope(x: real, factor: real, u: real)
    requires 0.0 <= x && 0.0 <= factor && Draw(u)
    ensures (1.0 - factor) * x <= Varied(x, factor, u) <= (1.0 + factor) * x
  {
    hide Share;
    ShareBand(factor, u);
    ScaleBand(1.0 - factor, Share(factor, u), 1.0 + factor, x);
  }

  lemma TruncBand(lo: real, x: real, hi: real)
    requires 0.0 <= lo <= x <= hi
    ensures 0 <= Trunc(x) && lo - 1.0 < Trunc(x) as real <= hi
  {
  }

  /** The jitter of the rate limiter: non-positive durations pass through unchanged, everything
      else is varied, floored at zero and truncated. */
  function Jitter(d: int, factor: real, u: real): int {
    if d <= 0 then d else
      var jittered := Varied(d as real, factor, u);
      Trunc(if jittered < 0.0 then 0.0 else jittered)
  }

  lemma JitterEnvelope(d: int, factor: real, u: real)
    requires 0 < d && 0.0 <= factor && Draw(u)
    ensures 0 <= Jitter(d, factor, u)
    ensures (1.0 - factor) * (d as real) - 1.0 < Jitter(d, factor, u) as real <= (1.0 + factor) * (d as real)
  {
    var v := Varied(d as real, factor, u);
    VariedEnvelope(d as real, factor, u);
    hide Varied;
    MulNonNegative(1.0 + factor, d as real);
    assert v >= 0.0 ==> Jitter(d, factor, u) == v.Floor;
  }

  lemma {:induction false} PowNonNegative(base: real, n: nat)
    requires 0.0 <= base
    ensures 0.0 <= Pow(base, n)
  {
    if n != 0 {
      PowNonNegative(base, n - 1);
      MulMono(0.0, Pow(base, n - 1), base);
    }
  }

  // ---------- The extreme values of a variance ----------

  /** Some draw lifts `d` to at least `y`.  The upper end of the band is never reached itself. */
  predicate Reaches(d: real, factor: real, y: real) {
    y <= d || y < (1.0 + factor) * d
  }

  lemma VariedBelow(x: real, factor: real, u: real)
    requires 0.0 <= x && 0.0 <= factor && Draw(u)
    ensures Varied(x, factor, u) <= x || Varied(x, factor, u) < (1.0 + factor) * x
  {
    var shift := (u * 2.0 - 1.0) * factor;
    if shift <= 0.0 {
      MulMono(1.0 + shift, 1.0, x);
    } else if 0.0 < x {
      MulSign(factor - shift, x);
      Distribute(1.0 + factor, 1.0 + shift, x);
      assert 0.0 < factor - shift by {
        MulSign(1.0 - (u * 2.0 - 1.0), factor);
        Distribute(1.0, u * 2.0 - 1.0, factor);
      }
    }
  }

  lemma ShareOf(part: real, span: real) returns (share: real)
    requires 0.0 < part < span
    ensures 0.0 < share < 1.0 && share * span == part
  {
    share := part / span;
    DivMul(part, span);
    MulSign(share, span);
    Distribute(1.0, share, span);
    MulSign(1.0 - share, span);
  }

  lemma DrawFor(x: real, factor: real, y: real) returns (u: real)
    requires 0.0 <= factor && 0.0 < x && x < y < (1.0 + factor) * x
    ensures Draw(u) && Varied(x, factor, u) == y
  {
    assert (1.0 + factor) * x == x + factor * x;
    var share := ShareOf(y - x, factor * x);
    u := (1.0 + share) / 2.0;
    assert x * (1.0 + share * factor) == x + share * (factor * x);
  }

  lemma ReachesIff(x: real, factor: real, y: real)
    requires 0.0 <= x && 0.0 <= factor
    ensures (exists u :: Draw(u) && y <= Varied(x, factor, u)) <==> Reaches(x, factor, y)
  {
    if y <= x {
      assert Draw(0.5) && Varied(x, factor, 0.5) == x;
    } else if y < (1.0 + factor) * x {
      var u := DrawFor(x, factor, y);
    } else {
      forall u | Draw(u)
        ensures Varied(x, factor, u) < y
      {
        VariedBelow(x, factor, u);
        MulMono(1.0, 1.0 + factor, x);
      }
    }
  }

  /** The largest that jitter makes of a duration, against a bound. */
  predicate JitterReaches(d: int, factor: real, y: int) {
    if d <= 0 then y <= d else Reaches(d as real, factor, y as real)
  }

  /** The smallest that jitter makes of a duration, against a bound. */
  predicate JitterFalls(d: int, factor: real, y: int) {
    if d <= 0 then d < y else (1.0 - factor) * d as real < y as real
  }

  lemma JitterReachesIff(d: int, factor: real, y: int)
    requires 0.0 <= factor <= 1.0
    ensures (exists u :: Draw(u) && y <= Jitter(d, factor, u)) <==> JitterReaches(d, factor, y)
  {
    if d <= 0 {
      assert Draw(0.0) && Jitter(d, factor, 0.0) == d;
    } else {
      ReachesIff(d as real, factor, y as real);
      forall u | Draw(u)
        ensures y <= Jitter(d, factor, u) <==> y as real <= Varied(d as real, factor, u)
      {
        VariedEnvelope(d as real, factor, u);
        MulMono(0.0, 1.0 - factor, d as real);
        hide Varied;
      }
    }
  }

  lemma FloorBelow(x: real, n: int)
    ensures x.Floor < n <==> x < n as real
    ensures x.Floor <= n <==> x < n as real + 1.0
  {
  }

  lemma FloorMonotone(x: real, y: real)
    requires x <= y
    ensures x.Floor <= y.Floor
  {
  }

  /** Jitter is least at the draw zero. */
  lemma LeastJitter(d: int, factor: real, u: real)
    requires 0 < d && 0.0 <= factor <= 1.0 && Draw(u)
    ensures Jitter(d, factor, 0.0) == ((1.0 - factor) * d as real).Floor <= Jitter(d, factor, u)
  {
    var lo := (1.0 - factor) * d as real;
    assert Varied(d as real, factor, 0.0) == lo;
    MulNonNegative(1.0 - factor, d as real);
    VariedEnvelope(d as real, factor, u);
    hide Varied;
    FloorMonotone(lo, Varied(d as real, factor, u));
  }

  lemma JitterFallsIff(d: int, factor: real, y: int)
    requires 0.0 <= factor <= 1.0
    ensures (exists u :: Draw(u) && Jitter(d, factor, u) < y) <==> JitterFalls(d, factor, y)
  {
    assert Draw(0.0);
    if d <= 0 {
      assert Jitter(d, factor, 0.0) == d;
    } else {
      var lo := (1.0 - factor) * d as real;
      FloorBelow(lo, y);
      assert JitterFalls(d, factor, y) <==> lo.Floor < y;
      hide Jitter, JitterFalls;
      LeastJitter(d, factor, 0.0);
      forall u | Draw(u)
        ensures lo.Floor <= Jitter(d, factor, u)
      {
        LeastJitter(d, factor, u);
      }
    }
  }

  /** Monotonic time.  A sleep lasts at least as long as asked and at least one tick; `slack`
      bounds how late the timer may be. */
  class Clock {
    var now: int

    constructor (start: int)
      ensures now == start
    {
      now := start;
    }

    method Sleep(d: int, slack: nat)
      modifies this
      ensures old(now) + d <= now && old(now) < now
      ensures now <= old(now) + (if d < 1 then 1 else d) + slack
    {
      var late: nat :| late <= slack;
      now := now + (if d < 1 then 1 else d) + late;
    }

    /** A sleep that the end of the context cuts short, at any point of it. */
    method SleepInterrupted(d: int, slack: nat)
      modifies this
      ensures old(now) <= now <= old(now) + (if d < 1 then 1 else d) + slack
    {
      var slept: nat :| slept <= (if d < 1 then 1 else d) + slack;
      now := now + slept;
    }
  }
}

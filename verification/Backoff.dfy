/** Exponential backoff between reconnection attempts. */
module Backoffs {
  import opened Timing

  datatype Config = Config(
    initialDelay: int,
    multiplier: real,
    maxDelay: int,
    jitterFactor: real,
    maxAttempts: int)
  {
    /** The ranges the configuration's own comments give. */
    predicate Sane() {
      0 <= initialDelay && 0.0 <= multiplier && 0 <= maxDelay && 0.0 <= jitterFactor <= 1.0
    }
  }

  /** The delay of attempt `n` before any variance is applied. */
  function Envelope(cfg: Config, n: nat): real {
    var delay := cfg.initialDelay as real * Pow(cfg.multiplier, n);
    if delay > cfg.maxDelay as real then cfg.maxDelay as real else delay
  }

  function Delay(cfg: Config, n: nat, u: real): int {
    var delay := Varied(Envelope(cfg, n), cfg.jitterFactor, u);
    Trunc(if delay < 0.0 then cfg.initialDelay as real else delay)
  }

  predicate GivesUp(cfg: Config, attempts: nat) {
    0 < cfg.maxAttempts <= attempts
  }

  class Backoff {
    const cfg: Config
    var attempts: nat

    constructor (cfg: Config)
      ensures this.cfg == cfg && attempts == 0
    {
      this.cfg := cfg;
      attempts := 0;
    }

    method Next(u: real) returns (delay: int, ok: bool)
      requires Draw(u)
      modifies this
      ensures ok <==> !GivesUp(cfg, old(attempts))
      ensures ok ==> delay == Delay(cfg, old(attempts), u)
      ensures !ok ==> delay == 0
      ensures ok && old(attempts) == 0 && cfg.Sane() ==>
                Around(cfg.jitterFactor, Least(cfg.initialDelay as real, cfg.maxDelay as real), delay)
      ensures attempts == AfterFailure(cfg, old(attempts))
    {
      hide Varied, Pow;
      if cfg.maxAttempts > 0 && attempts >= cfg.maxAttempts {
        return 0, false;
      }
      var d := cfg.initialDelay as real * Pow(cfg.multiplier, attempts);
      var maxNs := cfg.maxDelay as real;
      if d > maxNs {
        d := maxNs;
      }
      assert d == Envelope(cfg, attempts);
      hide Envelope;
      d := Varied(d, cfg.jitterFactor, u);
      if d < 0.0 {
        d := cfg.initialDelay as real;
      }
      ghost var before := attempts;
      attempts := attempts + 1;
      delay, ok := Trunc(d), true;
      if before == 0 && cfg.Sane() {
        hide Delay, Around;
        FirstDelayAround(cfg, u);
      }
    }

    method Reset()
      modifies this
      ensures attempts == 0
    {
      attempts := 0;
    }
  }

  function AfterFailure(cfg: Config, attempts: nat): nat {
    if GivesUp(cfg, attempts) then attempts else attempts + 1
  }

  // ---------- The attempt counter over a whole history ----------

  /** What the connection reports to the tracker: a loss (`Next`) or recovery (`Reset`). */
  datatype Signal = Lost | Restored

  function AttemptsAfter(cfg: Config, signals: seq<Signal>): nat {
    if signals == [] then 0 else
      var before := AttemptsAfter(cfg, signals[..|signals| - 1]);
      match signals[|signals| - 1]
      case Restored => 0
      case Lost => AfterFailure(cfg, before)
  }

  /** The number of losses after the last recovery. */
  function LossesSinceRestored(signals: seq<Signal>): nat {
    if signals == [] || signals[|signals| - 1].Restored? then 0
    else 1 + LossesSinceRestored(signals[..|signals| - 1])
  }

  /** The counter is the number of losses since the connection was last healthy, saturating at
      the attempt limit when there is one. */
  lemma {:induction false} AttemptsCountLosses(cfg: Config, signals: seq<Signal>)
    ensures AttemptsAfter(cfg, signals) ==
            if 0 < cfg.maxAttempts < LossesSinceRestored(signals) then cfg.maxAttempts
            else LossesSinceRestored(signals)
    decreases |signals|
  {
    if signals != [] {
      AttemptsCountLosses(cfg, signals[..|signals| - 1]);
    }
  }

  // ---------- The envelope ----------

  lemma EnvelopeRange(cfg: Config, n: nat)
    requires cfg.Sane()
    ensures 0.0 <= Envelope(cfg, n) <= cfg.maxDelay as real
  {
    PowNonNegative(cfg.multiplier, n);
    MulNonNegative(cfg.initialDelay as real, Pow(cfg.multiplier, n));
  }

  lemma VariedNonNegative(x: real, factor: real, u: real)
    requires 0.0 <= x && 0.0 <= factor <= 1.0 && Draw(u)
    ensures 0.0 <= Varied(x, factor, u) && 0.0 <= (1.0 - factor) * x
  {
    VariedEnvelope(x, factor, u);
    MulNonNegative(1.0 - factor, x);
  }

  lemma DelayIs(cfg: Config, n: nat, u: real)
    requires cfg.Sane() && Draw(u)
    ensures 0.0 <= Varied(Envelope(cfg, n), cfg.jitterFactor, u)
    ensures Delay(cfg, n, u) == Varied(Envelope(cfg, n), cfg.jitterFactor, u).Floor
  {
    EnvelopeRange(cfg, n);
    VariedNonNegative(Envelope(cfg, n), cfg.jitterFactor, u);
    hide Envelope, Varied;
  }

  /** The delay stays within the jitter band around the envelope (and truncation only lowers it). */
  lemma DelayWithinBand(cfg: Config, n: nat, u: real)
    requires cfg.Sane() && Draw(u)
    ensures 0.0 <= Envelope(cfg, n) <= cfg.maxDelay as real
    ensures 0 <= Delay(cfg, n, u)
    ensures (1.0 - cfg.jitterFactor) * Envelope(cfg, n) - 1.0 < Delay(cfg, n, u) as real
            <= (1.0 + cfg.jitterFactor) * Envelope(cfg, n)
  {
    var e := Envelope(cfg, n);
    EnvelopeRange(cfg, n);
    DelayIs(cfg, n, u);
    hide Varied, Envelope, Delay;
    VariedEnvelope(e, cfg.jitterFactor, u);
    VariedNonNegative(e, cfg.jitterFactor, u);
    TruncBand((1.0 - cfg.jitterFactor) * e, Varied(e, cfg.jitterFactor, u), (1.0 + cfg.jitterFactor) * e);
  }

  /** No draw makes attempt `n` sleep longer than the maximum delay. */
  ghost predicate KeepsCap(cfg: Config, n: nat) {
    forall u :: Draw(u) ==> Delay(cfg, n, u) <= cfg.maxDelay
  }

  /** The cap is put on before the variance, so it holds of what is slept only up to it: every draw
      of attempt `n` keeps to the maximum delay iff the varied envelope exceeds it by at most the
      nanosecond that truncation takes off. */
  lemma DelayCappedIff(cfg: Config, n: nat)
    requires cfg.Sane()
    ensures KeepsCap(cfg, n) <==> (1.0 + cfg.jitterFactor) * Envelope(cfg, n) <= cfg.maxDelay as real + 1.0
  {
    var e, cap := Envelope(cfg, n), cfg.maxDelay;
    EnvelopeRange(cfg, n);
    hide Envelope, Varied, Delay;
    ReachesIff(e, cfg.jitterFactor, cap as real + 1.0);
    forall u | Draw(u)
      ensures Delay(cfg, n, u) <= cap <==> Varied(e, cfg.jitterFactor, u) < cap as real + 1.0
    {
      DelayIs(cfg, n, u);
      FloorBelow(Varied(e, cfg.jitterFactor, u), cap);
    }
  }

  lemma {:induction false} PowMonotone(base: real, m: nat, n: nat)
    requires 1.0 <= base && m <= n
    ensures Pow(base, m) <= Pow(base, n)
    decreases n
  {
    if m < n {
      PowMonotone(base, m, n - 1);
      PowNonNegative(base, n - 1);
      MulMono(1.0, base, Pow(base, n - 1));
    }
  }

  /** With a multiplier of at least one, later attempts never have a smaller envelope. */
  lemma EnvelopeMonotone(cfg: Config, m: nat, n: nat)
    requires cfg.Sane() && 1.0 <= cfg.multiplier && m <= n
    ensures Envelope(cfg, m) <= Envelope(cfg, n)
  {
    PowMonotone(cfg.multiplier, m, n);
    MulMono(Pow(cfg.multiplier, m), Pow(cfg.multiplier, n), cfg.initialDelay as real);
  }

  function Least(x: real, y: real): real {
    if x <= y then x else y
  }

  /** THE ENVELOPE, step by step: the first attempt has the initial delay, every later one the
      multiplier times the one before, and the maximum cuts them all. */
  lemma EnvelopeSteps(cfg: Config, n: nat)
    requires cfg.Sane()
    ensures Envelope(cfg, 0) == Least(cfg.initialDelay as real, cfg.maxDelay as real)
    ensures 1.0 <= cfg.multiplier ==>
              Envelope(cfg, n + 1) == Least(cfg.multiplier * Envelope(cfg, n), cfg.maxDelay as real)
  {
    assert Pow(cfg.multiplier, 0) == 1.0;
    var x, p := cfg.initialDelay as real * Pow(cfg.multiplier, n), Pow(cfg.multiplier, n);
    PowNonNegative(cfg.multiplier, n);
    MulNonNegative(cfg.initialDelay as real, p);
    Grown(cfg.initialDelay as real, cfg.multiplier, p);
    assert Envelope(cfg, n) == Least(x, cfg.maxDelay as real);
    assert Envelope(cfg, n + 1) == Least(cfg.multiplier * x, cfg.maxDelay as real);
    hide Pow, Envelope;
    if 1.0 <= cfg.multiplier {
      GrowThenCut(cfg.multiplier, x, cfg.maxDelay as real);
    }
  }

  lemma GrowThenCut(multiplier: real, x: real, cap: real)
    requires 1.0 <= multiplier && 0.0 <= x && 0.0 <= cap
    ensures Least(multiplier * x, cap) == Least(multiplier * Least(x, cap), cap)
  {
    MulMono(1.0, multiplier, x);
    MulMono(1.0, multiplier, cap);
  }

  lemma Grown(first: real, multiplier: real, p: real)
    ensures first * (multiplier * p) == multiplier * (first * p)
  {
  }

  /** `x` is `delay` up to the variance, truncated. */
  ghost predicate Around(factor: real, delay: real, x: int) {
    (1.0 - factor) * delay - 1.0 < x as real <= (1.0 + factor) * delay
  }

  lemma DelayAround(cfg: Config, n: nat, u: real)
    requires cfg.Sane() && Draw(u)
    ensures Around(cfg.jitterFactor, Envelope(cfg, n), Delay(cfg, n, u)) && 0 <= Delay(cfg, n, u)
  {
    hide Envelope, Delay;
    DelayWithinBand(cfg, n, u);
  }

  /** So the first delay after a recovery varies around the initial delay, ... */
  lemma FirstDelayAround(cfg: Config, u: real)
    requires cfg.Sane() && Draw(u)
    ensures Around(cfg.jitterFactor, Least(cfg.initialDelay as real, cfg.maxDelay as real), Delay(cfg, 0, u))
  {
    hide Around, Delay;
    DelayAround(cfg, 0, u);
    EnvelopeSteps(cfg, 0);
  }

  /** ... and what is slept at any attempt around its envelope, unless the tracker has given up. */
  lemma SleptAround(cfg: Config, attempts: nat, u: real)
    requires cfg.Sane() && Draw(u)
    ensures if 0 < cfg.maxAttempts <= attempts then SleptAt(cfg, attempts, u) == 0
            else Around(cfg.jitterFactor, Envelope(cfg, attempts), SleptAt(cfg, attempts, u))
  {
    hide Around, Envelope, Delay;
    DelayAround(cfg, attempts, u);
  }

  lemma VaryCap(factor: real, e: real, cap: real)
    requires 0.0 <= factor && 0.0 <= e <= cap
    ensures (1.0 + factor) * e <= cap + factor * cap
    ensures e == cap ==> (1.0 + factor) * e == cap + factor * cap
  {
    MulMono(e, cap, 1.0 + factor);
    assert (1.0 + factor) * cap == cap + factor * cap;
  }

  lemma KeepsCapAt(cfg: Config, n: nat)
    requires cfg.Sane()
    ensures cfg.jitterFactor * cfg.maxDelay as real <= 1.0 ==> KeepsCap(cfg, n)
    ensures Envelope(cfg, n) == cfg.maxDelay as real && KeepsCap(cfg, n) ==>
              cfg.jitterFactor * cfg.maxDelay as real <= 1.0
  {
    DelayCappedIff(cfg, n);
    EnvelopeRange(cfg, n);
    hide Envelope, KeepsCap;
    VaryCap(cfg.jitterFactor, Envelope(cfg, n), cfg.maxDelay as real);
  }

  /** If the cap is ever reached, it is kept by every attempt iff the variance of the cap itself is
      at most a nanosecond. */
  lemma CapKeptIff(cfg: Config, k: nat)
    requires cfg.Sane() && Envelope(cfg, k) == cfg.maxDelay as real
    ensures (forall n: nat :: KeepsCap(cfg, n)) <==> cfg.jitterFactor * cfg.maxDelay as real <= 1.0
  {
    hide Envelope, KeepsCap;
    KeepsCapAt(cfg, k);
    forall n: nat
      ensures cfg.jitterFactor * cfg.maxDelay as real <= 1.0 ==> KeepsCap(cfg, n)
    {
      KeepsCapAt(cfg, n);
    }
  }

  // ---------- Outages ----------

  lemma {:induction false} AllLost(n: nat)
    ensures LossesSinceRestored(seq(n, _ => Lost)) == n
  {
    if n != 0 {
      AllLost(n - 1);
      assert seq(n, _ => Lost)[..n - 1] == seq(n - 1, _ => Lost);
    }
  }

  /** What the disconnect handler sleeps when the tracker stands at `attempts`: only a positive
      delay, and only one that the tracker grants. */
  function SleptAt(cfg: Config, attempts: nat, u: real): nat {
    if GivesUp(cfg, attempts) || Delay(cfg, attempts, u) <= 0 then 0 else Delay(cfg, attempts, u)
  }

  /** What it sleeps at loss `i` of an outage. */
  function Slept(cfg: Config, i: nat, u: real): nat {
    SleptAt(cfg, AttemptsAfter(cfg, seq(i, _ => Lost)), u)
  }

  /** An outage: the times at which its losses are handled.  The handler sleeps before it returns,
      so the next loss is not handled earlier. */
  ghost predicate Outage(cfg: Config, times: seq<int>, draws: seq<real>) {
    && |times| == |draws|
    && (forall i :: 0 <= i < |draws| ==> Draw(draws[i]))
    && (forall i, j :: 0 <= i && j == i + 1 && j < |times| ==> times[i] + Slept(cfg, i, draws[i]) <= times[j])
  }

  ghost predicate Lasts(times: seq<int>, length: int) {
    times != [] ==> times[|times| - 1] - times[0] <= length
  }

  /** A capped attempt sleeps at least this long. */
  function ShortestCapped(cfg: Config): real {
    (1.0 - cfg.jitterFactor) * cfg.maxDelay as real - 1.0
  }

  lemma SleptIs(cfg: Config, i: nat, u: real)
    ensures Slept(cfg, i, u) == if 0 < cfg.maxAttempts <= i then 0 else SleptAt(cfg, i, u)
  {
    AllLost(i);
    AttemptsCountLosses(cfg, seq(i, _ => Lost));
  }

  lemma SleptIsDelay(cfg: Config, i: nat, u: real)
    requires !GivesUp(cfg, i)
    ensures Slept(cfg, i, u) == if Delay(cfg, i, u) <= 0 then 0 else Delay(cfg, i, u)
  {
    SleptIs(cfg, i, u);
    hide Delay;
  }

  lemma CappedFrom(cfg: Config, k: nat, i: nat)
    requires cfg.Sane() && 1.0 <= cfg.multiplier && k <= i && Envelope(cfg, k) == cfg.maxDelay as real
    ensures Envelope(cfg, i) == cfg.maxDelay as real
  {
    EnvelopeMonotone(cfg, k, i);
    EnvelopeRange(cfg, i);
    hide Envelope;
  }

  lemma CappedDelay(cfg: Config, i: nat, u: real)
    requires cfg.Sane() && Draw(u) && Envelope(cfg, i) == cfg.maxDelay as real
    ensures ShortestCapped(cfg) <= Delay(cfg, i, u) as real && 0 <= Delay(cfg, i, u)
    ensures 0.0 <= ShortestCapped(cfg) ==> 1 <= Delay(cfg, i, u)
  {
    var e := Envelope(cfg, i);
    hide Delay, Envelope;
    DelayIs(cfg, i, u);
    VariedEnvelope(e, cfg.jitterFactor, u);
    assert ShortestCapped(cfg) == (1.0 - cfg.jitterFactor) * e - 1.0;
    hide Varied, ShortestCapped;
  }

  /** From attempt `k` on, every granted delay is at least `least`. */
  ghost predicate SleepsAtLeast(cfg: Config, k: nat, least: real) {
    forall i: nat, u :: k <= i && Draw(u) && !GivesUp(cfg, i) ==> least <= Slept(cfg, i, u) as real
  }

  lemma CappedSleeps(cfg: Config, k: nat)
    requires cfg.Sane() && 1.0 <= cfg.multiplier && Envelope(cfg, k) == cfg.maxDelay as real
    ensures SleepsAtLeast(cfg, k, ShortestCapped(cfg))
    ensures 0.0 <= ShortestCapped(cfg) ==> SleepsAtLeast(cfg, k, 1.0)
  {
    hide Envelope, Delay, Slept, ShortestCapped;
    forall i: nat, u | k <= i && Draw(u) && !GivesUp(cfg, i)
      ensures ShortestCapped(cfg) <= Slept(cfg, i, u) as real
      ensures 0.0 <= ShortestCapped(cfg) ==> 1.0 <= Slept(cfg, i, u) as real
    {
      CappedFrom(cfg, k, i);
      CappedDelay(cfg, i, u);
      SleptIsDelay(cfg, i, u);
    }
  }

  ghost predicate TimesAtMost(n: int, least: real, total: int) {
    n as real * least <= total as real
  }

  lemma OneMore(n: int, least: real, sofar: int, d: int, total: int)
    requires TimesAtMost(n, least, sofar) && least <= d as real && sofar + d <= total
    ensures TimesAtMost(n + 1, least, total)
  {
    assert (n + 1) as real * least == n as real * least + least;
  }

  lemma LossTakes(cfg: Config, times: seq<int>, draws: seq<real>, k: nat, i: nat, least: real)
    requires Outage(cfg, times, draws) && SleepsAtLeast(cfg, k, least)
    requires k <= i && i + 1 < |times| && (0 < cfg.maxAttempts ==> i < cfg.maxAttempts)
    ensures times[i] + Slept(cfg, i, draws[i]) <= times[i + 1] && least <= Slept(cfg, i, draws[i]) as real
  {
    hide Slept;
  }

  /** The time spent in an outage after attempt `k`. */
  lemma {:induction false} TimeSince(cfg: Config, times: seq<int>, draws: seq<real>, k: nat, n: nat, least: real)
    requires Outage(cfg, times, draws) && SleepsAtLeast(cfg, k, least)
    requires k + n < |times| && (0 < cfg.maxAttempts ==> k + n <= cfg.maxAttempts)
    ensures TimesAtMost(n, least, times[k + n] - times[k])
    decreases n
  {
    if n != 0 {
      var i := k + n - 1;
      hide *;
      TimeSince(cfg, times, draws, k, n - 1, least);
      LossTakes(cfg, times, draws, k, i, least);
      OneMore(n - 1, least, times[i] - times[k], Slept(cfg, i, draws[i]), times[i + 1] - times[k]);
    }
  }

  lemma {:induction false} TimesIncrease(cfg: Config, times: seq<int>, draws: seq<real>, i: nat)
    requires Outage(cfg, times, draws) && i < |times|
    ensures times[0] <= times[i]
  {
    if i != 0 {
      hide Slept;
      TimesIncrease(cfg, times, draws, i - 1);
    }
  }

  lemma AtMostShare(n: int, least: real, length: int)
    requires 0.0 < least && TimesAtMost(n, least, length)
    ensures n as real <= length as real / least
  {
    var share := length as real / least;
    DivMul(length as real, least);
    MulSign(n as real - share, least);
    Distribute(n as real, share, least);
  }

  lemma LossesBounded(cfg: Config, times: seq<int>, draws: seq<real>, length: nat, k: nat, least: real)
    requires Outage(cfg, times, draws) && Lasts(times, length) && 0.0 < least && SleepsAtLeast(cfg, k, least)
    requires 0 < cfg.maxAttempts ==> |times| <= cfg.maxAttempts + 1
    ensures |times| as real <= k as real + 1.0 + length as real / least
  {
    assert TimesAtMost(0, least, length);
    AtMostShare(0, least, length);
    if k < |times| {
      var n := |times| - 1 - k;
      TimesIncrease(cfg, times, draws, k);
      TimeSince(cfg, times, draws, k, n, least);
      assert times[k + n] - times[k] <= length;
      hide Outage, SleepsAtLeast;
      assert TimesAtMost(n, least, length);
      hide TimesAtMost;
      AtMostShare(n, least, length);
    }
  }

  /** RETRIES IN AN OUTAGE ARE BOUNDED.  An outage of length T has at most k + T/least + 1 losses,
      where attempt `k` reaches the cap and `least` is a positive lower bound of the capped delays.
      This needs a tracker that does not give up before the last of them. */
  lemma RetriesBoundedByOutage(cfg: Config, times: seq<int>, draws: seq<real>, length: nat, k: nat, least: real)
    requires cfg.Sane() && 1.0 <= cfg.multiplier && Outage(cfg, times, draws) && Lasts(times, length)
    requires Envelope(cfg, k) == cfg.maxDelay as real && 0.0 < least <= ShortestCapped(cfg)
    requires 0 < cfg.maxAttempts ==> |times| <= cfg.maxAttempts + 1
    ensures |times| as real <= k as real + 1.0 + length as real / least
  {
    CappedSleeps(cfg, k);
    hide Envelope, ShortestCapped, Outage, Slept;
    LossesBounded(cfg, times, draws, length, k, least);
  }

  /** The bound that an outage of the given length puts on its losses, if it puts one. */
  ghost predicate BoundsRetries(cfg: Config, length: nat, most: nat) {
    forall times, draws :: Outage(cfg, times, draws) && Lasts(times, length) ==> |times| <= most
  }

  ghost predicate RetriesBounded(cfg: Config, length: nat) {
    exists most: nat :: BoundsRetries(cfg, length, most)
  }

  /** When loss `i` is handled in an outage whose losses follow one another without a pause, and
      whose draws are all `u`. */
  function FastTime(cfg: Config, i: nat, u: real): nat {
    if i == 0 then 0 else FastTime(cfg, i - 1, u) + Slept(cfg, i - 1, u)
  }

  lemma FastTimeNext(cfg: Config, i: nat, u: real)
    ensures FastTime(cfg, i + 1, u) == FastTime(cfg, i, u) + Slept(cfg, i, u)
  {
    hide Slept;
  }

  lemma FastOutage(cfg: Config, n: nat, u: real) returns (times: seq<int>, draws: seq<real>)
    requires Draw(u)
    ensures |times| == n && Outage(cfg, times, draws)
    ensures 0 < n ==> Lasts(times, FastTime(cfg, n - 1, u))
  {
    assert FastTime(cfg, 0, u) == 0;
    times, draws := seq(n, i requires 0 <= i => FastTime(cfg, i, u)), seq(n, _ => u);
    hide Slept, FastTime, Draw;
    forall i, j | 0 <= i && j == i + 1 && j < n
      ensures times[i] + Slept(cfg, i, draws[i]) <= times[j]
    {
      FastTimeNext(cfg, i, u);
    }
  }

  /** Past the attempt limit the handler no longer sleeps at all, ... */
  lemma {:induction false} FastTimeSettles(cfg: Config, i: nat, u: real)
    requires 0 < cfg.maxAttempts <= i
    ensures FastTime(cfg, i, u) == FastTime(cfg, cfg.maxAttempts, u)
    decreases i
  {
    if cfg.maxAttempts < i {
      FastTimeSettles(cfg, i - 1, u);
      SleptIs(cfg, i - 1, u);
    }
  }

  lemma NoDelay(cfg: Config, i: nat)
    requires cfg.Sane() && (1.0 - cfg.jitterFactor) * cfg.maxDelay as real < 1.0
    ensures Delay(cfg, i, 0.0) == 0
  {
    var e := Envelope(cfg, i);
    hide Delay, Envelope;
    EnvelopeRange(cfg, i);
    DelayIs(cfg, i, 0.0);
    assert Varied(e, cfg.jitterFactor, 0.0) == (1.0 - cfg.jitterFactor) * e;
    MulMono(e, cfg.maxDelay as real, 1.0 - cfg.jitterFactor);
  }

  /** ... and if the variance can take all of the cap away, the lowest draw never makes it sleep. */
  lemma {:induction false} FastTimeStands(cfg: Config, i: nat)
    requires cfg.Sane() && (1.0 - cfg.jitterFactor) * cfg.maxDelay as real < 1.0
    ensures FastTime(cfg, i, 0.0) == 0
  {
    if i != 0 {
      FastTimeStands(cfg, i - 1);
      NoDelay(cfg, i - 1);
      SleptIs(cfg, i - 1, 0.0);
      hide Delay;
    }
  }

  ghost predicate StaysWithin(cfg: Config, u: real, from: nat, length: nat) {
    forall i: nat :: from <= i ==> FastTime(cfg, i, u) <= length
  }

  lemma Unbounded(cfg: Config, u: real, from: nat, length: nat)
    requires Draw(u) && StaysWithin(cfg, u, from, length)
    ensures !RetriesBounded(cfg, length)
  {
    hide FastTime, Outage;
    forall most: nat
      ensures !BoundsRetries(cfg, length, most)
    {
      var times, draws := FastOutage(cfg, most + from + 1, u);
      assert FastTime(cfg, most + from, u) <= length;
      assert Lasts(times, length);
    }
  }

  /** WHEN AN OUTAGE BOUNDS ITS RETRIES: exactly if there is no attempt limit, and the variance leaves
      at least a nanosecond of the cap. */
  lemma RetriesBoundedIff(cfg: Config, k: nat)
    requires cfg.Sane() && 1.0 <= cfg.multiplier && Envelope(cfg, k) == cfg.maxDelay as real
    ensures (forall length: nat :: RetriesBounded(cfg, length))
            <==> cfg.maxAttempts <= 0 && 1.0 <= (1.0 - cfg.jitterFactor) * cfg.maxDelay as real
  {
    hide Envelope, Outage, Lasts, Slept, FastTime;
    if 0 < cfg.maxAttempts {
      forall i: nat | cfg.maxAttempts <= i
        ensures FastTime(cfg, i, 0.5) == FastTime(cfg, cfg.maxAttempts, 0.5)
      {
        FastTimeSettles(cfg, i, 0.5);
      }
      Unbounded(cfg, 0.5, cfg.maxAttempts, FastTime(cfg, cfg.maxAttempts, 0.5));
    } else if (1.0 - cfg.jitterFactor) * cfg.maxDelay as real < 1.0 {
      forall i: nat
        ensures FastTime(cfg, i, 0.0) == 0
      {
        FastTimeStands(cfg, i);
      }
      Unbounded(cfg, 0.0, 0, 0);
    } else {
      CappedSleeps(cfg, k);
      assert SleepsAtLeast(cfg, k, 1.0);
      hide SleepsAtLeast;
      forall length: nat
        ensures RetriesBounded(cfg, length)
      {
        forall times, draws | Outage(cfg, times, draws) && Lasts(times, length)
          ensures |times| <= k + length + 1
        {
          LossesBounded(cfg, times, draws, length, k, 1.0);
        }
        assert BoundsRetries(cfg, length, k + length + 1);
      }
    }
  }
}

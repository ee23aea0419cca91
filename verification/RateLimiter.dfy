/** The token-bucket rate limiter: the bucket itself, the wait of a single caller with its two
    sleeps and its re-sleeping loop, and the simulated typing delay. */
module RateLimiters {
  import opened Timing

  /** Time since a send that never happened: the largest representable duration. */
  const MAX_DURATION := 0x7fff_ffff_ffff_ffff

  const TYPING_FLOOR := 400 * MILLISECOND

  datatype Config = Config(
    burstSize: int,
    sustainedPerMinute: real,
    minInterval: int,
    jitterFactor: real,
    typingCPS: real,
    maxTypingDelay: int)
  {
    function RefillPerSec(): real {
      sustainedPerMinute / 60.0
    }

    /** A bucket that refills at all, with a jitter factor in its documented range. */
    predicate Refills() {
      0.0 < sustainedPerMinute && 0.0 <= jitterFactor <= 1.0
    }
  }

  function Seconds(d: int): real {
    d as real / 1_000_000_000.0
  }

  /** The state guarded by the limiter's mutex. */
  datatype Bucket = Bucket(cfg: Config, tokens: real, lastRefill: int, lastSend: Option<int>)
  {
    predicate Within() {
      tokens <= cfg.burstSize as real && (1 <= cfg.burstSize ==> 0.0 <= tokens)
    }

    function SinceLastSend(now: int): int {
      if lastSend.None? then MAX_DURATION else now - lastSend.value
    }

    function Refill(now: int): (b: Bucket)
      ensures b == this.(tokens := b.tokens, lastRefill := now)
    {
      var t := tokens + Seconds(now - lastRefill) * cfg.RefillPerSec();
      this.(tokens := if t > cfg.burstSize as real then cfg.burstSize as real else t, lastRefill := now)
    }

    function Grant(at: int): Bucket {
      this.(tokens := tokens - 1.0, lastSend := Some(at))
    }

    /** Nanoseconds until one whole token is there. */
    function Remaining(): real
      requires 0.0 < cfg.sustainedPerMinute
    {
      (1.0 - tokens) / cfg.RefillPerSec() * 1_000_000_000.0
    }
  }

  function NewBucket(cfg: Config, now: int): Bucket {
    Bucket(cfg, cfg.burstSize as real, now, None)
  }

  // ---------- Refilling ----------

  lemma RefillBounds(b: Bucket, now: int)
    requires b.cfg.Refills() && b.Within() && b.lastRefill <= now
    ensures b.Refill(now).Within()
    ensures b.cfg.burstSize >= 1 ==> b.tokens <= b.Refill(now).tokens
    ensures b.Refill(now).tokens <= b.tokens + Seconds(now - b.lastRefill) * b.cfg.RefillPerSec()
  {
    MulMono(0.0, Seconds(now - b.lastRefill), b.cfg.RefillPerSec());
  }

  lemma PerMinute(d: int, perMinute: real)
    ensures d as real / 1_000_000_000.0 * (perMinute / 60.0) == perMinute * d as real / 60_000_000_000.0
  {
  }

  /** A bucket refills at so many tokens a minute, up to the burst size, ... */
  lemma RefillsPerMinute(b: Bucket, now: int)
    ensures
      var t := b.tokens + b.cfg.sustainedPerMinute * (now - b.lastRefill) as real / 60_000_000_000.0;
      b.Refill(now).tokens == if t <= b.cfg.burstSize as real then t else b.cfg.burstSize as real
  {
    PerMinute(now - b.lastRefill, b.cfg.sustainedPerMinute);
  }

  /** ... and a new one is full, and never stamped. */
  lemma NewBucketIsFull(cfg: Config, at: int, now: int)
    requires cfg.Refills() && at <= now
    ensures NewBucket(cfg, at).Refill(now) == Bucket(cfg, cfg.burstSize as real, now, None)
  {
    MulNonNegative(Seconds(now - at), cfg.RefillPerSec());
  }

  /** Refilling in two steps is refilling once: capping early loses nothing. */
  lemma RefillTwice(b: Bucket, mid: int, now: int)
    requires b.cfg.Refills() && mid <= now
    ensures b.Refill(mid).Refill(now) == b.Refill(now)
  {
    var r, first, second := b.cfg.RefillPerSec(), Seconds(mid - b.lastRefill), Seconds(now - mid);
    assert Seconds(now - b.lastRefill) == first + second;
    MulNonNegative(second, r);
    hide Config.RefillPerSec, Seconds;
    DistributeSum(first, second, r);
  }

  lemma RefillScalar(tokens: real, rate: real, y: real, e: real)
    requires 0.0 < rate && y * rate == 1.0 - tokens
    ensures y <= e <==> tokens + e * rate >= 1.0
    ensures 1.0 - (tokens + e * rate) == (y - e) * rate
  {
    Distribute(y, e, rate);
    MulSign(y - e, rate);
  }

  lemma RemainingIs(b: Bucket, wait: real)
    requires 0.0 < b.cfg.RefillPerSec() && 1.0 - b.tokens == wait * b.cfg.RefillPerSec()
    ensures b.Remaining() == wait * 1_000_000_000.0
  {
    hide Config.RefillPerSec;
    DivUnique(1.0 - b.tokens, b.cfg.RefillPerSec(), wait);
  }

  /** The remaining wait shrinks by exactly the time that passes, until the token is there. */
  lemma RemainingShrinks(b: Bucket, now: int)
    requires b.cfg.Refills() && 1 <= b.cfg.burstSize
    ensures b.Refill(now).tokens < 1.0 ==> b.Refill(now).Remaining() == b.Remaining() - (now - b.lastRefill) as real
    ensures b.Refill(now).tokens >= 1.0 <==> b.Remaining() <= (now - b.lastRefill) as real
  {
    var rate, e := b.cfg.RefillPerSec(), Seconds(now - b.lastRefill);
    var y := (1.0 - b.tokens) / rate;
    assert b.Remaining() == y * 1_000_000_000.0;
    hide Bucket.Remaining, Config.RefillPerSec;
    DivMul(1.0 - b.tokens, rate);
    RefillScalar(b.tokens, rate, y, e);
    assert b.Refill(now).tokens >= 1.0 <==> b.tokens + e * rate >= 1.0;
    if b.tokens + e * rate < 1.0 {
      RemainingIs(b.Refill(now), y - e);
    }
  }

  /** A wait can ever be granted exactly when the burst size is at least one. */
  lemma GrantableIffBurst(b: Bucket)
    requires b.cfg.Refills() && b.Within()
    ensures (exists now :: b.lastRefill <= now && b.Refill(now).tokens >= 1.0) <==> 1 <= b.cfg.burstSize
  {
    if 1 <= b.cfg.burstSize {
      var wait := b.Remaining();
      var now := b.lastRefill + if wait < 0.0 then 0 else wait.Floor + 1;
      RemainingShrinks(b, now);
      assert b.lastRefill <= now && b.Refill(now).tokens >= 1.0;
    }
  }

  lemma RefillAtOnce(b: Bucket)
    requires b.Within()
    ensures b.Refill(b.lastRefill) == b
  {
  }

  // ---------- One caller ----------

  /** From one round of the token loop to the next the remaining wait drops by at least a tick,
      and to about the jitter factor's share. */
  ghost predicate Shrinks(r: real, next: real, factor: real) {
    next <= r - 1.0 && next <= factor * r + (2.0 - factor)
  }

  /** The remaining waits found at the start of successive rounds of the token loop. */
  ghost predicate WaitTrace(waits: seq<real>, factor: real) {
    && (forall i :: 0 <= i < |waits| ==> 0.0 < waits[i])
    && (forall i, j :: 0 <= i && j == i + 1 && j < |waits| ==> Shrinks(waits[i], waits[j], factor))
  }

  /** The time in which one token is refilled. */
  function TokenTime(cfg: Config): real
    requires 0.0 < cfg.sustainedPerMinute
  {
    60.0 / cfg.sustainedPerMinute * 1_000_000_000.0
  }

  /** The longest any caller can wait for one token, variance included. */
  function LongestTokenWait(cfg: Config): real
    requires 0.0 < cfg.sustainedPerMinute
  {
    (1.0 + cfg.jitterFactor) * TokenTime(cfg)
  }

  /** What the configuration says about the number of rounds of a whole call: no more than the ticks of
      a token's time; and with a jitter factor below one a constant more than any `k` for which the
      factor to the power `k` shrinks that time to a tick. */
  ghost predicate RoundsWithin(cfg: Config, rounds: nat)
    requires cfg.Refills()
  {
    && rounds as real < TokenTime(cfg) + 1.0
    && (cfg.jitterFactor < 1.0 ==>
          forall k: nat :: Pow(cfg.jitterFactor, k) * TokenTime(cfg) <= 1.0 ==>
            rounds as real < k as real + 2.0 + Residue(cfg.jitterFactor))
  }

  function LongestMinWait(cfg: Config): real {
    if cfg.minInterval <= 0 then 0.0 else (1.0 + cfg.jitterFactor) * cfg.minInterval as real
  }

  /** `at` respects the minimum interval, less its variance, after the last stamp. */
  ghost predicate Spaced(cfg: Config, lastSend: Option<int>, at: int) {
    lastSend.Some? && 0 < cfg.minInterval ==>
      (1.0 - cfg.jitterFactor) * (cfg.minInterval as real) - 1.0 < (at - lastSend.value) as real
  }

  /** How far beyond a remaining wait `r` the sleep for it can go. */
  function Overshoot(factor: real, r: real, slack: nat): real {
    factor * r + 1.0 + slack as real
  }

  lemma TraceEmpty(factor: real)
    ensures WaitTrace([], factor)
  {
  }

  lemma TraceSnoc(waits: seq<real>, r: real, factor: real)
    requires WaitTrace(waits, factor) && 0.0 < r
    requires waits != [] ==> Shrinks(waits[|waits| - 1], r, factor)
    ensures WaitTrace(waits + [r], factor)
    ensures waits != [] ==> r <= waits[|waits| - 1]
  {
  }

  lemma SpacedFrom(cfg: Config, last: Option<int>, at: int)
    ensures Spaced(cfg, last, at) ==> forall later :: at <= later ==> Spaced(cfg, last, later)
  {
  }

  lemma MinWaitSpaces(b: Bucket, now: int, u: real)
    requires b.cfg.Refills() && Draw(u)
    ensures
      var minWait := Jitter(b.cfg.minInterval, b.cfg.jitterFactor, u);
      Spaced(b.cfg, b.lastSend, if b.SinceLastSend(now) < minWait then now + (minWait - b.SinceLastSend(now)) else now)
  {
    if 0 < b.cfg.minInterval {
      JitterEnvelope(b.cfg.minInterval, b.cfg.jitterFactor, u);
    }
  }

  lemma MinWaitBounded(cfg: Config, u: real)
    requires cfg.Refills() && Draw(u) && cfg.minInterval < 0x2000_0000_0000_0000
    ensures
      var minWait := Jitter(cfg.minInterval, cfg.jitterFactor, u);
      minWait < MAX_DURATION && (0 < minWait ==> minWait as real <= LongestMinWait(cfg)) && 0.0 <= LongestMinWait(cfg)
  {
    if 0 < cfg.minInterval {
      JitterEnvelope(cfg.minInterval, cfg.jitterFactor, u);
      MulMono(0.0, 1.0 + cfg.jitterFactor, cfg.minInterval as real);
      MulMono(1.0 + cfg.jitterFactor, 2.0, cfg.minInterval as real);
    }
  }

  class RateLimiter {
    const cfg: Config
    var tokens: real
    var lastRefill: int
    var lastSendTime: Option<int>

    function View(): Bucket
      reads this
    {
      Bucket(cfg, tokens, lastRefill, lastSendTime)
    }

    ghost predicate Valid(now: int)
      reads this
    {
      && cfg.Refills() && 1 <= cfg.burstSize && cfg.minInterval < 0x2000_0000_0000_0000
      && View().Within()
      && lastRefill <= now
      && (lastSendTime.Some? ==> lastSendTime.value <= now)
    }

    constructor (cfg: Config, now: int)
      ensures View() == NewBucket(cfg, now)
    {
      this.cfg := cfg;
      tokens := cfg.burstSize as real;
      lastRefill := now;
      lastSendTime := None;
    }

    method UpdateLastSend(clock: Clock)
      modifies this
      ensures View() == old(View()).(lastSend := Some(clock.now))
    {
      lastSendTime := Some(clock.now);
    }

    method RefillNow(clock: Clock)
      modifies this
      ensures View() == old(View()).Refill(clock.now)
    {
      var now := clock.now;
      var elapsed := Seconds(now - lastRefill);
      tokens := tokens + elapsed * cfg.RefillPerSec();
      if tokens > cfg.burstSize as real {
        tokens := cfg.burstSize as real;
      }
      lastRefill := now;
    }

    /** Enforces the minimum interval; `interrupted` when the context ended first. */
    method AwaitInterval(clock: Clock, cancellable: bool, slack: nat) returns (interrupted: bool)
      requires Valid(clock.now)
      modifies clock
      ensures Valid(clock.now)
      ensures interrupted ==> cancellable
      ensures !interrupted ==> Spaced(cfg, lastSendTime, clock.now)
      ensures lastSendTime.None? ==> !interrupted && clock.now == old(clock.now)
      ensures old(clock.now) <= clock.now
      ensures (clock.now - old(clock.now)) as real <= LongestMinWait(cfg) + slack as real
    {
      var u: real :| Draw(u);
      var minWait := Jitter(cfg.minInterval, cfg.jitterFactor, u);
      MinWaitBounded(cfg, u);
      MinWaitSpaces(View(), clock.now, u);
      hide Jitter, LongestMinWait, Spaced;
      SpacedFrom(cfg, lastSendTime, clock.now + (minWait - View().SinceLastSend(clock.now)));
      var sinceLastSend := View().SinceLastSend(clock.now);
      if sinceLastSend < minWait {
        var ended: bool := *;
        if cancellable && ended {
          clock.SleepInterrupted(minWait - sinceLastSend, slack);
          return true;
        }
        clock.Sleep(minWait - sinceLastSend, slack);
      }
      return false;
    }

    /** One round of the token loop: sleep a varied estimate of the remaining wait, then refill. */
    method TokenRound(clock: Clock, cancellable: bool, slack: nat) returns (interrupted: bool)
      requires Valid(clock.now) && lastRefill == clock.now && tokens < 1.0
      modifies this, clock
      ensures Valid(clock.now) && old(clock.now) <= clock.now
      ensures (clock.now - old(clock.now)) as real
              <= old(View().Remaining()) + Overshoot(cfg.jitterFactor, old(View().Remaining()), slack)
      ensures interrupted ==> cancellable && View() == old(View())
      ensures !interrupted ==>
                && lastRefill == clock.now
                && View() == old(View()).Refill(clock.now)
                && (tokens < 1.0 ==>
                      && View().Remaining() == old(View().Remaining()) - (clock.now - old(clock.now)) as real
                      && Shrinks(old(View().Remaining()), View().Remaining(), cfg.jitterFactor))
    {
      var deficit := 1.0 - tokens;
      var baseWait := Trunc(deficit / cfg.RefillPerSec() * 1_000_000_000.0);
      var u: real :| Draw(u);
      var sleepFor := Jitter(baseWait, cfg.jitterFactor, u);
      var ended: bool := *;
      ghost var b := View();
      if cancellable && ended {
        clock.SleepInterrupted(sleepFor, slack);
        RoundIsBrief(b, u, slack);
        return true;
      }
      clock.Sleep(sleepFor, slack);
      RoundIsBrief(b, u, slack);
      RoundFacts(b, u, clock.now);
      RefillNow(clock);
      return false;
    }

    /** The token loop: it always ends, and what the earlier rounds take is what the first wait
        loses, so only the last round can overshoot. */
    method AwaitToken(clock: Clock, cancellable: bool, slack: nat)
      returns (interrupted: bool, ghost waits: seq<real>)
      requires Valid(clock.now) && lastRefill == clock.now
      modifies this, clock
      ensures Valid(clock.now) && old(clock.now) <= lastRefill
      ensures interrupted ==> cancellable
      ensures !interrupted ==> tokens >= 1.0 && lastRefill == clock.now
      ensures old(tokens) >= 1.0 ==> !interrupted && waits == []
      ensures View() == old(View()).Refill(lastRefill)
      ensures WaitTrace(waits, cfg.jitterFactor)
      ensures waits == [] ==> clock.now == old(clock.now)
      ensures waits != [] ==>
                && old(tokens) < 1.0
                && waits[|waits| - 1] <= waits[0] == old(View().Remaining())
                && (clock.now - old(clock.now)) as real
                   <= waits[0] + Overshoot(cfg.jitterFactor, waits[|waits| - 1], slack)
    {
      hide Bucket.Remaining, Bucket.Refill, Shrinks, WaitTrace, Overshoot;
      waits := [];
      TraceEmpty(cfg.jitterFactor);
      ghost var first, start := View(), clock.now;
      RefillAtOnce(first);
      ghost var r := View().Remaining();
      if tokens < 1.0 {
        RemainingPositive(View());
      }
      while tokens < 1.0
        invariant Valid(clock.now) && lastRefill == clock.now && start <= clock.now
        invariant View() == first.Refill(clock.now)
        invariant tokens < 1.0 ==> 0.0 < r == View().Remaining() == first.Remaining() - (clock.now - start) as real
        invariant WaitTrace(waits, cfg.jitterFactor)
        invariant waits == [] ==> clock.now == start && View() == first
        invariant waits != [] ==>
                    && first.tokens < 1.0 && waits[|waits| - 1] <= waits[0] == first.Remaining()
                    && (tokens < 1.0 ==> Shrinks(waits[|waits| - 1], r, cfg.jitterFactor))
                    && (clock.now - start) as real
                       <= waits[0] + Overshoot(cfg.jitterFactor, waits[|waits| - 1], slack)
        decreases if tokens < 1.0 then r.Floor + 1 else 0
      {
        ghost var before := clock.now;
        interrupted := TokenRound(clock, cancellable, slack);
        TraceSnoc(waits, r, cfg.jitterFactor);
        waits := waits + [r];
        if interrupted {
          return;
        }
        RefillTwice(first, before, clock.now);
        r := if tokens < 1.0 then View().Remaining() else r;
        if tokens < 1.0 {
          RemainingPositive(View());
        }
      }
      interrupted := false;
    }

    /** WaitContext: blocks until a message may be sent, or until the context ends. */
    method WaitContext(clock: Clock, cancellable: bool, slack: nat)
      returns (granted: bool, ghost waits: seq<real>)
      requires Valid(clock.now)
      modifies this, clock
      ensures Valid(clock.now)
      ensures (granted || cancellable) && old(clock.now) <= clock.now
      // However many rounds it took: one refill, one token, one stamp ...
      ensures granted ==>
                && old(View()).Refill(lastRefill).tokens >= 1.0
                && View() == old(View()).Refill(lastRefill).Grant(clock.now)
                && Spaced(cfg, old(lastSendTime), clock.now)
      // ... the first sends of a new limiter do not wait for anything ...
      ensures old(lastSendTime).None? && 1.0 <= old(tokens) ==> granted && clock.now == old(clock.now)
      // ... and a cancelled wait consumes nothing and stamps nothing.
      ensures !granted ==> View() == old(View()) || View() == old(View()).Refill(lastRefill)
      ensures WaitTrace(waits, cfg.jitterFactor) && RoundsWithin(cfg, |waits|)
      ensures (clock.now - old(clock.now)) as real
              <= LongestMinWait(cfg) + LongestTokenWait(cfg) + 1.0 + 2.0 * slack as real
    {
      hide Bucket.Remaining, Bucket.Refill, LongestMinWait, LongestTokenWait, Spaced, WaitTrace, Overshoot, RoundsWithin;
      TraceEmpty(cfg.jitterFactor);
      ghost var b := View();
      NoRounds(cfg);
      LongestWaitsPositive(cfg);
      var interrupted := AwaitInterval(clock, cancellable, slack);
      if interrupted {
        return false, [];
      }
      RefillBounds(b, clock.now);
      RefillNow(clock);
      ghost var first := View();
      label refilled:
      interrupted, waits := AwaitToken(clock, cancellable, slack);
      RefillTwice(b, old@refilled(clock.now), lastRefill);
      SpacedFrom(cfg, b.lastSend, old@refilled(clock.now));
      if waits != [] {
        LastRoundIsBrief(first, waits[|waits| - 1], slack);
        RoundsFromConfig(first, waits);
      }
      if interrupted {
        return false, waits;
      }
      tokens := tokens - 1.0;
      lastSendTime := Some(clock.now);
      granted := true;
    }
  }

  lemma LongestWaitsPositive(cfg: Config)
    requires cfg.Refills()
    ensures 0.0 < LongestTokenWait(cfg) && 0.0 <= LongestMinWait(cfg)
  {
    if 0 < cfg.minInterval {
      MulMono(0.0, 1.0 + cfg.jitterFactor, cfg.minInterval as real);
    }
    TokenTimePositive(cfg);
    hide TokenTime;
    MulMono(1.0, 1.0 + cfg.jitterFactor, TokenTime(cfg));
  }

  lemma RemainingPositive(b: Bucket)
    requires b.cfg.Refills() && b.tokens < 1.0
    ensures 0.0 < b.Remaining()
  {
    DivPositive(1.0 - b.tokens, b.cfg.RefillPerSec());
  }

  lemma Expand(factor: real, r: real)
    ensures (1.0 - factor) * (r - 1.0) == r - factor * r - 1.0 + factor
    ensures (1.0 + factor) * r == r + factor * r
  {
  }

  lemma KeepShare(keep: real, r: real, base: real, slept: real)
    requires 0.0 <= keep && r - 1.0 <= base && keep * base - 1.0 < slept
    ensures keep * (r - 1.0) - 1.0 < slept
  {
    MulMono(r - 1.0, base, keep);
  }

  lemma CapShare(cap: real, r: real, base: real, slept: real)
    requires 0.0 <= cap && base <= r && slept <= cap * base
    ensures slept <= cap * r
  {
    MulMono(base, r, cap);
  }

  /** The sleep of one round, against the exact wait `r`: at least the jittered share of it up to
      rounding, and never more than its varied length. */
  lemma SleepBand(r: real, factor: real, u: real)
    requires 0.0 < r && 0.0 <= factor <= 1.0 && Draw(u)
    ensures 0 <= Jitter(Trunc(r), factor, u)
    ensures r - Jitter(Trunc(r), factor, u) as real <= factor * r + (2.0 - factor)
    ensures Jitter(Trunc(r), factor, u) as real <= r + factor * r
  {
    var slept := Jitter(Trunc(r), factor, u) as real;
    if 0 < Trunc(r) {
      JitterEnvelope(Trunc(r), factor, u);
    }
    hide Jitter;
    KeepShare(1.0 - factor, r, Trunc(r) as real, slept);
    CapShare(1.0 + factor, r, Trunc(r) as real, slept);
    Expand(factor, r);
  }

  /** The sleep of one round overshoots the wait by little, even if it lasts a whole tick. */
  lemma RoundIsBrief(b: Bucket, u: real, slack: nat)
    requires b.cfg.Refills() && b.tokens < 1.0 && Draw(u)
    ensures
      var asked := Jitter(Trunc(b.Remaining()), b.cfg.jitterFactor, u);
      ((if asked < 1 then 1 else asked) + slack) as real
      <= b.Remaining() + Overshoot(b.cfg.jitterFactor, b.Remaining(), slack)
  {
    hide Jitter, Bucket.Remaining;
    RemainingPositive(b);
    SleepBand(b.Remaining(), b.cfg.jitterFactor, u);
    MulMono(0.0, b.Remaining(), b.cfg.jitterFactor);
  }

  /** A whole sleep of one round contracts the wait. */
  lemma RoundFacts(b: Bucket, u: real, now: int)
    requires b.cfg.Refills() && 1 <= b.cfg.burstSize && b.Within() && b.tokens < 1.0 && Draw(u)
    requires b.lastRefill < now && b.lastRefill + Jitter(Trunc(b.Remaining()), b.cfg.jitterFactor, u) <= now
    ensures b.Refill(now).Within()
    ensures b.Refill(now).tokens < 1.0 ==>
              && b.Refill(now).Remaining() == b.Remaining() - (now - b.lastRefill) as real
              && Shrinks(b.Remaining(), b.Refill(now).Remaining(), b.cfg.jitterFactor)
  {
    hide Jitter, Bucket.Remaining, Bucket.Refill, Shrinks, Config.RefillPerSec, Seconds;
    assert b.Refill(now).Within() by {
      RefillBounds(b, now);
    }
    RemainingPositive(b);
    RemainingShrinks(b, now);
    SleepShrinks(b.Remaining(), b.cfg.jitterFactor, u, now - b.lastRefill);
  }

  lemma SleepShrinks(r: real, factor: real, u: real, elapsed: int)
    requires 0.0 < r && 0.0 <= factor <= 1.0 && Draw(u)
    requires 1 <= elapsed && Jitter(Trunc(r), factor, u) <= elapsed
    ensures Shrinks(r, r - elapsed as real, factor)
  {
    hide Jitter;
    SleepBand(r, factor, u);
  }

  lemma TokenTimePositive(cfg: Config)
    requires 0.0 < cfg.sustainedPerMinute
    ensures 0.0 < TokenTime(cfg)
  {
    DivPositive(60.0, cfg.sustainedPerMinute);
  }

  lemma TokenShare(share: real, rate: real, perMinute: real)
    requires 0.0 < perMinute && rate == perMinute / 60.0
    ensures share / rate == share * (60.0 / perMinute)
  {
    var q := 60.0 / perMinute;
    DivMul(60.0, perMinute);
    MulAssoc(q, rate, 60.0);
    assert q * rate == 1.0;
    MulAssoc(share, q, rate);
    DivUnique(share, rate, share * q);
  }

  lemma RemainingAtMost(b: Bucket)
    requires b.cfg.Refills() && 0.0 <= b.tokens
    ensures b.Remaining() <= TokenTime(b.cfg)
  {
    var perToken := 60.0 / b.cfg.sustainedPerMinute;
    TokenShare(1.0 - b.tokens, b.cfg.RefillPerSec(), b.cfg.sustainedPerMinute);
    DivPositive(60.0, b.cfg.sustainedPerMinute);
    MulMono(1.0 - b.tokens, 1.0, perToken);
  }

  lemma VariedSum(x: real, y: real, p: real, factor: real)
    requires x <= p && y <= p && 0.0 <= factor
    ensures x + factor * y <= (1.0 + factor) * p
  {
    MulMono(y, p, factor);
  }

  lemma LastRoundIsBrief(first: Bucket, last: real, slack: nat)
    requires first.cfg.Refills() && 0.0 <= first.tokens < 1.0 && last <= first.Remaining()
    ensures first.Remaining() + Overshoot(first.cfg.jitterFactor, last, slack)
            <= LongestTokenWait(first.cfg) + 1.0 + slack as real
  {
    RemainingAtMost(first);
    hide Bucket.Remaining, TokenTime;
    VariedSum(first.Remaining(), last, TokenTime(first.cfg), first.cfg.jitterFactor);
  }

  // ---------- How many rounds ----------

  /** The fixed point of the per-round contraction: rounding keeps the wait from shrinking below it. */
  function Residue(factor: real): real
    requires factor < 1.0
  {
    (2.0 - factor) / (1.0 - factor)
  }

  lemma ResidueFixed(factor: real)
    requires 0.0 <= factor < 1.0
    ensures factor * Residue(factor) + (2.0 - factor) == Residue(factor)
    ensures 0.0 < Residue(factor)
  {
    var x := Residue(factor);
    assert x * (1.0 - factor) == 2.0 - factor;
  }

  lemma ContractOnce(factor: real, r: real, next: real, p: real, w: real, residue: real)
    requires 0.0 <= factor && r <= p * w + residue && next <= factor * r + (2.0 - factor)
    requires factor * residue + (2.0 - factor) == residue
    ensures next <= (factor * p) * w + residue
  {
    MulMono(r, p * w + residue, factor);
    assert factor * (p * w + residue) == (factor * p) * w + factor * residue;
  }

  /** The remaining wait contracts geometrically ... */
  lemma {:induction false} WaitsContract(waits: seq<real>, factor: real, i: nat)
    requires WaitTrace(waits, factor) && 0.0 <= factor < 1.0 && i < |waits|
    ensures waits[i] <= Pow(factor, i) * waits[0] + Residue(factor)
  {
    ResidueFixed(factor);
    if i != 0 {
      WaitsContract(waits, factor, i - 1);
      assert Shrinks(waits[i - 1], waits[i], factor);
      hide Residue;
      ContractOnce(factor, waits[i - 1], waits[i], Pow(factor, i - 1), waits[0], Residue(factor));
    }
  }

  lemma {:induction false} WaitsTick(waits: seq<real>, factor: real, k: nat, i: nat)
    requires WaitTrace(waits, factor) && k <= i < |waits|
    ensures waits[i] <= waits[k] - (i - k) as real
    decreases i
  {
    if k < i {
      WaitsTick(waits, factor, k, i - 1);
      assert Shrinks(waits[i - 1], waits[i], factor);
    }
  }

  /** ... so the loop takes logarithmically many rounds: at most a constant more than any `k` for
      which `factor` to the power `k` has shrunk the first wait to one tick. */
  lemma LogarithmicRounds(waits: seq<real>, factor: real, k: nat)
    requires WaitTrace(waits, factor) && 0.0 <= factor < 1.0
    requires waits != [] && Pow(factor, k) * waits[0] <= 1.0
    ensures |waits| as real < k as real + 2.0 + Residue(factor)
  {
    ResidueFixed(factor);
    if k < |waits| {
      WaitsContract(waits, factor, k);
      WaitsTick(waits, factor, k, |waits| - 1);
    }
  }

  /** With any jitter factor up to one, the rounds are bounded by the ticks in the first wait. */
  lemma RoundsAtMostTicks(waits: seq<real>, factor: real)
    requires WaitTrace(waits, factor) && waits != []
    ensures |waits| as real < waits[0] + 1.0
  {
    WaitsTick(waits, factor, 0, |waits| - 1);
  }

  lemma NoRounds(cfg: Config)
    requires cfg.Refills()
    ensures RoundsWithin(cfg, 0)
  {
    TokenTimePositive(cfg);
    if cfg.jitterFactor < 1.0 {
      ResidueFixed(cfg.jitterFactor);
    }
    hide TokenTime, Residue;
  }

  /** The first wait is at most a token's time, so the configuration bounds the rounds of any call. */
  lemma RoundsFromConfig(first: Bucket, waits: seq<real>)
    requires first.cfg.Refills() && 0.0 <= first.tokens
    requires WaitTrace(waits, first.cfg.jitterFactor) && waits != [] && waits[0] == first.Remaining()
    ensures RoundsWithin(first.cfg, |waits|)
  {
    var factor, longest := first.cfg.jitterFactor, TokenTime(first.cfg);
    RemainingAtMost(first);
    RoundsAtMostTicks(waits, factor);
    hide Bucket.Remaining, TokenTime, WaitTrace, Pow;
    if factor < 1.0 {
      hide Residue;
      forall k: nat | Pow(factor, k) * longest <= 1.0
        ensures |waits| as real < k as real + 2.0 + Residue(factor)
      {
        PowNonNegative(factor, k);
        MulMono(waits[0], longest, Pow(factor, k));
        LogarithmicRounds(waits, factor, k);
      }
    }
  }

  // ---------- Typing ----------

  /** Cap first, then floor; both replacement values are jittered after the comparison. */
  function CapThenFloor(delay: int, maxDelay: int, capped: int, floored: int): int {
    var d := if delay > maxDelay then capped else delay;
    if d < TYPING_FLOOR then floored else d
  }

  function TypingBase(cfg: Config, textLen: int): int
    requires 0.0 < cfg.typingCPS
  {
    Trunc(textLen as real / cfg.typingCPS * 1000.0) * MILLISECOND
  }

  /** The typing time of a text at the configured speed, in whole milliseconds. */
  lemma TypingBaseIs(cfg: Config, textLen: nat)
    requires 0.0 < cfg.typingCPS
    ensures
      var base := TypingBase(cfg, textLen);
      && base % MILLISECOND == 0
      && base as real <= textLen as real / cfg.typingCPS * 1_000_000_000.0 < (base + MILLISECOND) as real
  {
    var x := textLen as real / cfg.typingCPS;
    DivNonNegative(textLen as real, cfg.typingCPS);
    assert TypingBase(cfg, textLen) == (x * 1000.0).Floor * MILLISECOND;
  }

  /** Without variance the typing time is cut at the cap and then raised to the floor. */
  lemma TypingDelayExact(cfg: Config, textLen: int, u: real, uCap: real, uFloor: real)
    requires 0.0 < cfg.typingCPS && cfg.jitterFactor == 0.0 && 0 < textLen
    ensures
      var base, cap := TypingBase(cfg, textLen), cfg.maxTypingDelay;
      var cut := if base <= cap then base else cap;
      TypingDelay(cfg, textLen, u, uCap, uFloor) == if cut < 400_000_000 then 400_000_000 else cut
  {
    hide TypingBase, Jitter;
    NoJitter(TypingBase(cfg, textLen), u);
    NoJitter(cfg.maxTypingDelay, uCap);
    NoJitter(TYPING_FLOOR, uFloor);
  }

  lemma NoJitter(d: int, u: real)
    ensures Jitter(d, 0.0, u) == d
  {
    assert Share(0.0, u) == 1.0;
  }

  /** How long to show the typing indicator: three draws, one per jitter that may be applied. */
  function TypingDelay(cfg: Config, textLen: int, u: real, uCap: real, uFloor: real): (delay: int)
    requires 0.0 < cfg.typingCPS
    ensures textLen <= 0 ==> delay == 0
  {
    if textLen <= 0 then 0 else
      CapThenFloor(
        Jitter(TypingBase(cfg, textLen), cfg.jitterFactor, u),
        cfg.maxTypingDelay,
        Jitter(cfg.maxTypingDelay, cfg.jitterFactor, uCap),
        Jitter(TYPING_FLOOR, cfg.jitterFactor, uFloor))
  }

  lemma ClampBand(delay: int, maxDelay: int, capped: int, floored: int, lo: real, hi: real)
    requires lo < floored as real <= hi && capped as real <= hi && maxDelay as real <= hi
    requires lo < TYPING_FLOOR as real
    ensures lo < CapThenFloor(delay, maxDelay, capped, floored) as real <= hi
  {
  }

  lemma JitterAtMost(d: int, cap: int, factor: real, u: real)
    requires d <= cap && 0 < cap && 0.0 <= factor && Draw(u)
    ensures Jitter(d, factor, u) as real <= (1.0 + factor) * (cap as real)
    ensures d as real <= (1.0 + factor) * (cap as real)
  {
    MulMono(1.0, 1.0 + factor, cap as real);
    if 0 < d {
      JitterEnvelope(d, factor, u);
      CapShare(1.0 + factor, cap as real, d as real, Jitter(d, factor, u) as real);
    }
  }

  /** The cap and the floor hold up to the jitter that is applied after each of them. */
  lemma TypingDelayEnvelope(cfg: Config, textLen: int, u: real, uCap: real, uFloor: real)
    requires 0.0 < cfg.typingCPS && 0.0 <= cfg.jitterFactor <= 1.0
    requires Draw(u) && Draw(uCap) && Draw(uFloor) && 0 < textLen
    ensures
      var delay := TypingDelay(cfg, textLen, u, uCap, uFloor) as real;
      var cap := if cfg.maxTypingDelay < TYPING_FLOOR then TYPING_FLOOR else cfg.maxTypingDelay;
      && (1.0 - cfg.jitterFactor) * (TYPING_FLOOR as real) - 1.0 < delay
      && delay <= (1.0 + cfg.jitterFactor) * (cap as real)
  {
    hide Jitter, CapThenFloor, TypingBase;
    var j := cfg.jitterFactor;
    var cap := if cfg.maxTypingDelay < TYPING_FLOOR then TYPING_FLOOR else cfg.maxTypingDelay;
    JitterEnvelope(TYPING_FLOOR, j, uFloor);
    JitterAtMost(TYPING_FLOOR, cap, j, uFloor);
    JitterAtMost(cfg.maxTypingDelay, cap, j, uCap);
    ClampBand(Jitter(TypingBase(cfg, textLen), j, u), cfg.maxTypingDelay,
              Jitter(cfg.maxTypingDelay, j, uCap), Jitter(TYPING_FLOOR, j, uFloor),
              (1.0 - j) * (TYPING_FLOOR as real) - 1.0, (1.0 + j) * (cap as real));
  }

  /** Some draws lead to the floor: the varied typing time can stay under it without being capped,
      or it can be capped and the varied cap falls under it. */
  predicate FloorTaken(cfg: Config, textLen: int)
    requires 0.0 < cfg.typingCPS
  {
    var base, cap := TypingBase(cfg, textLen), cfg.maxTypingDelay;
    || JitterFalls(base, cfg.jitterFactor, if cap < TYPING_FLOOR then cap + 1 else TYPING_FLOOR)
    || (CapTaken(cfg, textLen) && JitterFalls(cap, cfg.jitterFactor, TYPING_FLOOR))
  }

  /** Some draw varies the typing time beyond the cap. */
  predicate CapTaken(cfg: Config, textLen: int)
    requires 0.0 < cfg.typingCPS
  {
    JitterReaches(TypingBase(cfg, textLen), cfg.jitterFactor, cfg.maxTypingDelay + 1)
  }

  /** The draws under which the typing time takes a given way through the cap and the floor. */
  ghost predicate Capped(cfg: Config, textLen: int, u: real)
    requires 0.0 < cfg.typingCPS
  {
    Draw(u) && cfg.maxTypingDelay < Jitter(TypingBase(cfg, textLen), cfg.jitterFactor, u)
  }

  ghost predicate Floored(cfg: Config, textLen: int, u: real, uCap: real)
    requires 0.0 < cfg.typingCPS
  {
    && Draw(u) && Draw(uCap)
    && (if Capped(cfg, textLen, u) then Jitter(cfg.maxTypingDelay, cfg.jitterFactor, uCap)
        else Jitter(TypingBase(cfg, textLen), cfg.jitterFactor, u)) < TYPING_FLOOR
  }

  lemma CapTakenIff(cfg: Config, textLen: int)
    requires 0.0 < cfg.typingCPS && 0.0 <= cfg.jitterFactor <= 1.0
    ensures (exists u :: Capped(cfg, textLen, u)) <==> CapTaken(cfg, textLen)
  {
    hide Jitter, JitterReaches, TypingBase;
    var base, j, over := TypingBase(cfg, textLen), cfg.jitterFactor, cfg.maxTypingDelay + 1;
    JitterReachesIff(base, j, over);
    if CapTaken(cfg, textLen) {
      var u :| Draw(u) && over <= Jitter(base, j, u);
      assert Capped(cfg, textLen, u);
    }
  }

  lemma FloorTakenIff(cfg: Config, textLen: int)
    requires 0.0 < cfg.typingCPS && 0.0 <= cfg.jitterFactor <= 1.0
    ensures (exists u, uCap :: Floored(cfg, textLen, u, uCap)) <==> FloorTaken(cfg, textLen)
  {
    hide Jitter, JitterReaches, JitterFalls, TypingBase;
    var base, j, cap := TypingBase(cfg, textLen), cfg.jitterFactor, cfg.maxTypingDelay;
    var under := if cap < TYPING_FLOOR then cap + 1 else TYPING_FLOOR;
    JitterFallsIff(base, j, under);
    JitterFallsIff(cap, j, TYPING_FLOOR);
    CapTakenIff(cfg, textLen);
    if JitterFalls(base, j, under) {
      var u :| Draw(u) && Jitter(base, j, u) < under;
      assert Floored(cfg, textLen, u, u);
    } else if CapTaken(cfg, textLen) && JitterFalls(cap, j, TYPING_FLOOR) {
      var u :| Capped(cfg, textLen, u);
      var uCap :| Draw(uCap) && Jitter(cap, j, uCap) < TYPING_FLOOR;
      assert Floored(cfg, textLen, u, uCap);
    }
  }

  lemma TypingDelayIs(cfg: Config, textLen: int, u: real, uCap: real, uFloor: real)
    requires 0.0 < cfg.typingCPS && 0 < textLen && Draw(u) && Draw(uCap)
    ensures TypingDelay(cfg, textLen, u, uCap, uFloor) ==
            if Floored(cfg, textLen, u, uCap) then Jitter(TYPING_FLOOR, cfg.jitterFactor, uFloor)
            else if Capped(cfg, textLen, u) then Jitter(cfg.maxTypingDelay, cfg.jitterFactor, uCap)
            else Jitter(TypingBase(cfg, textLen), cfg.jitterFactor, u)
  {
  }

  lemma FloorFalls(factor: real)
    requires 0.0 <= factor <= 1.0
    ensures (exists u :: Draw(u) && Jitter(TYPING_FLOOR, factor, u) < TYPING_FLOOR) <==> factor != 0.0
  {
    JitterFallsIff(TYPING_FLOOR, factor, TYPING_FLOOR);
  }

  ghost predicate KeepsFloor(cfg: Config, textLen: int)
    requires 0.0 < cfg.typingCPS
  {
    forall u, uCap, uFloor :: Draw(u) && Draw(uCap) && Draw(uFloor) ==>
      TYPING_FLOOR <= TypingDelay(cfg, textLen, u, uCap, uFloor)
  }

  ghost predicate KeepsCap(cfg: Config, textLen: int)
    requires 0.0 < cfg.typingCPS
  {
    forall u, uCap, uFloor :: Draw(u) && Draw(uCap) && Draw(uFloor) ==>
      TypingDelay(cfg, textLen, u, uCap, uFloor) <= cfg.maxTypingDelay
  }

  /** The documented floor, for every text and every cap: it holds iff there is a text, and either
      no variance or no draw that leads to the floor at all. */
  lemma TypingFloorIff(cfg: Config, textLen: int)
    requires 0.0 < cfg.typingCPS && 0.0 <= cfg.jitterFactor <= 1.0
    ensures KeepsFloor(cfg, textLen) <==> 0 < textLen && (cfg.jitterFactor == 0.0 || !FloorTaken(cfg, textLen))
  {
    hide Jitter, TypingBase, FloorTaken;
    var j := cfg.jitterFactor;
    FloorTakenIff(cfg, textLen);
    FloorFalls(j);
    assert Draw(0.5);
    if textLen <= 0 {
      assert TypingDelay(cfg, textLen, 0.5, 0.5, 0.5) < TYPING_FLOOR;
    } else if j != 0.0 && FloorTaken(cfg, textLen) {
      var u, uCap :| Floored(cfg, textLen, u, uCap);
      var uFloor :| Draw(uFloor) && Jitter(TYPING_FLOOR, j, uFloor) < TYPING_FLOOR;
      TypingDelayIs(cfg, textLen, u, uCap, uFloor);
      assert TypingDelay(cfg, textLen, u, uCap, uFloor) < TYPING_FLOOR;
    } else {
      forall u, uCap, uFloor | Draw(u) && Draw(uCap) && Draw(uFloor)
        ensures TYPING_FLOOR <= TypingDelay(cfg, textLen, u, uCap, uFloor)
      {
        TypingDelayIs(cfg, textLen, u, uCap, uFloor);
      }
    }
  }

  /** The documented cap, for every text and every cap: it holds iff neither the varied cap, where it
      is taken and stays above the floor, nor the varied floor, where it is taken, exceeds it. */
  lemma TypingCapIff(cfg: Config, textLen: int)
    requires 0.0 < cfg.typingCPS && 0.0 <= cfg.jitterFactor <= 1.0
    ensures
      var j, cap := cfg.jitterFactor, cfg.maxTypingDelay;
      KeepsCap(cfg, textLen) <==>
      if textLen <= 0 then 0 <= cap
      else
        && !(CapTaken(cfg, textLen) && JitterReaches(cap, j, if cap < TYPING_FLOOR then TYPING_FLOOR else cap + 1))
        && !(FloorTaken(cfg, textLen) && JitterReaches(TYPING_FLOOR, j, cap + 1))
  {
    hide Jitter, JitterReaches, TypingBase, FloorTaken, CapTaken;
    var j, cap := cfg.jitterFactor, cfg.maxTypingDelay;
    var over := if cap < TYPING_FLOOR then TYPING_FLOOR else cap + 1;
    FloorTakenIff(cfg, textLen);
    CapTakenIff(cfg, textLen);
    JitterReachesIff(cap, j, over);
    JitterReachesIff(TYPING_FLOOR, j, cap + 1);
    assert Draw(0.5);
    if textLen <= 0 {
      assert TypingDelay(cfg, textLen, 0.5, 0.5, 0.5) == 0;
    } else if CapTaken(cfg, textLen) && JitterReaches(cap, j, over) {
      var u :| Capped(cfg, textLen, u);
      var uCap :| Draw(uCap) && over <= Jitter(cap, j, uCap);
      TypingDelayIs(cfg, textLen, u, uCap, 0.5);
      assert cap < TypingDelay(cfg, textLen, u, uCap, 0.5);
    } else if FloorTaken(cfg, textLen) && JitterReaches(TYPING_FLOOR, j, cap + 1) {
      var u, uCap :| Floored(cfg, textLen, u, uCap);
      var uFloor :| Draw(uFloor) && cap + 1 <= Jitter(TYPING_FLOOR, j, uFloor);
      TypingDelayIs(cfg, textLen, u, uCap, uFloor);
      assert cap < TypingDelay(cfg, textLen, u, uCap, uFloor);
    } else {
      forall u, uCap, uFloor | Draw(u) && Draw(uCap) && Draw(uFloor)
        ensures TypingDelay(cfg, textLen, u, uCap, uFloor) <= cap
      {
        TypingDelayIs(cfg, textLen, u, uCap, uFloor);
        assert Floored(cfg, textLen, u, uCap) ==> FloorTaken(cfg, textLen);
        assert Capped(cfg, textLen, u) ==> CapTaken(cfg, textLen);
      }
    }
  }
}

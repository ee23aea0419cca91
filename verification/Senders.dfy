/** Any number of concurrent senders over a limiter that can be replaced at run time.

    A send snapshots the current limiter, simulates typing, and then waits on that limiter.  The
    limiter's mutex is released while a waiter sleeps, at two places, so the waiters interleave;
    one step below is one critical section. */
module Senders {
  import opened Timing
  import opened RateLimiters

  /** A limiter with the refill instants of all the grants it ever made. */
  datatype Limiter = Limiter(b: Bucket, log: seq<int>)

  datatype Phase =
    | Idle
    | Captured(lim: nat)
    | SleepingMin(lim: nat, until: int)
    | SleepingToken(lim: nat, until: int)

  /** A granted send; `previous` is the stamp it replaced. */
  datatype Sent = Sent(thread: nat, lim: nat, refill: int, stamp: int, previous: Option<int>)

  datatype System = System(now: int, limiters: seq<Limiter>, threads: map<nat, Phase>, sent: seq<Sent>)
  {
    function PhaseOf(t: nat): Phase {
      if t in threads then threads[t] else Idle
    }

    ghost predicate Wf() {
      && (forall i :: 0 <= i < |limiters| ==> limiters[i].b.cfg.Refills() && limiters[i].b.lastRefill <= now)
      && (forall t :: t in threads && threads[t] != Idle ==> threads[t].lim < |limiters|)
    }

    ghost predicate Sleeping(t: nat, l: nat) {
      var p := PhaseOf(t);
      (p.SleepingMin? || p.SleepingToken?) && p.lim == l
    }
  }

  datatype Op =
    | Tick(duration: nat)
    | Replace(cfg: Config)
    | Capture(t: nat)
    | Enter(t: nat, u: real, uToken: real, lag: nat)
    | Wake(t: nat, uToken: real, lag: nat)
    | Cancel(t: nat)
    | External(lim: nat)

  ghost predicate Enabled(s: System, op: Op) {
    match op
    case Tick(_) => true
    case Replace(cfg) => cfg.Refills()
    case Capture(t) => s.PhaseOf(t).Idle? && s.limiters != []
    case Enter(t, u, uToken, _) => s.PhaseOf(t).Captured? && Draw(u) && Draw(uToken)
    case Wake(t, uToken, _) =>
      var p := s.PhaseOf(t);
      (p.SleepingMin? || p.SleepingToken?) && p.until <= s.now && Draw(uToken)
    case Cancel(t) => s.PhaseOf(t).SleepingMin? || s.PhaseOf(t).SleepingToken?
    case External(l) => l < |s.limiters|
  }

  /** Refill, then either take a token or go to sleep for one.  `lag` is the time from the refill to
      the stamp inside the critical section. */
  ghost function Section(s: System, t: nat, l: nat, uToken: real, lag: nat): System
    requires s.Wf() && l < |s.limiters|
  {
    var b := s.limiters[l].b.Refill(s.now);
    var log := s.limiters[l].log;
    if b.tokens < 1.0 then
      var until := s.now + Jitter(Trunc(b.Remaining()), b.cfg.jitterFactor, uToken);
      s.(limiters := s.limiters[l := Limiter(b, log)], threads := s.threads[t := SleepingToken(l, until)])
    else
      var stamp := s.now + lag;
      System(stamp, s.limiters[l := Limiter(b.Grant(stamp), log + [s.now])], s.threads[t := Idle],
             s.sent + [Sent(t, l, s.now, stamp, b.lastSend)])
  }

  ghost function Step(s: System, op: Op): System
    requires s.Wf()
  {
    if !Enabled(s, op) then s else
      match op
      case Tick(d) => s.(now := s.now + d)
      case Replace(cfg) => s.(limiters := s.limiters + [Limiter(NewBucket(cfg, s.now), [])])
      case Capture(t) => s.(threads := s.threads[t := Captured(|s.limiters| - 1)])
      case Enter(t, u, uToken, lag) =>
        var l := s.PhaseOf(t).lim;
        var b := s.limiters[l].b;
        var minWait := Jitter(b.cfg.minInterval, b.cfg.jitterFactor, u);
        if b.SinceLastSend(s.now) < minWait
        then s.(threads := s.threads[t := SleepingMin(l, s.now + (minWait - b.SinceLastSend(s.now)))])
        else Section(s, t, l, uToken, lag)
      case Wake(t, uToken, lag) => Section(s, t, s.PhaseOf(t).lim, uToken, lag)
      case Cancel(t) => s.(threads := s.threads[t := Idle])
      case External(l) =>
        var lim := s.limiters[l];
        s.(limiters := s.limiters[l := lim.(b := lim.b.(lastSend := Some(s.now)))])
  }

  ghost function Start(now: int): System {
    System(now, [], map[], [])
  }

  ghost function Exec(now: int, ops: seq<Op>): (s: System)
    ensures s.Wf()
    decreases |ops|
  {
    if ops == [] then Start(now) else
      StepKeepsWf(Exec(now, ops[..|ops| - 1]), ops[|ops| - 1]);
      Step(Exec(now, ops[..|ops| - 1]), ops[|ops| - 1])
  }

  lemma StepKeepsWf(s: System, op: Op)
    requires s.Wf()
    ensures Step(s, op).Wf()
  {
    hide Bucket.Remaining, Jitter;
  }

  // ---------- Grants in a window ----------

  function Count(log: seq<int>, from: int, to: int): nat {
    if log == [] then 0
    else Count(log[..|log| - 1], from, to) + if from <= log[|log| - 1] <= to then 1 else 0
  }

  /** What a limiter may grant in a window of `d` nanoseconds: a full burst plus so many a minute. */
  function Allowance(cfg: Config, d: int): real {
    (if cfg.burstSize < 0 then 0 else cfg.burstSize) as real + cfg.sustainedPerMinute * d as real / 60_000_000_000.0
  }

  lemma Sustained(perMinute: real, d: int)
    ensures d as real / 1_000_000_000.0 * (perMinute / 60.0) == perMinute * d as real / 60_000_000_000.0
  {
  }

  lemma AllowanceSplits(cfg: Config, d: int, e: int)
    requires cfg.Refills() && 0 <= e
    ensures Allowance(cfg, d + e) == Allowance(cfg, d) + Seconds(e) * cfg.RefillPerSec()
    ensures Allowance(cfg, d) <= Allowance(cfg, d + e)
    ensures cfg.burstSize as real <= Allowance(cfg, e) && 0.0 <= Allowance(cfg, e)
  {
    var rate := cfg.sustainedPerMinute;
    MulNonNegative(rate, e as real);
    Sustained(rate, e);
    assert rate * (d + e) as real == rate * d as real + rate * e as real;
  }

  lemma {:induction false} CountNone(log: seq<int>, last: int, from: int, to: int)
    requires forall k :: 0 <= k < |log| ==> log[k] <= last
    requires last < from
    ensures Count(log, from, to) == 0
    decreases |log|
  {
    if log != [] {
      CountNone(log[..|log| - 1], last, from, to);
    }
  }

  lemma {:induction false} CountSaturates(log: seq<int>, last: int, from: int, to: int)
    requires forall k :: 0 <= k < |log| ==> log[k] <= last
    requires last <= to
    ensures Count(log, from, to) == Count(log, from, last)
    decreases |log|
  {
    if log != [] {
      CountSaturates(log[..|log| - 1], last, from, to);
    }
  }

  ghost predicate WindowOk(l: Limiter) {
    forall from, to :: from <= to ==> Count(l.log, from, to) as real <= Allowance(l.b.cfg, to - from)
  }

  ghost predicate TailOk(l: Limiter) {
    1 <= l.b.cfg.burstSize ==>
      forall from :: from <= l.b.lastRefill ==>
        Count(l.log, from, l.b.lastRefill) as real + l.b.tokens <= Allowance(l.b.cfg, l.b.lastRefill - from)
  }

  ghost predicate LimiterInv(l: Limiter) {
    && l.b.cfg.Refills() && l.b.Within()
    && (forall k :: 0 <= k < |l.log| ==> l.log[k] <= l.b.lastRefill)
    && (l.b.cfg.burstSize < 1 ==> l.log == [])
    && WindowOk(l) && TailOk(l)
  }

  lemma NewKeeps(cfg: Config, now: int)
    requires cfg.Refills()
    ensures LimiterInv(Limiter(NewBucket(cfg, now), []))
  {
    var l := Limiter(NewBucket(cfg, now), []);
    forall from, to | from <= to
      ensures Count(l.log, from, to) as real <= Allowance(cfg, to - from)
      ensures cfg.burstSize as real <= Allowance(cfg, to - from)
    {
      AllowanceSplits(cfg, 0, to - from);
    }
  }

  lemma RefillKeeps(l: Limiter, now: int)
    requires LimiterInv(l) && l.b.lastRefill <= now
    ensures LimiterInv(l.(b := l.b.Refill(now)))
  {
    var cfg, last, b := l.b.cfg, l.b.lastRefill, l.b.Refill(now);
    hide Allowance, Bucket.Refill;
    RefillBounds(l.b, now);
    forall from | from <= now && 1 <= cfg.burstSize
      ensures Count(l.log, from, now) as real + b.tokens <= Allowance(cfg, now - from)
    {
      if from <= last {
        CountSaturates(l.log, last, from, now);
        AllowanceSplits(cfg, last - from, now - last);
      } else {
        CountNone(l.log, last, from, now);
        AllowanceSplits(cfg, 0, now - from);
      }
    }
  }

  lemma GrantKeeps(l: Limiter, stamp: int)
    requires LimiterInv(l) && 1.0 <= l.b.tokens
    ensures LimiterInv(Limiter(l.b.Grant(stamp), l.log + [l.b.lastRefill]))
  {
    var cfg, at := l.b.cfg, l.b.lastRefill;
    var log := l.log + [at];
    assert log[..|l.log|] == l.log;
    forall from, to | from <= to
      ensures Count(log, from, to) as real <= Allowance(cfg, to - from)
    {
      hide Allowance;
      if from <= at <= to {
        CountSaturates(l.log, at, from, to);
        AllowanceSplits(cfg, at - from, to - at);
      }
    }
    forall from | from <= at
      ensures Count(log, from, at) == Count(l.log, from, at) + 1
    {
    }
  }

  ghost predicate AllOk(s: System) {
    forall i :: 0 <= i < |s.limiters| ==> LimiterInv(s.limiters[i])
  }

  lemma SectionKeepsAllOk(s: System, t: nat, l: nat, uToken: real, lag: nat)
    requires s.Wf() && AllOk(s) && l < |s.limiters|
    ensures AllOk(Section(s, t, l, uToken, lag))
  {
    hide LimiterInv, Bucket.Remaining, Jitter, Bucket.Refill;
    var refilled := s.limiters[l].(b := s.limiters[l].b.Refill(s.now));
    RefillKeeps(s.limiters[l], s.now);
    if 1.0 <= refilled.b.tokens {
      GrantKeeps(refilled, s.now + lag);
    }
  }

  lemma StampKeeps(l: Limiter, now: int)
    requires LimiterInv(l)
    ensures LimiterInv(l.(b := l.b.(lastSend := Some(now))))
  {
  }

  lemma StepKeepsAllOk(s: System, op: Op)
    requires s.Wf() && AllOk(s)
    ensures AllOk(Step(s, op))
  {
    hide LimiterInv, Section, Jitter, Allowance;
    if Enabled(s, op) {
      match op
      case Replace(cfg) => NewKeeps(cfg, s.now);
      case Enter(t, u, uToken, lag) => SectionKeepsAllOk(s, t, s.PhaseOf(t).lim, uToken, lag);
      case Wake(t, uToken, lag) => SectionKeepsAllOk(s, t, s.PhaseOf(t).lim, uToken, lag);
      case External(l) => StampKeeps(s.limiters[l], s.now);
      case _ =>
    }
  }

  lemma {:induction false} AlwaysAllOk(now: int, ops: seq<Op>)
    ensures AllOk(Exec(now, ops))
    decreases |ops|
  {
    if ops != [] {
      AlwaysAllOk(now, ops[..|ops| - 1]);
      StepKeepsAllOk(Exec(now, ops[..|ops| - 1]), ops[|ops| - 1]);
    }
  }

  /** THE WINDOW BOUND, for every interleaving: between any two instants, a limiter grants at most
      a full burst plus what it refills in between, and its tokens stay between zero and the burst. */
  lemma WindowBound(now: int, ops: seq<Op>, l: nat, from: int, to: int)
    requires l < |Exec(now, ops).limiters| && from <= to
    ensures
      var lim := Exec(now, ops).limiters[l];
      && Count(lim.log, from, to) as real <= Allowance(lim.b.cfg, to - from)
      && lim.b.tokens <= lim.b.cfg.burstSize as real
      && (1 <= lim.b.cfg.burstSize ==> 0.0 <= lim.b.tokens)
      && (lim.b.cfg.burstSize < 1 ==> lim.log == [])
  {
    AlwaysAllOk(now, ops);
  }

  // ---------- All limiters together ----------

  function CountSent(sent: seq<Sent>, from: int, to: int): nat {
    if sent == [] then 0
    else CountSent(sent[..|sent| - 1], from, to) + if from <= sent[|sent| - 1].refill <= to then 1 else 0
  }

  function SumCount(ls: seq<Limiter>, from: int, to: int): nat {
    if ls == [] then 0 else SumCount(ls[..|ls| - 1], from, to) + Count(ls[|ls| - 1].log, from, to)
  }

  function SumAllowance(ls: seq<Limiter>, d: int): real {
    if ls == [] then 0.0 else SumAllowance(ls[..|ls| - 1], d) + Allowance(ls[|ls| - 1].b.cfg, d)
  }

  lemma {:induction false} SumCountUpdate(ls: seq<Limiter>, l: nat, x: Limiter, from: int, to: int)
    requires l < |ls|
    ensures SumCount(ls[l := x], from, to) + Count(ls[l].log, from, to)
            == SumCount(ls, from, to) + Count(x.log, from, to)
    decreases |ls|
  {
    var n := |ls| - 1;
    if l < n {
      SumCountUpdate(ls[..n], l, x, from, to);
      assert ls[l := x][..n] == ls[..n][l := x];
    } else {
      assert ls[l := x][..n] == ls[..n];
    }
  }

  lemma CountSnoc(log: seq<int>, x: int, from: int, to: int)
    ensures Count(log + [x], from, to) == Count(log, from, to) + if from <= x <= to then 1 else 0
  {
    assert (log + [x])[..|log|] == log;
  }

  lemma CountSentSnoc(sent: seq<Sent>, x: Sent, from: int, to: int)
    ensures CountSent(sent + [x], from, to) == CountSent(sent, from, to) + if from <= x.refill <= to then 1 else 0
  {
    assert (sent + [x])[..|sent|] == sent;
  }

  lemma SectionCounts(s: System, t: nat, l: nat, uToken: real, lag: nat, from: int, to: int)
    requires s.Wf() && l < |s.limiters|
    requires CountSent(s.sent, from, to) == SumCount(s.limiters, from, to)
    ensures
      var s' := Section(s, t, l, uToken, lag);
      CountSent(s'.sent, from, to) == SumCount(s'.limiters, from, to)
  {
    hide Bucket.Remaining, Jitter, Bucket.Refill, SumCount, Count, CountSent;
    var s' := Section(s, t, l, uToken, lag);
    SumCountUpdate(s.limiters, l, s'.limiters[l], from, to);
    if s.limiters[l].b.Refill(s.now).tokens >= 1.0 {
      CountSnoc(s.limiters[l].log, s.now, from, to);
      CountSentSnoc(s.sent, s'.sent[|s.sent|], from, to);
    }
  }

  /** The refill instants of the sends that limiter `l` granted. */
  function RefillsOn(sent: seq<Sent>, l: nat): seq<int> {
    if sent == [] then [] else
      var before, last := RefillsOn(sent[..|sent| - 1], l), sent[|sent| - 1];
      if last.lim == l then before + [last.refill] else before
  }

  ghost predicate Matched(s: System) {
    && (forall k :: 0 <= k < |s.sent| ==> s.sent[k].lim < |s.limiters|)
    && (forall l :: 0 <= l < |s.limiters| ==> RefillsOn(s.sent, l) == s.limiters[l].log)
  }

  lemma {:induction false} NothingOn(sent: seq<Sent>, l: nat)
    requires forall k :: 0 <= k < |sent| ==> sent[k].lim != l
    ensures RefillsOn(sent, l) == []
    decreases |sent|
  {
    if sent != [] {
      NothingOn(sent[..|sent| - 1], l);
    }
  }

  lemma SectionKeepsMatched(s: System, t: nat, l: nat, uToken: real, lag: nat)
    requires s.Wf() && Matched(s) && l < |s.limiters|
    ensures Matched(Section(s, t, l, uToken, lag))
  {
    hide Bucket.Remaining, Jitter, Bucket.Refill;
    var s' := Section(s, t, l, uToken, lag);
    if s.limiters[l].b.Refill(s.now).tokens >= 1.0 {
      assert s'.sent[..|s.sent|] == s.sent;
    }
  }

  lemma StepKeepsMatched(s: System, op: Op)
    requires s.Wf() && Matched(s)
    ensures Matched(Step(s, op))
  {
    hide Section, Jitter;
    if Enabled(s, op) {
      match op
      case Replace(cfg) => NothingOn(s.sent, |s.limiters|);
      case Enter(t, u, uToken, lag) => SectionKeepsMatched(s, t, s.PhaseOf(t).lim, uToken, lag);
      case Wake(t, uToken, lag) => SectionKeepsMatched(s, t, s.PhaseOf(t).lim, uToken, lag);
      case _ =>
    }
  }

  /** SENDS AND GRANTS MATCH ONE TO ONE.  Every granted send names one limiter, and the grants a
      limiter ever made are exactly the sends that name it, in order, each at its refill instant. */
  lemma {:induction false} SentMatchesGrants(now: int, ops: seq<Op>)
    ensures Matched(Exec(now, ops))
    decreases |ops|
  {
    if ops != [] {
      SentMatchesGrants(now, ops[..|ops| - 1]);
      hide Matched;
      StepKeepsMatched(Exec(now, ops[..|ops| - 1]), ops[|ops| - 1]);
    }
  }

  lemma {:induction false} TotalsMatch(now: int, ops: seq<Op>, from: int, to: int)
    ensures CountSent(Exec(now, ops).sent, from, to) == SumCount(Exec(now, ops).limiters, from, to)
    decreases |ops|
  {
    if ops != [] {
      var s, op := Exec(now, ops[..|ops| - 1]), ops[|ops| - 1];
      TotalsMatch(now, ops[..|ops| - 1], from, to);
      hide Section, Jitter;
      if Enabled(s, op) {
        match op
        case Replace(cfg) =>
          assert Step(s, op).limiters[..|s.limiters|] == s.limiters;
        case Enter(t, u, uToken, lag) => SectionCounts(s, t, s.PhaseOf(t).lim, uToken, lag, from, to);
        case Wake(t, uToken, lag) => SectionCounts(s, t, s.PhaseOf(t).lim, uToken, lag, from, to);
        case External(l) => SumCountUpdate(s.limiters, l, Step(s, op).limiters[l], from, to);
        case _ =>
      }
    }
  }

  lemma {:induction false} SumWithinAllowance(ls: seq<Limiter>, from: int, to: int)
    requires from <= to && forall i :: 0 <= i < |ls| ==> LimiterInv(ls[i])
    ensures SumCount(ls, from, to) as real <= SumAllowance(ls, to - from)
    decreases |ls|
  {
    if ls != [] {
      SumWithinAllowance(ls[..|ls| - 1], from, to);
      assert LimiterInv(ls[|ls| - 1]);
      hide Allowance;
    }
  }

  /** LIMITER REPLACEMENT.  Across any replacements, with sends still waiting on a limiter they had
      snapshotted, the sends granted in a window number at most the sum of what each limiter allows. */
  lemma ReplacementBound(now: int, ops: seq<Op>, from: int, to: int)
    requires from <= to
    ensures CountSent(Exec(now, ops).sent, from, to) as real <= SumAllowance(Exec(now, ops).limiters, to - from)
  {
    AlwaysAllOk(now, ops);
    TotalsMatch(now, ops, from, to);
    SumWithinAllowance(Exec(now, ops).limiters, from, to);
  }

  // ---------- Single steps ----------

  /** A cancelled wait takes nothing from any limiter and sends nothing. */
  lemma CancelTakesNothing(s: System, t: nat)
    requires s.Wf()
    ensures
      var s' := Step(s, Cancel(t));
      && s'.limiters == s.limiters && s'.sent == s.sent && s'.now == s.now
      && (s.PhaseOf(t).SleepingMin? || s.PhaseOf(t).SleepingToken? ==> s'.PhaseOf(t).Idle?)
      && (forall o: nat :: o != t ==> s'.PhaseOf(o) == s.PhaseOf(o))
  {
  }

  /** A replacement counts for the sends that begin after it, and for no others: a limiter that is new
      and full comes on top, and whoever waits keeps waiting for his own. */
  lemma ReplacementTakesEffect(s: System, cfg: Config, t: nat)
    requires s.Wf() && cfg.Refills() && s.PhaseOf(t).Idle?
    ensures
      var s' := Step(s, Replace(cfg));
      var s'' := Step(s', Capture(t));
      && s'.Wf() && s'.limiters[..|s.limiters|] == s.limiters
      && (forall o: nat :: s'.PhaseOf(o) == s.PhaseOf(o))
      && s''.PhaseOf(t).Captured? && s''.PhaseOf(t).lim < |s''.limiters|
      && s''.limiters[s''.PhaseOf(t).lim] == Limiter(Bucket(cfg, cfg.burstSize as real, s.now, None), [])
  {
    StepKeepsWf(s, Replace(cfg));
    hide Section, Jitter;
  }

  /** A stamp from outside keeps the next send away for the interval, if the variance leaves any of it. */
  lemma ExternalStampCounts(s: System, l: nat, t: nat, u: real, uToken: real, lag: nat)
    requires s.Wf() && l < |s.limiters| && s.PhaseOf(t) == Captured(l) && Draw(u) && Draw(uToken)
    requires 0 < s.limiters[l].b.cfg.minInterval
    requires 1.0 <= (1.0 - s.limiters[l].b.cfg.jitterFactor) * s.limiters[l].b.cfg.minInterval as real
    ensures
      var cfg, stamped := s.limiters[l].b.cfg, Step(s, External(l));
      var p := (StepKeepsWf(s, External(l)); Step(stamped, Enter(t, u, uToken, lag))).PhaseOf(t);
      p.SleepingMin? && Spaced(cfg, Some(s.now), p.until)
  {
    var cfg := s.limiters[l].b.cfg;
    StepKeepsWf(s, External(l));
    JitterEnvelope(cfg.minInterval, cfg.jitterFactor, u);
    hide Jitter, Section;
    var stamped := Step(s, External(l));
    MinWaitSpaces(stamped.limiters[l].b, s.now, u);
  }

  /** A waiter that reaches a limiter is granted its send there and then exactly if there is a token,
      counting what was refilled since. */
  lemma SectionGrantsIff(s: System, t: nat, l: nat, uToken: real, lag: nat)
    requires s.Wf() && l < |s.limiters| && 1 <= s.limiters[l].b.cfg.burstSize
    ensures
      var b := s.limiters[l].b;
      (Section(s, t, l, uToken, lag).sent != s.sent
       <==> 1.0 <= b.tokens + b.cfg.sustainedPerMinute * (s.now - b.lastRefill) as real / 60_000_000_000.0)
  {
    RefillsPerMinute(s.limiters[l].b, s.now);
    hide Bucket.Refill, Bucket.Remaining, Jitter;
  }

  /** Nobody sleeps longer than the varied interval after the last stamp, or the varied time of a token. */
  lemma SleepsAreBounded(s: System, t: nat, u: real, uToken: real, lag: nat)
    requires s.Wf() && s.PhaseOf(t).Captured? && Draw(u) && Draw(uToken)
    requires s.limiters[s.PhaseOf(t).lim].b.Within() && 1 <= s.limiters[s.PhaseOf(t).lim].b.cfg.burstSize
    ensures
      var b := s.limiters[s.PhaseOf(t).lim].b;
      var p := Step(s, Enter(t, u, uToken, lag)).PhaseOf(t);
      && (p.SleepingMin? && b.lastSend.Some? && b.lastSend.value <= s.now && 0 < b.cfg.minInterval ==>
            (p.until - b.lastSend.value) as real <= LongestMinWait(b.cfg))
      && (p.SleepingToken? ==> (p.until - s.now) as real <= LongestTokenWait(b.cfg))
  {
    var b := s.limiters[s.PhaseOf(t).lim].b;
    MinSleepBound(b.cfg, u);
    if b.Refill(s.now).tokens < 1.0 {
      TokenSleepBound(b, s.now, uToken);
    }
    hide Jitter, Bucket.Remaining, Bucket.Refill, Bucket.Within, LongestMinWait, LongestTokenWait, Trunc;
  }

  lemma MinSleepBound(cfg: Config, u: real)
    requires cfg.Refills() && Draw(u)
    ensures 0 < cfg.minInterval ==> Jitter(cfg.minInterval, cfg.jitterFactor, u) as real <= LongestMinWait(cfg)
  {
    if 0 < cfg.minInterval {
      hide Jitter;
      JitterEnvelope(cfg.minInterval, cfg.jitterFactor, u);
    }
  }

  lemma TokenSleepBound(b: Bucket, now: int, u: real)
    requires b.cfg.Refills() && b.Within() && 1 <= b.cfg.burstSize && b.lastRefill <= now && Draw(u)
    requires b.Refill(now).tokens < 1.0
    ensures Jitter(Trunc(b.Refill(now).Remaining()), b.cfg.jitterFactor, u) as real <= LongestTokenWait(b.cfg)
  {
    var r := b.Refill(now);
    RefillBounds(b, now);
    assert 0.0 <= r.tokens;
    hide Bucket.Refill, Bucket.Remaining, Jitter, TokenTime, Config.RefillPerSec;
    RemainingPositive(r);
    RemainingAtMost(r);
    SleepBand(r.Remaining(), r.cfg.jitterFactor, u);
    VariedSum(r.Remaining(), r.Remaining(), TokenTime(b.cfg), b.cfg.jitterFactor);
  }

  // ---------- Minimum spacing ----------

  /** Callers of limiter `l` are serialized: nobody enters it, and nobody stamps it from outside,
      while another call on it is asleep. */
  ghost predicate SerialOp(s: System, op: Op, l: nat) {
    match op
    case Enter(t, _, _, _) => s.PhaseOf(t) == Captured(l) ==> forall o :: !s.Sleeping(o, l)
    case External(k) => k == l ==> forall o :: !s.Sleeping(o, l)
    case _ => true
  }

  ghost predicate Serial(now: int, ops: seq<Op>, l: nat)
    decreases |ops|
  {
    ops == [] ||
    (Serial(now, ops[..|ops| - 1], l) && SerialOp(Exec(now, ops[..|ops| - 1]), ops[|ops| - 1], l))
  }

  /** What a sleeping call already has: the interval is over now, or will be when its timer fires. */
  ghost predicate SleepOk(s: System, b: Bucket, t: nat) {
    match s.PhaseOf(t)
    case SleepingMin(_, until) => Spaced(b.cfg, b.lastSend, until)
    case SleepingToken(_, _) => Spaced(b.cfg, b.lastSend, s.now)
    case _ => true
  }

  ghost predicate SpacingInv(s: System, l: nat) {
    if |s.limiters| <= l then
      && (forall t :: !s.Sleeping(t, l))
      && (forall k :: 0 <= k < |s.sent| ==> s.sent[k].lim != l)
    else
      var b := s.limiters[l].b;
      && (b.lastSend.Some? ==> b.lastSend.value <= s.now)
      && (forall t, o :: s.Sleeping(t, l) && s.Sleeping(o, l) ==> t == o)
      && (forall t :: s.Sleeping(t, l) ==> SleepOk(s, b, t))
      && (forall k :: 0 <= k < |s.sent| && s.sent[k].lim == l ==>
            Spaced(b.cfg, s.sent[k].previous, s.sent[k].stamp))
  }

  lemma SectionKeepsSpacing(s: System, t: nat, k: nat, uToken: real, lag: nat, l: nat)
    requires s.Wf() && SpacingInv(s, l) && k < |s.limiters|
    requires k == l ==> Spaced(s.limiters[l].b.cfg, s.limiters[l].b.lastSend, s.now)
    requires k == l ==> forall o :: s.Sleeping(o, l) ==> o == t
    requires k != l ==> !s.Sleeping(t, l)
    ensures SpacingInv(Section(s, t, k, uToken, lag), l)
  {
    hide Bucket.Remaining, Jitter, Spaced, Bucket.Refill;
    var s' := Section(s, t, k, uToken, lag);
    if l < |s.limiters| {
      var b, b' := s.limiters[l].b, s'.limiters[l].b;
      SpacedFrom(b.cfg, b.lastSend, s.now);
      forall o | s'.Sleeping(o, l)
        ensures (o == t || s.Sleeping(o, l)) && SleepOk(s', b', o)
      {
        assert o != t ==> s'.PhaseOf(o) == s.PhaseOf(o);
        assert o != t ==> s.Sleeping(o, l) && SleepOk(s, b, o);
      }
      forall i | 0 <= i < |s'.sent| && s'.sent[i].lim == l
        ensures Spaced(b'.cfg, s'.sent[i].previous, s'.sent[i].stamp)
      {
        if i < |s.sent| {
          assert s'.sent[i] == s.sent[i];
        }
      }
    } else {
      assert forall o :: o != t ==> s'.Sleeping(o, l) == s.Sleeping(o, l);
    }
  }

  lemma TickKeepsSpacing(s: System, d: nat, l: nat)
    requires s.Wf() && SpacingInv(s, l)
    ensures SpacingInv(s.(now := s.now + d), l)
  {
    hide Spaced;
    var s' := s.(now := s.now + d);
    if l < |s.limiters| {
      var b := s.limiters[l].b;
      SpacedFrom(b.cfg, b.lastSend, s.now);
      forall o | s'.Sleeping(o, l)
        ensures s.Sleeping(o, l) && SleepOk(s', b, o)
      {
        assert s.Sleeping(o, l) && SleepOk(s, b, o);
      }
    }
    assert forall o :: s'.Sleeping(o, l) == s.Sleeping(o, l);
  }

  /** A thread may fall asleep on limiter `k` if it alone does, until the interval is over. */
  lemma SleepKeepsSpacing(s: System, t: nat, k: nat, until: int, l: nat)
    requires s.Wf() && SpacingInv(s, l) && k < |s.limiters| && !s.Sleeping(t, l)
    requires k == l ==> Spaced(s.limiters[l].b.cfg, s.limiters[l].b.lastSend, until)
    requires k == l ==> forall o :: !s.Sleeping(o, l)
    ensures SpacingInv(s.(threads := s.threads[t := SleepingMin(k, until)]), l)
  {
    hide Spaced;
    var s' := s.(threads := s.threads[t := SleepingMin(k, until)]);
    forall o | l < |s.limiters| && s'.Sleeping(o, l)
      ensures ((o == t && k == l) || s.Sleeping(o, l)) && SleepOk(s', s.limiters[l].b, o)
    {
      assert o != t ==> s'.PhaseOf(o) == s.PhaseOf(o);
      assert o != t ==> s.Sleeping(o, l) && SleepOk(s, s.limiters[l].b, o);
    }
    assert forall o :: o != t ==> s'.Sleeping(o, l) == s.Sleeping(o, l);
  }

  lemma EnterKeepsSpacing(s: System, t: nat, u: real, uToken: real, lag: nat, l: nat)
    requires s.Wf() && SpacingInv(s, l) && SerialOp(s, Enter(t, u, uToken, lag), l)
    requires Enabled(s, Enter(t, u, uToken, lag))
    ensures SpacingInv(Step(s, Enter(t, u, uToken, lag)), l)
  {
    var k := s.PhaseOf(t).lim;
    var b := s.limiters[k].b;
    MinWaitSpaces(b, s.now, u);
    hide Section, Jitter, Spaced, SpacingInv;
    var minWait := Jitter(b.cfg.minInterval, b.cfg.jitterFactor, u);
    if b.SinceLastSend(s.now) < minWait {
      SleepKeepsSpacing(s, t, k, s.now + (minWait - b.SinceLastSend(s.now)), l);
    } else {
      SectionKeepsSpacing(s, t, k, uToken, lag, l);
    }
  }

  lemma WakeKeepsSpacing(s: System, t: nat, uToken: real, lag: nat, l: nat)
    requires s.Wf() && SpacingInv(s, l) && Enabled(s, Wake(t, uToken, lag))
    ensures SpacingInv(Step(s, Wake(t, uToken, lag)), l)
  {
    hide Section, Spaced;
    var k := s.PhaseOf(t).lim;
    if k == l {
      assert s.Sleeping(t, l) && SleepOk(s, s.limiters[l].b, t);
      if s.PhaseOf(t).SleepingMin? {
        SpacedFrom(s.limiters[l].b.cfg, s.limiters[l].b.lastSend, s.PhaseOf(t).until);
      }
    }
    SectionKeepsSpacing(s, t, k, uToken, lag, l);
  }

  lemma StepKeepsSpacing(s: System, op: Op, l: nat)
    requires s.Wf() && SpacingInv(s, l) && SerialOp(s, op, l)
    ensures SpacingInv(Step(s, op), l)
  {
    hide Section, Jitter, Spaced;
    if Enabled(s, op) {
      match op
      case Tick(d) => TickKeepsSpacing(s, d, l);
      case Enter(t, u, uToken, lag) => EnterKeepsSpacing(s, t, u, uToken, lag, l);
      case Wake(t, uToken, lag) => WakeKeepsSpacing(s, t, uToken, lag, l);
      case _ =>
        assert forall o :: Step(s, op).Sleeping(o, l) ==> s.Sleeping(o, l) && Step(s, op).PhaseOf(o) == s.PhaseOf(o);
    }
  }

  lemma {:induction false} SerialKeepsSpacing(now: int, ops: seq<Op>, l: nat)
    requires Serial(now, ops, l)
    ensures SpacingInv(Exec(now, ops), l)
    decreases |ops|
  {
    if ops != [] {
      SerialKeepsSpacing(now, ops[..|ops| - 1], l);
      StepKeepsSpacing(Exec(now, ops[..|ops| - 1]), ops[|ops| - 1], l);
    }
  }

  /** MINIMUM SPACING.  When the callers of a limiter are serialized, every stamp follows the one
      before it, external stamps included, by at least the minimum interval less its variance. */
  lemma SerializedSpacing(now: int, ops: seq<Op>, l: nat, k: nat)
    requires Serial(now, ops, l)
    requires k < |Exec(now, ops).sent| && Exec(now, ops).sent[k].lim == l && l < |Exec(now, ops).limiters|
    ensures Spaced(Exec(now, ops).limiters[l].b.cfg, Exec(now, ops).sent[k].previous, Exec(now, ops).sent[k].stamp)
  {
    SerialKeepsSpacing(now, ops, l);
  }

  // ---------- When the spacing fails ----------

  /** No stamp lies in the future of the next. */
  ghost predicate Timely(s: System) {
    && (forall l :: 0 <= l < |s.limiters| && s.limiters[l].b.lastSend.Some? ==> s.limiters[l].b.lastSend.value <= s.now)
    && (forall k :: 0 <= k < |s.sent| && s.sent[k].previous.Some? ==> s.sent[k].previous.value <= s.sent[k].stamp)
  }

  lemma StepKeepsTimely(s: System, op: Op)
    requires s.Wf() && Timely(s)
    ensures Timely(Step(s, op))
  {
    hide Jitter, Bucket.Remaining, Bucket.Refill;
  }

  lemma {:induction false} AlwaysTimely(now: int, ops: seq<Op>)
    ensures Timely(Exec(now, ops))
    decreases |ops|
  {
    if ops != [] {
      AlwaysTimely(now, ops[..|ops| - 1]);
      hide Timely;
      StepKeepsTimely(Exec(now, ops[..|ops| - 1]), ops[|ops| - 1]);
    }
  }

  /** Send `k` was granted by a limiter of this configuration. */
  ghost predicate GrantedBy(s: System, cfg: Config, k: nat) {
    k < |s.sent| && s.sent[k].lim < |s.limiters| && s.limiters[s.sent[k].lim].b.cfg == cfg
  }

  /** ... and follows the stamp before it too closely. */
  ghost predicate Unspaced(s: System, cfg: Config, k: nat) {
    GrantedBy(s, cfg, k) && !Spaced(cfg, s.sent[k].previous, s.sent[k].stamp)
  }

  /** Two sends took their tokens from one limiter at the same instant. */
  ghost predicate Simultaneous(s: System, cfg: Config, i: nat, j: nat) {
    i < j && GrantedBy(s, cfg, i) && GrantedBy(s, cfg, j)
    && s.sent[i].lim == s.sent[j].lim && s.sent[i].refill == s.sent[j].refill
  }

  lemma {:induction false} CountOn(sent: seq<Sent>, l: nat, i: nat, j: nat)
    requires i <= j < |sent| && sent[i].lim == sent[j].lim == l && sent[i].refill == sent[j].refill
    ensures Count(RefillsOn(sent, l), sent[i].refill, sent[i].refill) >= if i < j then 2 else 1
    decreases |sent|
  {
    var n := |sent| - 1;
    var before := RefillsOn(sent[..n], l);
    assert sent[n].lim == l ==> RefillsOn(sent, l)[..|before|] == before;
    if j < n {
      CountOn(sent[..n], l, i, j);
    } else if i < j {
      CountOn(sent[..n], l, i, i);
    }
  }

  lemma GrantNeedsBurst(now: int, ops: seq<Op>, cfg: Config, k: nat)
    requires GrantedBy(Exec(now, ops), cfg, k)
    ensures 1 <= cfg.burstSize
  {
    var s := Exec(now, ops);
    SentMatchesGrants(now, ops);
    CountOn(s.sent, s.sent[k].lim, k, k);
    WindowBound(now, ops, s.sent[k].lim, s.sent[k].refill, s.sent[k].refill);
  }

  lemma ExecSnoc(now: int, ops: seq<Op>, op: Op)
    ensures Exec(now, ops + [op]) == Step(Exec(now, ops), op)
  {
    assert (ops + [op])[..|ops|] == ops;
  }

  lemma MiddleDraw(d: int, factor: real)
    ensures Jitter(d, factor, 0.5) == d
  {
  }

  /** A section that finds a token takes it. */
  lemma SectionGrants(s: System, t: nat, l: nat, lag: nat)
    requires s.Wf() && l < |s.limiters| && s.limiters[l].b.Within() && 1 <= s.limiters[l].b.cfg.burstSize
    requires 1.0 <= s.limiters[l].b.Refill(s.now).tokens
    ensures
      var b := s.limiters[l].b.Refill(s.now);
      && b.Within()
      && Section(s, t, l, 0.5, lag)
         == System(s.now + lag, s.limiters[l := Limiter(b.Grant(s.now + lag), s.limiters[l].log + [s.now])],
                   s.threads[t := Idle], s.sent + [Sent(t, l, s.now, s.now + lag, s.limiters[l].b.lastSend)])
  {
    RefillBounds(s.limiters[l].b, s.now);
    hide Bucket.Refill, Jitter;
  }

  lemma RefillKeepsToken(b: Bucket, now: int)
    requires b.cfg.Refills() && b.Within() && b.lastRefill <= now && 1 <= b.cfg.burstSize
    ensures b.tokens <= b.Refill(now).tokens
  {
    RefillBounds(b, now);
  }

  /** In this time a whole token is refilled. */
  function EnoughTime(cfg: Config): nat
    requires 0.0 < cfg.sustainedPerMinute
  {
    TokenTimePositive(cfg);
    TokenTime(cfg).Floor + 1
  }

  lemma TokenRefilled(cfg: Config)
    requires cfg.Refills()
    ensures 1.0 <= Seconds(EnoughTime(cfg)) * cfg.RefillPerSec()
  {
    var perToken, rate := 60.0 / cfg.sustainedPerMinute, cfg.RefillPerSec();
    DivMul(60.0, cfg.sustainedPerMinute);
    MulAssoc(perToken, rate, 60.0);
    assert perToken * rate == 1.0;
    assert perToken <= Seconds(EnoughTime(cfg));
    hide Config.RefillPerSec, Seconds, EnoughTime;
    MulMono(perToken, Seconds(EnoughTime(cfg)), rate);
  }

  /** Once or twice that time leaves one token or two, whatever happened before. */
  lemma EnoughTimeRefills(b: Bucket, now: int)
    requires b.cfg.Refills() && b.Within() && 1 <= b.cfg.burstSize
    ensures b.lastRefill + EnoughTime(b.cfg) <= now ==> 1.0 <= b.Refill(now).tokens
    ensures b.lastRefill + 2 * EnoughTime(b.cfg) <= now && 2 <= b.cfg.burstSize ==> 2.0 <= b.Refill(now).tokens
  {
    var once, elapsed, rate := Seconds(EnoughTime(b.cfg)), Seconds(now - b.lastRefill), b.cfg.RefillPerSec();
    TokenRefilled(b.cfg);
    assert b.lastRefill + EnoughTime(b.cfg) <= now ==> once <= elapsed;
    assert b.lastRefill + 2 * EnoughTime(b.cfg) <= now ==> once + once <= elapsed;
    hide EnoughTime, Seconds, Config.RefillPerSec;
    Gained(once, elapsed, rate);
  }

  lemma Gained(once: real, elapsed: real, rate: real)
    requires 0.0 <= rate && 1.0 <= once * rate
    ensures once <= elapsed ==> 1.0 <= elapsed * rate
    ensures once + once <= elapsed ==> 2.0 <= elapsed * rate
  {
    DistributeSum(once, once, rate);
    if once <= elapsed {
      MulMono(once, elapsed, rate);
    }
    if once + once <= elapsed {
      MulMono(once + once, elapsed, rate);
    }
  }

  /** What a send that takes its token makes of a system with one limiter. */
  ghost function Granted(s: System, t: nat, lag: nat): System
    requires |s.limiters| == 1
  {
    var b := s.limiters[0].b.Refill(s.now);
    System(s.now + lag, [Limiter(b.Grant(s.now + lag), s.limiters[0].log + [s.now])], s.threads[t := Idle],
           s.sent + [Sent(t, 0, s.now, s.now + lag, s.limiters[0].b.lastSend)])
  }

  ghost predicate CanGrant(s: System) {
    && s.Wf() && |s.limiters| == 1 && s.limiters[0].b.Within() && 1 <= s.limiters[0].b.cfg.burstSize
    && 1.0 <= s.limiters[0].b.Refill(s.now).tokens
  }

  lemma SectionIsGranted(s: System, t: nat, lag: nat)
    requires CanGrant(s)
    ensures Section(s, t, 0, 0.5, lag) == Granted(s, t, lag)
    ensures Granted(s, t, lag).limiters[0].b.Within()
  {
    hide Bucket.Refill, Section;
    SectionGrants(s, t, 0, lag);
    assert forall x: Limiter :: s.limiters[0 := x] == [x];
  }

  lemma WakeGrants(ops: seq<Op>, t: nat, lag: nat)
    requires CanGrant(Exec(0, ops)) && Exec(0, ops).Sleeping(t, 0) && Exec(0, ops).PhaseOf(t).until <= Exec(0, ops).now
    ensures Exec(0, ops + [Wake(t, 0.5, lag)]) == Granted(Exec(0, ops), t, lag)
    ensures Granted(Exec(0, ops), t, lag).limiters[0].b.Within()
  {
    ExecSnoc(0, ops, Wake(t, 0.5, lag));
    hide Section, Granted, Exec, Jitter;
    SectionIsGranted(Exec(0, ops), t, lag);
  }

  lemma EnterGrants(ops: seq<Op>, t: nat)
    requires CanGrant(Exec(0, ops)) && Exec(0, ops).PhaseOf(t) == Captured(0)
    requires Exec(0, ops).limiters[0].b.SinceLastSend(Exec(0, ops).now) >= Exec(0, ops).limiters[0].b.cfg.minInterval
    ensures Exec(0, ops + [Enter(t, 0.5, 0.5, 0)]) == Granted(Exec(0, ops), t, 0)
    ensures Granted(Exec(0, ops), t, 0).limiters[0].b.Within()
  {
    var cfg := Exec(0, ops).limiters[0].b.cfg;
    MiddleDraw(cfg.minInterval, cfg.jitterFactor);
    ExecSnoc(0, ops, Enter(t, 0.5, 0.5, 0));
    hide Section, Granted, Exec, Jitter;
    SectionIsGranted(Exec(0, ops), t, 0);
  }

  ghost predicate NoExternal(ops: seq<Op>) {
    forall i :: 0 <= i < |ops| ==> !ops[i].External?
  }

  lemma NoExternalSnoc(ops: seq<Op>, op: Op)
    requires NoExternal(ops) && !op.External?
    ensures NoExternal(ops + [op])
  {
  }

  /** A state with one limiter of this configuration, stamped just now, for which some threads sleep. */
  ghost predicate JustStamped(s: System, cfg: Config, sleepers: set<nat>) {
    && |s.limiters| == 1 && s.limiters[0].b.cfg == cfg && s.limiters[0].b.Within()
    && s.limiters[0].b.lastSend == Some(s.now)
    && (forall t: nat :: s.PhaseOf(t) == if t in sleepers then SleepingMin(0, s.now + cfg.minInterval) else Idle)
  }

  lemma FirstCaptured(cfg: Config) returns (ops: seq<Op>)
    requires cfg.Refills()
    ensures Exec(0, ops) == System(0, [Limiter(NewBucket(cfg, 0), [])], map[0 := Captured(0)], []) && NoExternal(ops)
  {
    ExecSnoc(0, [], Replace(cfg));
    ops := [] + [Replace(cfg)];
    ExecSnoc(0, ops, Capture(0));
    ops := ops + [Capture(0)];
  }

  lemma FirstAsleep(cfg: Config) returns (ops: seq<Op>)
    requires cfg.Refills() && MAX_DURATION < cfg.minInterval
    ensures
      var asleep := SleepingMin(0, cfg.minInterval - MAX_DURATION);
      Exec(0, ops) == System(cfg.minInterval, [Limiter(NewBucket(cfg, 0), [])], map[0 := asleep], [])
    ensures NoExternal(ops)
  {
    MiddleDraw(cfg.minInterval, cfg.jitterFactor);
    hide Jitter, Section;
    ops := FirstCaptured(cfg);
    ExecSnoc(0, ops, Enter(0, 0.5, 0.5, 0));
    ExecSnoc(0, ops + [Enter(0, 0.5, 0.5, 0)], Tick(cfg.minInterval));
    ops := ops + [Enter(0, 0.5, 0.5, 0)] + [Tick(cfg.minInterval)];
    assert map[0 := Captured(0)][0 := SleepingMin(0, cfg.minInterval - MAX_DURATION)]
        == map[0 := SleepingMin(0, cfg.minInterval - MAX_DURATION)];
  }

  /** The first send of all; only an interval beyond the longest duration makes it sleep. */
  lemma FirstSend(cfg: Config) returns (ops: seq<Op>)
    requires cfg.Refills() && 1 <= cfg.burstSize && 0 < cfg.minInterval
    ensures JustStamped(Exec(0, ops), cfg, {}) && |Exec(0, ops).sent| == 1 && NoExternal(ops)
  {
    hide Bucket.Refill;
    if MAX_DURATION < cfg.minInterval {
      ops := FirstAsleep(cfg);
      RefillKeepsToken(NewBucket(cfg, 0), cfg.minInterval);
      WakeGrants(ops, 0, 0);
      ops := ops + [Wake(0, 0.5, 0)];
    } else {
      ops := FirstCaptured(cfg);
      RefillKeepsToken(NewBucket(cfg, 0), 0);
      EnterGrants(ops, 0);
      ops := ops + [Enter(0, 0.5, 0.5, 0)];
    }
  }

  lemma SleeperStep(s: System, cfg: Config, sleepers: set<nat>, t: nat)
    requires s.Wf() && 0 < cfg.minInterval && JustStamped(s, cfg, sleepers) && t !in sleepers
    ensures
      var captured := Step(s, Capture(t));
      var s' := s.(threads := s.threads[t := Captured(0)][t := SleepingMin(0, s.now + cfg.minInterval)]);
      captured.Wf() && Step(captured, Enter(t, 0.5, 0.5, 0)) == s' && JustStamped(s', cfg, sleepers + {t})
  {
    MiddleDraw(cfg.minInterval, cfg.jitterFactor);
    hide Jitter, Section, Bucket.Within;
    assert s.PhaseOf(t) == Idle;
  }

  /** A send that arrives right after a stamp goes to sleep for the interval. */
  lemma SleeperArrives(cfg: Config, ops: seq<Op>, sleepers: set<nat>, t: nat) returns (ops': seq<Op>)
    requires cfg.Refills() && 0 < cfg.minInterval && NoExternal(ops)
    requires JustStamped(Exec(0, ops), cfg, sleepers) && t !in sleepers
    ensures
      var s, s' := Exec(0, ops), Exec(0, ops');
      && JustStamped(s', cfg, sleepers + {t}) && NoExternal(ops')
      && s'.now == s.now && s'.limiters == s.limiters && s'.sent == s.sent
  {
    hide *;
    SleeperStep(Exec(0, ops), cfg, sleepers, t);
    ExecSnoc(0, ops, Capture(t));
    ExecSnoc(0, ops + [Capture(t)], Enter(t, 0.5, 0.5, 0));
    NoExternalSnoc(ops, Capture(t));
    NoExternalSnoc(ops + [Capture(t)], Enter(t, 0.5, 0.5, 0));
    ops' := ops + [Capture(t)] + [Enter(t, 0.5, 0.5, 0)];
  }

  /** Two sends have slept through the interval and a token's time. */
  ghost predicate BothDue(s: System, cfg: Config)
    requires cfg.Refills()
  {
    && |s.limiters| == 1 && s.limiters[0].b.cfg == cfg && s.limiters[0].b.Within()
    && s.limiters[0].b.lastRefill + 2 * EnoughTime(cfg) <= s.now
    && s.PhaseOf(1).SleepingMin? && s.PhaseOf(2).SleepingMin?
    && s.PhaseOf(1).lim == s.PhaseOf(2).lim == 0
    && s.PhaseOf(1).until <= s.now && s.PhaseOf(2).until <= s.now
    && |s.sent| == 1
  }

  lemma TwoSleepers(cfg: Config) returns (ops: seq<Op>)
    requires cfg.Refills() && 1 <= cfg.burstSize && 0 < cfg.minInterval
    ensures BothDue(Exec(0, ops), cfg) && NoExternal(ops)
  {
    ops := FirstSend(cfg);
    ops := SleeperArrives(cfg, ops, {}, 1);
    ops := SleeperArrives(cfg, ops, {} + {1}, 2);
    hide EnoughTime;
    var d := Tick(cfg.minInterval + 2 * EnoughTime(cfg));
    ExecSnoc(0, ops, d);
    assert Exec(0, ops).PhaseOf(1).SleepingMin? && Exec(0, ops).PhaseOf(2).SleepingMin?;
    ops := ops + [d];
  }

  /** The first of them, woken at `at`, has been stamped just now, and there is a token for the other. */
  ghost predicate OtherDue(s: System, cfg: Config, at: int) {
    && CanGrant(s) && s.limiters[0].b.cfg == cfg && s.limiters[0].b.lastSend == Some(s.now)
    && s.Sleeping(2, 0) && s.PhaseOf(2).until <= s.now
    && |s.sent| == 2 && s.sent[1].lim == 0 && s.sent[1].refill == at
  }

  lemma OneWakes(cfg: Config, ops: seq<Op>, lag: nat) returns (ops': seq<Op>)
    requires cfg.Refills() && 1 <= cfg.burstSize && BothDue(Exec(0, ops), cfg) && NoExternal(ops)
    requires EnoughTime(cfg) <= lag || 2 <= cfg.burstSize
    ensures OtherDue(Exec(0, ops'), cfg, Exec(0, ops).now) && Exec(0, ops').now == Exec(0, ops).now + lag
    ensures NoExternal(ops')
  {
    var s := Exec(0, ops);
    hide Bucket.Refill, EnoughTime, Exec;
    EnoughTimeRefills(s.limiters[0].b, s.now);
    WakeGrants(ops, 1, lag);
    var b' := Granted(s, 1, lag).limiters[0].b;
    EnoughTimeRefills(b', s.now + lag);
    RefillKeepsToken(b', s.now + lag);
    ops' := ops + [Wake(1, 0.5, lag)];
    assert Exec(0, ops').PhaseOf(2) == s.PhaseOf(2);
  }

  /** Three sends: the second took its token at `at` and was stamped at `stamp`, when the third took
      its own. */
  ghost predicate ThreeSent(s: System, cfg: Config, at: int, stamp: int) {
    && |s.sent| == 3 && |s.limiters| == 1 && s.limiters[0].b.cfg == cfg
    && s.sent[1].lim == 0 && s.sent[1].refill == at
    && s.sent[2] == Sent(2, 0, stamp, stamp, Some(stamp))
  }

  lemma OtherSent(s: System, cfg: Config, at: int)
    requires OtherDue(s, cfg, at)
    ensures ThreeSent(Granted(s, 2, 0), cfg, at, s.now)
  {
    hide Bucket.Refill, System.Wf, Bucket.Within;
  }

  lemma OtherWakes(cfg: Config, ops: seq<Op>, at: int)
    requires OtherDue(Exec(0, ops), cfg, at)
    ensures ThreeSent(Exec(0, ops + [Wake(2, 0.5, 0)]), cfg, at, Exec(0, ops).now)
  {
    hide Exec, ThreeSent, Granted, CanGrant, System.Wf;
    OtherSent(Exec(0, ops), cfg, at);
    WakeGrants(ops, 2, 0);
  }

  /** The first takes its token, and is stamped `lag` later; then the second wakes. */
  lemma BothWake(cfg: Config, ops: seq<Op>, lag: nat) returns (ops': seq<Op>)
    requires cfg.Refills() && 1 <= cfg.burstSize && BothDue(Exec(0, ops), cfg) && NoExternal(ops)
    requires EnoughTime(cfg) <= lag || 2 <= cfg.burstSize
    ensures NoExternal(ops') && ThreeSent(Exec(0, ops'), cfg, Exec(0, ops).now, Exec(0, ops).now + lag)
  {
    hide *;
    var woken := OneWakes(cfg, ops, lag);
    OtherWakes(cfg, woken, Exec(0, ops).now);
    NoExternalSnoc(woken, Wake(2, 0.5, 0));
    ops' := woken + [Wake(2, 0.5, 0)];
  }

  lemma ThreeSentFacts(s: System, cfg: Config, at: int, stamp: int)
    requires ThreeSent(s, cfg, at, stamp)
    ensures at == stamp ==> Simultaneous(s, cfg, 1, 2)
    ensures Missable(cfg) ==> Unspaced(s, cfg, 2)
  {
  }

  /** Two sends that slept through the same interval take their tokens together. */
  lemma TogetherAfterSleep(cfg: Config) returns (ops: seq<Op>)
    requires cfg.Refills() && 2 <= cfg.burstSize && 0 < cfg.minInterval
    ensures Simultaneous(Exec(0, ops), cfg, 1, 2)
  {
    hide BothDue, EnoughTime, ThreeSent, Simultaneous, NoExternal, Exec;
    var asleep := TwoSleepers(cfg);
    ops := BothWake(cfg, asleep, 0);
    ThreeSentFacts(Exec(0, ops), cfg, Exec(0, asleep).now, Exec(0, asleep).now);
  }

  /** Without an interval, two sends that arrive together do. */
  lemma TogetherAtOnce(cfg: Config) returns (ops: seq<Op>)
    requires cfg.Refills() && 2 <= cfg.burstSize && cfg.minInterval <= 0
    ensures Simultaneous(Exec(0, ops), cfg, 0, 1)
  {
    hide Bucket.Refill;
    ops := FirstCaptured(cfg);
    ExecSnoc(0, ops, Capture(1));
    ops := ops + [Capture(1)];
    RefillKeepsToken(NewBucket(cfg, 0), 0);
    EnterGrants(ops, 0);
    ops := ops + [Enter(0, 0.5, 0.5, 0)];
    RefillKeepsToken(Exec(0, ops).limiters[0].b, 0);
    EnterGrants(ops, 1);
    ops := ops + [Enter(1, 0.5, 0.5, 0)];
  }

  ghost predicate SpacingFails(cfg: Config, ops: seq<Op>) {
    exists now, k: nat :: Unspaced(Exec(now, ops), cfg, k)
  }

  /** The intervals that can be missed: of a limiter that grants at all, and long enough to remain a
      nanosecond after the variance. */
  predicate Missable(cfg: Config) {
    1 <= cfg.burstSize && 0 < cfg.minInterval && 1.0 <= (1.0 - cfg.jitterFactor) * cfg.minInterval as real
  }

  lemma FailsIfMissable(cfg: Config) returns (ops: seq<Op>)
    requires cfg.Refills() && Missable(cfg)
    ensures NoExternal(ops) && SpacingFails(cfg, ops)
  {
    hide BothDue, EnoughTime, ThreeSent, Unspaced, NoExternal, Exec;
    var asleep := TwoSleepers(cfg);
    var lag := EnoughTime(cfg);
    ops := BothWake(cfg, asleep, lag);
    ThreeSentFacts(Exec(0, ops), cfg, Exec(0, asleep).now, Exec(0, asleep).now + lag);
    assert Unspaced(Exec(0, ops), cfg, 2);
  }

  lemma MissableIfFails(cfg: Config, ops: seq<Op>)
    requires SpacingFails(cfg, ops)
    ensures Missable(cfg)
  {
    var now, k: nat :| Unspaced(Exec(now, ops), cfg, k);
    AlwaysTimely(now, ops);
    GrantNeedsBurst(now, ops, cfg, k);
  }

  /** WHEN THE MINIMUM INTERVAL CAN BE MISSED, because it is not checked again after the sleep: some
      run has a send that follows its predecessor too closely exactly if the limiter ever grants one
      and its interval, less the variance, is at least the nanosecond that rounding takes off.  It
      makes no difference whether stamps from outside are allowed. */
  lemma SpacingFailsIff(cfg: Config)
    requires cfg.Refills()
    ensures (exists ops :: SpacingFails(cfg, ops)) <==> Missable(cfg)
    ensures (exists ops :: NoExternal(ops) && SpacingFails(cfg, ops)) <==> Missable(cfg)
  {
    hide SpacingFails, Missable, NoExternal;
    if Missable(cfg) {
      var ops := FailsIfMissable(cfg);
    }
    forall ops | SpacingFails(cfg, ops)
      ensures Missable(cfg)
    {
      MissableIfFails(cfg, ops);
    }
  }

  /** WHEN SENDS CAN GO OUT TOGETHER, whatever the minimum interval: exactly if the burst is two or
      more. */
  lemma SimultaneousIff(cfg: Config)
    requires cfg.Refills()
    ensures (exists now, ops, i: nat, j: nat :: Simultaneous(Exec(now, ops), cfg, i, j)) <==> 2 <= cfg.burstSize
  {
    forall now, ops, i: nat, j: nat | Simultaneous(Exec(now, ops), cfg, i, j)
      ensures 2 <= cfg.burstSize
    {
      var s := Exec(now, ops);
      SentMatchesGrants(now, ops);
      CountOn(s.sent, s.sent[i].lim, i, j);
      WindowBound(now, ops, s.sent[i].lim, s.sent[i].refill, s.sent[i].refill);
    }
    if 2 <= cfg.burstSize {
      if 0 < cfg.minInterval {
        var ops := TogetherAfterSleep(cfg);
        assert Simultaneous(Exec(0, ops), cfg, 1, 2);
      } else {
        var ops := TogetherAtOnce(cfg);
        assert Simultaneous(Exec(0, ops), cfg, 0, 1);
      }
    }
  }
}

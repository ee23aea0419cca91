/** Online/offline presence of one session, driven by activity and an idle timer. */
module Presences {
  import RateLimiters

  datatype Config = Config(enabled: bool, idleTimeout: int, sendOnConnect: bool, simulateTyping: bool)

  /** A timer object: absent, running towards a deadline, or already fired (it can be re-armed). */
  datatype Timer = NoTimer | Armed(deadline: int) | Expired

  datatype Presence = Presence(cfg: Config, isAvailable: bool, timer: Timer, stopped: bool)
  {
    function ResetIdleTimer(now: int): Presence {
      if !cfg.enabled || cfg.idleTimeout <= 0 then this else this.(timer := Armed(now + cfg.idleTimeout))
    }

    function OnConnect(now: int): Presence {
      if !cfg.enabled || stopped then this
      else this.(isAvailable := isAvailable || cfg.sendOnConnect).ResetIdleTimer(now)
    }

    function OnDisconnect(): Presence {
      if !cfg.enabled then this else this.(timer := NoTimer, isAvailable := false)
    }

    function BeforeSend(now: int, connected: bool): Presence {
      var p := ResetIdleTimer(now);
      if !cfg.enabled || !cfg.simulateTyping || !connected then p else p.(isAvailable := true)
    }

    function MarkActive(now: int): Presence {
      if !cfg.enabled || stopped then this else this.(isAvailable := true).ResetIdleTimer(now)
    }

    function Stop(): Presence {
      this.(stopped := true, timer := NoTimer)
    }

    function Fire(): Presence {
      this.(timer := Expired, isAvailable := isAvailable && stopped)
    }
  }

  function NewPresence(cfg: Config): Presence {
    Presence(cfg, false, NoTimer, false)
  }

  class PresenceManager {
    const cfg: Config
    /** All that the manager uses of the limiter it holds. */
    const limiterCfg: RateLimiters.Config
    var isAvailable: bool
    var idleTimer: Timer
    var stopped: bool

    ghost function View(): Presence
      reads this
    {
      Presence(cfg, isAvailable, idleTimer, stopped)
    }

    constructor (cfg: Config, limiterCfg: RateLimiters.Config)
      ensures View() == NewPresence(cfg) && this.limiterCfg == limiterCfg
    {
      this.cfg, this.limiterCfg := cfg, limiterCfg;
      isAvailable, idleTimer, stopped := false, NoTimer, false;
    }

    method SetAvailable()
      modifies this
      ensures View() == old(View()).(isAvailable := true)
    {
      if !isAvailable {
        isAvailable := true;
      }
    }

    method SetUnavailable()
      modifies this
      ensures View() == old(View()).(isAvailable := false)
    {
      if isAvailable {
        isAvailable := false;
      }
    }

    method ResetIdleTimer(now: int)
      modifies this
      ensures View() == old(View()).ResetIdleTimer(now)
    {
      if !cfg.enabled || cfg.idleTimeout <= 0 {
        return;
      }
      idleTimer := Armed(now + cfg.idleTimeout);
    }

    method StopIdleTimer()
      modifies this
      ensures View() == old(View()).(timer := NoTimer)
    {
      if idleTimer != NoTimer {
        idleTimer := NoTimer;
      }
    }

    method OnConnect(now: int)
      modifies this
      ensures View() == old(View()).OnConnect(now)
    {
      if !cfg.enabled || stopped {
        return;
      }
      if cfg.sendOnConnect {
        SetAvailable();
      }
      ResetIdleTimer(now);
    }

    method OnDisconnect()
      modifies this
      ensures View() == old(View()).OnDisconnect()
    {
      if !cfg.enabled {
        return;
      }
      StopIdleTimer();
      SetUnavailable();
    }

    /** The part of a send that precedes the typing delay; `connected` is the client's answer. */
    method BeforeSend(now: int, connected: bool)
      modifies this
      ensures View() == old(View()).BeforeSend(now, connected)
    {
      ResetIdleTimer(now);
      if !cfg.enabled || !cfg.simulateTyping {
        return;
      }
      if !connected {
        return;
      }
      if !isAvailable {
        SetAvailable();
      }
    }

    method AfterSend(now: int)
      modifies this
      ensures View() == old(View()).ResetIdleTimer(now)
    {
      ResetIdleTimer(now);
    }

    method MarkActive(now: int)
      modifies this
      ensures View() == old(View()).MarkActive(now)
    {
      if !cfg.enabled || stopped {
        return;
      }
      if !isAvailable {
        SetAvailable();
      }
      ResetIdleTimer(now);
    }

    method Stop()
      modifies this
      ensures View() == old(View()).Stop()
    {
      stopped := true;
      StopIdleTimer();
    }

    /** The callback of the idle timer. */
    method IdleTimerFired()
      requires idleTimer.Armed?
      modifies this
      ensures View() == old(View()).Fire()
    {
      idleTimer := Expired;
      if !stopped {
        SetUnavailable();
      }
    }
  }

  // ---------- Runs ----------

  datatype Op =
    | Connect
    | Disconnect
    | Before(connected: bool)
    | After
    | Active
    | StopOp
    | FireOp
    | Tick(duration: nat)

  datatype World = World(p: Presence, now: int, lastActivity: int)

  /** An armed timer is on time: it fires at its deadline, and time does not pass the deadline
      before it has fired. */
  predicate Enabled(w: World, op: Op) {
    match op
    case FireOp => w.p.timer.Armed? && w.p.timer.deadline <= w.now
    case Tick(d) => w.p.timer.Armed? ==> w.now + d <= w.p.timer.deadline
    case _ => true
  }

  function Step(w: World, op: Op): World {
    if !Enabled(w, op) then w else
      match op
      case Connect => World(w.p.OnConnect(w.now), w.now, w.now)
      case Disconnect => w.(p := w.p.OnDisconnect())
      case Before(connected) => World(w.p.BeforeSend(w.now, connected), w.now, w.now)
      case After => World(w.p.ResetIdleTimer(w.now), w.now, w.now)
      case Active => World(w.p.MarkActive(w.now), w.now, w.now)
      case StopOp => w.(p := w.p.Stop())
      case FireOp => w.(p := w.p.Fire())
      case Tick(d) => w.(now := w.now + d)
  }

  function Exec(w: World, ops: seq<Op>): World
    decreases |ops|
  {
    if ops == [] then w else Step(Exec(w, ops[..|ops| - 1]), ops[|ops| - 1])
  }

  function Fresh(cfg: Config, now: int): World {
    World(NewPresence(cfg), now, now)
  }

  /** Marked online, but idle for no longer than the idle timeout. */
  predicate NotOverstaying(w: World) {
    w.p.isAvailable && !w.p.stopped ==> w.now <= w.lastActivity + w.p.cfg.idleTimeout
  }

  predicate Guarded(w: World) {
    && (w.p.isAvailable ==> w.p.cfg.enabled)
    && w.lastActivity <= w.now
    && (w.p.isAvailable && !w.p.stopped ==>
          w.p.timer.Armed? && w.now <= w.p.timer.deadline <= w.lastActivity + w.p.cfg.idleTimeout)
  }

  lemma {:induction false} StaysGuarded(cfg: Config, now: int, ops: seq<Op>)
    requires cfg.enabled ==> 0 < cfg.idleTimeout
    ensures Guarded(Exec(Fresh(cfg, now), ops)) && Exec(Fresh(cfg, now), ops).p.cfg == cfg
    decreases |ops|
  {
    if ops != [] {
      StaysGuarded(cfg, now, ops[..|ops| - 1]);
    }
  }

  lemma NoTimeoutOverstays(cfg: Config, now: int)
    requires cfg.enabled && cfg.idleTimeout <= 0
    ensures !NotOverstaying(Exec(Fresh(cfg, now), [Active, Tick(1)]))
  {
    var ops := [Active, Tick(1)];
    assert ops[..1] == [Active] && [Active][..0] == [];
    assert Exec(Fresh(cfg, now), [Active]) == World(NewPresence(cfg).MarkActive(now), now, now);
  }

  /** IDLE PRESENCE DEADLINE.  Exactly the configurations with a positive idle timeout (or with
      presence switched off) keep a manager that has not been stopped from being marked online
      longer than the timeout after its last activity. */
  lemma IdlePresenceDeadline(cfg: Config, now: int)
    ensures (forall ops :: NotOverstaying(Exec(Fresh(cfg, now), ops))) <==> (cfg.enabled ==> 0 < cfg.idleTimeout)
  {
    if cfg.enabled && cfg.idleTimeout <= 0 {
      NoTimeoutOverstays(cfg, now);
    } else {
      forall ops
        ensures NotOverstaying(Exec(Fresh(cfg, now), ops))
      {
        StaysGuarded(cfg, now, ops);
      }
    }
  }

  /** The activities that mark the session online. */
  predicate Marks(cfg: Config, op: Op) {
    op.Active? || (op.Connect? && cfg.sendOnConnect) || (op.Before? && op.connected && cfg.simulateTyping)
  }

  /** Such an activity came after the last disconnection, and since then, where there is a timeout, no
      more than `gap` ever passed without some activity. */
  ghost predicate MarkedWithin(cfg: Config, now: int, ops: seq<Op>, gap: int)
    decreases |ops|
  {
    ops != [] &&
    var before, op, w := ops[..|ops| - 1], ops[|ops| - 1], Exec(Fresh(cfg, now), ops);
    && !op.Disconnect?
    && (Marks(cfg, op) || MarkedWithin(cfg, now, before, gap))
    && (0 < cfg.idleTimeout ==> w.now - w.lastActivity <= gap)
  }

  ghost predicate NeverStopped(ops: seq<Op>) {
    forall k :: 0 <= k < |ops| ==> !ops[k].StopOp?
  }

  /** The timer of a manager that has not been stopped runs from the last activity. */
  predicate TimedFromActivity(w: World) {
    && !w.p.stopped && w.lastActivity <= w.now
    && (w.p.timer.Armed? ==> 0 < w.p.cfg.idleTimeout && w.p.timer.deadline == w.lastActivity + w.p.cfg.idleTimeout)
  }

  lemma {:induction false} AlwaysTimed(cfg: Config, now: int, ops: seq<Op>)
    requires NeverStopped(ops) && cfg.enabled
    ensures TimedFromActivity(Exec(Fresh(cfg, now), ops)) && Exec(Fresh(cfg, now), ops).p.cfg == cfg
    decreases |ops|
  {
    if ops != [] {
      AlwaysTimed(cfg, now, ops[..|ops| - 1]);
    }
  }

  /** ONLINE WHEN IT SHOULD BE: marked since the last disconnection, and never idle for the timeout. */
  lemma {:induction false} MarkedIsOnline(cfg: Config, now: int, ops: seq<Op>)
    requires NeverStopped(ops) && cfg.enabled && MarkedWithin(cfg, now, ops, cfg.idleTimeout - 1)
    ensures Exec(Fresh(cfg, now), ops).p.isAvailable
    ensures 0 < cfg.idleTimeout ==> Exec(Fresh(cfg, now), ops).p.timer.Armed?
    decreases |ops|
  {
    var before, op := ops[..|ops| - 1], ops[|ops| - 1];
    AlwaysTimed(cfg, now, before);
    if !Marks(cfg, op) {
      MarkedIsOnline(cfg, now, before);
    }
  }

  /** AND ONLY THEN, up to the instant at which the timer fires. */
  lemma {:induction false} OnlineIsMarked(cfg: Config, now: int, ops: seq<Op>)
    requires NeverStopped(ops) && Exec(Fresh(cfg, now), ops).p.isAvailable
    ensures cfg.enabled && MarkedWithin(cfg, now, ops, cfg.idleTimeout)
    ensures 0 < cfg.idleTimeout ==> Exec(Fresh(cfg, now), ops).p.timer.Armed?
    decreases |ops|
  {
    if ops != [] {
      var before, op := ops[..|ops| - 1], ops[|ops| - 1];
      KeepsCfg(cfg, now, before);
      if cfg.enabled {
        AlwaysTimed(cfg, now, before);
      }
      if Exec(Fresh(cfg, now), before).p.isAvailable {
        OnlineIsMarked(cfg, now, before);
      }
    }
  }

  /** WHEN A SESSION IS MARKED ONLINE.  As long as its manager is not stopped: surely if an activity that
      marks it came after the last disconnection and less than the idle timeout ever passed without
      activity since; and only if presence is on and no more than the timeout ever did. */
  lemma OnlineExactly(cfg: Config, now: int, ops: seq<Op>)
    requires NeverStopped(ops)
    ensures cfg.enabled && MarkedWithin(cfg, now, ops, cfg.idleTimeout - 1) ==> Exec(Fresh(cfg, now), ops).p.isAvailable
    ensures Exec(Fresh(cfg, now), ops).p.isAvailable ==> cfg.enabled && MarkedWithin(cfg, now, ops, cfg.idleTimeout)
  {
    if cfg.enabled && MarkedWithin(cfg, now, ops, cfg.idleTimeout - 1) {
      MarkedIsOnline(cfg, now, ops);
    }
    if Exec(Fresh(cfg, now), ops).p.isAvailable {
      OnlineIsMarked(cfg, now, ops);
    }
  }

  lemma {:induction false} KeepsCfg(cfg: Config, now: int, ops: seq<Op>)
    ensures Exec(Fresh(cfg, now), ops).p.cfg == cfg
    decreases |ops|
  {
    if ops != [] {
      KeepsCfg(cfg, now, ops[..|ops| - 1]);
    }
  }

  /** With presence switched off nothing ever happens, except that a stop is noted. */
  lemma {:induction false} DisabledDoesNothing(cfg: Config, now: int, ops: seq<Op>)
    requires !cfg.enabled
    ensures Exec(Fresh(cfg, now), ops).p == Presence(cfg, false, NoTimer, !NeverStopped(ops))
    decreases |ops|
  {
    if ops != [] {
      var before, last := ops[..|ops| - 1], ops[|ops| - 1];
      DisabledDoesNothing(cfg, now, before);
      assert NeverStopped(ops) <==> NeverStopped(before) && !last.StopOp? by {
        assert ops == before + [last];
        assert !NeverStopped(before) ==> exists k :: 0 <= k < |before| && before[k].StopOp? && ops[k].StopOp?;
      }
    }
  }

  // ---------- After Stop ----------

  /** The world as far as a stopped manager is concerned. */
  ghost predicate StoppedWorld(w: World) {
    w.p.stopped && w.lastActivity <= w.now
  }

  /** Some run leaves the session marked online `d` after its last activity, or longer. */
  ghost predicate CanOverstay(w: World, d: nat) {
    exists ops :: Exec(w, ops).p.isAvailable && Exec(w, ops).lastActivity + d <= Exec(w, ops).now
  }

  lemma {:induction false} ExecConcat(w: World, a: seq<Op>, b: seq<Op>)
    ensures Exec(w, a + b) == Exec(Exec(w, a), b)
    decreases |b|
  {
    if b == [] {
      assert a + b == a;
    } else {
      ExecConcat(w, a, b[..|b| - 1]);
      assert (a + b)[..|a + b| - 1] == a + b[..|b| - 1];
    }
  }

  lemma ExecOne(w: World, op: Op)
    ensures Exec(w, [op]) == Step(w, op)
  {
    assert [op][..0] == [];
  }

  lemma {:induction false} StaysStopped(w: World, ops: seq<Op>)
    requires StoppedWorld(w)
    ensures StoppedWorld(Exec(w, ops)) && Exec(w, ops).p.cfg == w.p.cfg
    decreases |ops|
  {
    if ops != [] {
      StaysStopped(w, ops[..|ops| - 1]);
    }
  }

  /** Whether a session whose manager is stopped is marked online, from the sends and the
      disconnections alone. */
  function OnlineAfter(cfg: Config, online: bool, ops: seq<Op>): bool {
    if ops == [] then online else
      var before := OnlineAfter(cfg, online, ops[..|ops| - 1]);
      match ops[|ops| - 1]
      case Disconnect => before && !cfg.enabled
      case Before(connected) => before || (connected && cfg.enabled && cfg.simulateTyping)
      case _ => before
  }

  /** A stopped manager is still marked online by sends and offline by disconnections, and by
      nothing else: neither connecting, nor activity, nor its own idle timer has any say. */
  lemma {:induction false} StoppedPresence(w: World, ops: seq<Op>)
    requires StoppedWorld(w)
    ensures Exec(w, ops).p.isAvailable == OnlineAfter(w.p.cfg, w.p.isAvailable, ops)
    decreases |ops|
  {
    if ops != [] {
      StoppedPresence(w, ops[..|ops| - 1]);
      StaysStopped(w, ops[..|ops| - 1]);
    }
  }

  /** A stop cancels the timer, and only sends arm it again. */
  lemma {:induction false} StopCancelsTimer(w: World, ops: seq<Op>)
    requires forall k :: 0 <= k < |ops| ==> !ops[k].Before? && !ops[k].After?
    ensures Exec(Step(w, StopOp), ops).p.timer.NoTimer? && Exec(Step(w, StopOp), ops).p.stopped
    decreases |ops|
  {
    if ops != [] {
      StopCancelsTimer(w, ops[..|ops| - 1]);
    }
  }

  /** Time can pass freely once the timer, if any, has fired. */
  lemma TimePasses(w: World, d: nat) returns (ops: seq<Op>)
    requires StoppedWorld(w) && w.p.isAvailable
    ensures Exec(w, ops).p.isAvailable
    ensures Exec(w, ops).lastActivity == w.lastActivity && w.now + d <= Exec(w, ops).now
  {
    var toDeadline := if w.p.timer.Armed? && w.now < w.p.timer.deadline then w.p.timer.deadline - w.now else 0;
    var due, fired := Step(w, Tick(toDeadline)), Step(Step(w, Tick(toDeadline)), FireOp);
    ops := [Tick(toDeadline)] + [FireOp] + [Tick(d)];
    ExecOne(w, Tick(toDeadline));
    ExecOne(due, FireOp);
    ExecOne(fired, Tick(d));
    ExecConcat(w, [Tick(toDeadline)], [FireOp]);
    ExecConcat(w, [Tick(toDeadline)] + [FireOp], [Tick(d)]);
  }

  lemma {:induction false} StaysOffline(cfg: Config, ops: seq<Op>)
    requires !(cfg.enabled && cfg.simulateTyping)
    ensures !OnlineAfter(cfg, false, ops)
    decreases |ops|
  {
    if ops != [] {
      StaysOffline(cfg, ops[..|ops| - 1]);
    }
  }

  /** THE DEADLINE FAILS FOR STOPPED MANAGERS.  A stopped manager can leave the session marked online
      for any length of time exactly if it is online already, or sends would mark it so: its timer is
      re-armed by sends, but no longer takes it offline. */
  lemma StoppedOverstaysIff(w: World)
    requires StoppedWorld(w)
    ensures (forall d: nat :: CanOverstay(w, d))
            <==> w.p.isAvailable || (w.p.cfg.enabled && w.p.cfg.simulateTyping)
  {
    if w.p.isAvailable || (w.p.cfg.enabled && w.p.cfg.simulateTyping) {
      forall d: nat
        ensures CanOverstay(w, d)
      {
        var first := if w.p.isAvailable then [] else [Before(true)];
        ExecOne(w, Before(true));
        StaysStopped(w, first);
        var rest := TimePasses(Exec(w, first), d);
        ExecConcat(w, first, rest);
        assert Exec(w, first + rest).p.isAvailable;
      }
    } else {
      forall ops
        ensures !Exec(w, ops).p.isAvailable
      {
        StoppedPresence(w, ops);
        StaysOffline(w.p.cfg, ops);
      }
      assert !CanOverstay(w, 0);
    }
  }
}

/** The sender: what one text message does to the limiter, the presence and the event queue. */
module Sending {
  import opened States
  import opened Events
  import opened EventQueues
  import opened Timing
  import opened RateLimiters
  import Presences

  /** The environment of one send: whether the client is logged in and connected, whether the
      address parses, and the identifier the server answers with, if it does. */
  datatype SendEnv = SendEnv(loggedIn: bool, connected: bool, validAddress: bool, response: Option<string>)
  {
    /** The send gets as far as waiting for its turn. */
    predicate Waits() {
      loggedIn && validAddress
    }
  }

  /** Typing took at least the floor, less its variance. */
  ghost predicate TypedLongEnough(cfg: Config, elapsed: int) {
    (1.0 - cfg.jitterFactor) * (TYPING_FLOOR as real) - 1.0 < elapsed as real
  }

  /** The time taken is the typing time of this very text, for some draws, and at most `extra` more. */
  ghost predicate TypedOut(cfg: Config, textLen: int, elapsed: int, extra: real)
    requires 0.0 < cfg.typingCPS
  {
    exists u, uCap, uFloor :: Draw(u) && Draw(uCap) && Draw(uFloor) &&
      TypingDelay(cfg, textLen, u, uCap, uFloor) <= elapsed
      && elapsed as real <= TypingDelay(cfg, textLen, u, uCap, uFloor) as real + extra
  }

  class Sender {
    const queue: EventQueue
    var limiter: RateLimiter?
    var presence: Presences.PresenceManager?

    ghost predicate Valid(now: int)
      reads this, queue, limiter
    {
      && queue.Valid()
      && (limiter != null ==> limiter.Valid(now))
      && (presence != null ==> presence.limiterCfg.Refills() && 0.0 < presence.limiterCfg.typingCPS)
    }

    /** This send shows the typing indicator. */
    predicate Types(textLen: int, connected: bool)
      reads this
    {
      presence != null && presence.cfg.enabled && presence.cfg.simulateTyping && connected && 0 < textLen
    }

    /** How long a send can take besides its typing: the limiter, and timers that are late. */
    ghost function LongestWait(slack: nat): real
      requires limiter != null ==> limiter.cfg.Refills()
      reads this
    {
      1.0 + slack as real +
      if limiter == null then 0.0
      else LongestMinWait(limiter.cfg) + LongestTokenWait(limiter.cfg) + 1.0 + 2.0 * slack as real
    }

    constructor (queue: EventQueue, limiter: RateLimiter?, presence: Presences.PresenceManager?)
      ensures this.queue == queue && this.limiter == limiter && this.presence == presence
    {
      this.queue, this.limiter, this.presence := queue, limiter, presence;
    }

    method SetRateLimiter(l: RateLimiter?)
      modifies this`limiter
      ensures limiter == l
    {
      limiter := l;
    }

    method SetPresenceManager(p: Presences.PresenceManager?)
      modifies this`presence
      ensures presence == p
    {
      presence := p;
    }

    /** Typing first, then the limiter; both are the ones current at the start. */
    method WaitBeforeSend(clock: Clock, textLen: int, connected: bool, slack: nat)
      requires Valid(clock.now)
      modifies limiter, presence, clock
      ensures Valid(clock.now) && old(clock.now) <= clock.now
      ensures limiter != null ==>
                && old(limiter.View()).Refill(limiter.lastRefill).tokens >= 1.0
                && limiter.View() == old(limiter.View()).Refill(limiter.lastRefill).Grant(clock.now)
                && Spaced(limiter.cfg, old(limiter.lastSendTime), clock.now)
      ensures presence != null ==> presence.View() == old(presence.View()).BeforeSend(old(clock.now), connected)
      ensures Types(textLen, connected) ==>
                && TypedLongEnough(presence.limiterCfg, clock.now - old(clock.now))
                && TypedOut(presence.limiterCfg, textLen, clock.now - old(clock.now), LongestWait(slack))
      ensures !Types(textLen, connected) ==> (clock.now - old(clock.now)) as real <= LongestWait(slack)
    {
      hide Bucket.Refill, Presences.Presence.BeforeSend, TypingDelay, Spaced;
      if presence != null {
        presence.BeforeSend(clock.now, connected);
        if presence.cfg.enabled && presence.cfg.simulateTyping && connected {
          var u, uCap, uFloor: real :| Draw(u) && Draw(uCap) && Draw(uFloor);
          var delay := TypingDelay(presence.limiterCfg, textLen, u, uCap, uFloor);
          if 0 < textLen {
            TypingDelayEnvelope(presence.limiterCfg, textLen, u, uCap, uFloor);
          }
          if 0 < delay {
            clock.Sleep(delay, slack);
          }
        }
      }
      if limiter != null {
        var granted, waits := limiter.WaitContext(clock, false, slack);
      }
    }

    /** SendText: every outcome pushes exactly one event; a send takes its one token exactly if it
        is addressed well and logged in, even when the server then refuses it. */
    method SendText(clock: Clock, text: string, env: SendEnv, slack: nat) returns (r: Result<string>)
      requires Valid(clock.now)
      modifies queue, queue.data, limiter, presence, clock
      ensures Valid(clock.now) && (queue.data == old(queue.data) || fresh(queue.data))
      ensures r == if !env.loggedIn then Err(NotConnected)
                   else if !env.validAddress then Err(InvalidJID)
                   else if env.response.None? then Err(SendFailed)
                   else Ok(env.response.value)
      ensures queue.View() == old(queue.View()).Push(if r.Ok? then MessageSent(text) else MessageFailed(text))
      ensures limiter != null && !env.Waits() ==> limiter.View() == old(limiter.View())
      ensures limiter != null && env.Waits() ==>
                && old(limiter.View()).Refill(limiter.lastRefill).tokens >= 1.0
                && limiter.View() == old(limiter.View()).Refill(limiter.lastRefill).Grant(clock.now)
                && Spaced(limiter.cfg, old(limiter.lastSendTime), clock.now)
      ensures env.Waits() && Types(|text|, env.connected) ==>
                && TypedLongEnough(presence.limiterCfg, clock.now - old(clock.now))
                && TypedOut(presence.limiterCfg, |text|, clock.now - old(clock.now), LongestWait(slack))
      ensures env.Waits() && !Types(|text|, env.connected) ==>
                (clock.now - old(clock.now)) as real <= LongestWait(slack)
      ensures !env.Waits() ==> clock.now == old(clock.now)
      ensures presence != null ==>
                presence.View() ==
                if !env.Waits() then old(presence.View())
                else if r.Err? then old(presence.View()).BeforeSend(old(clock.now), env.connected)
                else old(presence.View()).BeforeSend(old(clock.now), env.connected).ResetIdleTimer(clock.now)
    {
      hide Bucket.Refill, Queue.Push, EventQueue.View, Spaced, TypedOut, TypedLongEnough, LongestWait;
      hide Presences.Presence.BeforeSend, Presences.Presence.ResetIdleTimer;
      if !env.loggedIn {
        queue.Push(MessageFailed(text));
        return Err(NotConnected);
      }
      if !env.validAddress {
        queue.Push(MessageFailed(text));
        return Err(InvalidJID);
      }
      WaitBeforeSend(clock, |text|, env.connected, slack);
      if env.response.None? {
        queue.Push(MessageFailed(text));
        return Err(SendFailed);
      }
      if presence != null {
        presence.AfterSend(clock.now);
      }
      queue.Push(MessageSent(text));
      return Ok(env.response.value);
    }
  }
}

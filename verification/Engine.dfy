/** One engine: its own lifecycle layered over the client's, with the library as environment. */
module Engines {
  import opened States
  import opened Events
  import opened EventQueues
  import opened Clients
  import Backoffs
  import Presences
  import RateLimiters

  /** What the library does on its own: deliver an event or a QR item, or link the device.
      `socketAfter` says whether it keeps its socket; only a remote logout may unlink the device. */
  datatype EnvStep =
    | Deliver(ev: WAEvent, socketAfter: bool, pairedAfter: bool)
    | DeliverQR(item: QRItem, socketAfter: bool)
    | CloseQR
    | LinkDevice

  datatype Call =
    | CallStart(connects: bool)
    | CallPair(qrChannel: bool, connects: bool)
    | CallPhone(outcome: PhoneOutcome)
    | CallStop
    | CallLogout(cleared: bool, created: bool)
    | Env(step: EnvStep)

  /** `id` stands for the identity of the engine object. */
  datatype EngineView = EngineView(id: nat, state: EngineState, client: ClientView, paired: bool)
  {
    function Start(connects: bool): (EngineView, Result<()>) {
      if state.Running? || state.Starting? || state.EnginePairing? then (this, Ok(()))
      else if !paired then (this.(state := Stopped), Err(NotPaired))
      else
        var (c, r) := client.Connect(paired, connects);
        (this.(client := c, state := if r.Ok? then Running else Stopped), r)
    }

    function StartPairing(qrChannel: bool, connects: bool): (EngineView, Result<()>) {
      if state.EnginePairing? then (this, Ok(()))
      else if state.Running? || paired then (this, Err(AlreadyRunning))
      else
        var (c, r) := client.StartPairing(paired, qrChannel, connects);
        (this.(client := c, state := if r.Ok? then EnginePairing else Stopped), r)
    }

    function StartPhonePairing(outcome: PhoneOutcome): (EngineView, Result<string>) {
      if state.EnginePairing? || state.Running? || paired then (this, Err(AlreadyRunning))
      else
        var (c, r) := client.StartPhonePairing(paired, outcome);
        (this.(client := c, state := if r.Ok? then EnginePairing else Stopped), r)
    }

    function Stop(): EngineView {
      if state.Stopped? || state.Stopping? then this
      else this.(client := client.Disconnect(), state := Stopped)
    }

    /** `cleared` is whether the stored device could be deleted, `created` whether a client could be
        made for the new one. */
    function Logout(cleared: bool, created: bool): (EngineView, Result<()>) {
      if !cleared then (Stop(), Err(StorageFailed))
      else if !created then (Stop().(paired := false), Err(NotInitialized))
      else (Stop().(client := NewClient(), paired := false), Ok(()))
    }

    predicate Allows(step: EnvStep) {
      match step
      case Deliver(ev, _, pairedAfter) =>
        && client.socket
        && (ev.EvConnected? || ev.EvPairSuccess? ==> paired)
        && (ev.EvConnected? ==> ev.jid.Some?)
        && (pairedAfter != paired ==> ev.EvLoggedOut? && paired)
      case DeliverQR(_, socketAfter) => socketAfter ==> client.socket
      case CloseQR => true
      case LinkDevice => client.socket && !paired
    }

    function Absorb(step: EnvStep): EngineView {
      match step
      case Deliver(ev, socketAfter, pairedAfter) =>
        this.(client := client.Handle(ev).(socket := socketAfter), paired := pairedAfter)
      case DeliverQR(item, socketAfter) => this.(client := client.HandleQR(item).(socket := socketAfter))
      case CloseQR => this.(client := client.QRChannelClosed())
      case LinkDevice => this.(paired := true)
    }

    function Perform(call: Call): EngineView {
      match call
      case CallStart(connects) => Start(connects).0
      case CallPair(qrChannel, connects) => StartPairing(qrChannel, connects).0
      case CallPhone(outcome) => StartPhonePairing(outcome).0
      case CallStop => Stop()
      case CallLogout(cleared, created) => Logout(cleared, created).0
      case Env(step) => if Allows(step) then Absorb(step) else this
    }

    function PerformAll(calls: seq<Call>): EngineView
      decreases |calls|
    {
      if calls == [] then this else PerformAll(calls[..|calls| - 1]).Perform(calls[|calls| - 1])
    }

    predicate Settled() {
      state.Stopped? || state.Running? || state.EnginePairing?
    }

    /** Between operations: never in a transient state, and a stopped engine's client is down. */
    predicate Coupled() {
      && Settled()
      && (state.Stopped? ==> client.state.Disconnected?)
    }

    /** A client that believes itself disconnected has no socket behind its back. */
    predicate Tight() {
      client.state.Disconnected? ==> !client.socket
    }
  }

  function NewEngine(id: nat, paired: bool): (e: EngineView)
    ensures e.id == id && e.paired == paired
  {
    EngineView(id, Stopped, NewClient(), paired)
  }

  // ---------- Coupling of the two state machines ----------

  predicate EndsConnection(ev: WAEvent) {
    ev.EvLoggedOut? || ev.EvStreamReplaced? || ev.EvPairError?
  }

  /** The calls that break the coupling, or leave a socket behind a client that believes itself
      disconnected: the library keeps its socket through an event that ends the connection, or a
      phone pairing fails after its socket opened. */
  predicate Breaks(e: EngineView, call: Call) {
    match call
    case Env(Deliver(ev, socketAfter, _)) => e.Allows(call.step) && EndsConnection(ev) && socketAfter
    case Env(DeliverQR(item, socketAfter)) =>
      e.Allows(call.step) && (item.QRTimeout? || item.QRError?) && socketAfter
    case CallPhone(outcome) => e.state.Stopped? && !e.paired && (outcome.NeverReady? || outcome.CodeRefused?)
    case _ => false
  }

  predicate Sound(e: EngineView) {
    e.Coupled() && e.Tight()
  }

  /** Exactly these calls do. */
  lemma PerformKeepsSoundIff(e: EngineView, call: Call)
    requires Sound(e)
    ensures Sound(e.Perform(call)) <==> !Breaks(e, call)
  {
    match call
    case Env(Deliver(ev, _, _)) =>
    case Env(DeliverQR(item, _)) =>
    case _ =>
  }

  ghost predicate AlwaysSound(e: EngineView, calls: seq<Call>)
    decreases |calls|
  {
    Sound(e.PerformAll(calls)) && (calls == [] || AlwaysSound(e, calls[..|calls| - 1]))
  }

  ghost predicate NeverBroken(e: EngineView, calls: seq<Call>)
    decreases |calls|
  {
    calls == [] ||
    var before := calls[..|calls| - 1];
    NeverBroken(e, before) && !Breaks(e.PerformAll(before), calls[|calls| - 1])
  }

  /** ENGINE/CLIENT COUPLING over whole runs: throughout a run the engine is Stopped, Running or
      Pairing, a stopped engine's client is disconnected, and a disconnected client has no socket,
      exactly if no call of the run breaks it. */
  lemma {:induction false} AlwaysCoupledIff(id: nat, paired: bool, calls: seq<Call>)
    ensures AlwaysSound(NewEngine(id, paired), calls) <==> NeverBroken(NewEngine(id, paired), calls)
    decreases |calls|
  {
    if calls != [] {
      AlwaysCoupledIff(id, paired, calls[..|calls| - 1]);
      hide EngineView.Perform, Sound, Breaks;
      if AlwaysSound(NewEngine(id, paired), calls[..|calls| - 1]) {
        PerformKeepsSoundIff(NewEngine(id, paired).PerformAll(calls[..|calls| - 1]), calls[|calls| - 1]);
      }
    }
  }

  /** Stopping always ends stopped, with the client down, and is idempotent.  It leaves a socket
      open in one case only: when the client already believed itself disconnected. */
  lemma StopSettles(e: EngineView)
    requires e.Coupled()
    ensures e.Stop().state.Stopped? && e.Stop().client.state.Disconnected? && e.Stop().Stop() == e.Stop()
    ensures e.Stop().client.socket <==> !e.Tight()
    ensures e.Stop().paired == e.paired && e.Stop().id == e.id
  {
  }

  /** A logout that could clear the device leaves an engine that can only be paired again; one that
      could not leaves the old link in place, and starting picks it up. */
  lemma LogoutSettles(e: EngineView, cleared: bool, created: bool)
    requires e.Coupled() && e.paired
    ensures
      var after := e.Logout(cleared, created).0;
      && after.state.Stopped? && after.client.state.Disconnected?
      && (if cleared then after.Start(true).1 == Err(NotPaired) && after.StartPairing(true, true).0.state.EnginePairing?
          else after.Start(true).0.state.Running? && after.StartPairing(true, true).1 == Err(AlreadyRunning))
  {
    StopSettles(e);
  }

  /** Exactly what can break the coupling from outside: a stopped engine with a live socket. */
  lemma CoupledUnlessSocketSurvives(e: EngineView)
    requires e.Coupled()
    ensures (forall step :: e.Allows(step) ==> e.Absorb(step).Coupled()) <==> (!e.state.Stopped? || !e.client.socket)
  {
    if e.state.Stopped? && e.client.socket {
      var step := Deliver(EvKeepAliveTimeout, true, e.paired);
      assert e.Allows(step) && !e.Absorb(step).Coupled();
    }
  }

  /** A phone pairing refused after the socket opened does it: the pairing can still succeed behind
      the stopped engine, whose Stop then no longer reaches the connected client. */
  lemma LatePhoneFailureLeaks(id: nat, jid: string)
    ensures
      var e := NewEngine(id, false).PerformAll(
                 [CallPhone(CodeRefused), Env(LinkDevice), Env(Deliver(EvPairSuccess(jid), true, true))]);
      e.state.Stopped? && e.client.state.Connected? && e.Stop() == e
  {
    var calls := [CallPhone(CodeRefused), Env(LinkDevice), Env(Deliver(EvPairSuccess(jid), true, true))];
    var e := NewEngine(id, false);
    assert calls[..2][..1] == [CallPhone(CodeRefused)] && [CallPhone(CodeRefused)][..0] == [];
    assert e.PerformAll(calls[..2][..1]) == e.Perform(calls[0]);
    assert e.PerformAll(calls[..2]) == e.Perform(calls[0]).Perform(calls[1]);
  }

  // ---------- Outcomes ----------

  /** A start is idempotent, refused without a link, and otherwise as good as the client's connection,
      which a client that is connected or connecting already has. */
  lemma StartOutcome(e: EngineView, connects: bool)
    ensures
      var (e', r) := e.Start(connects);
      var up := e.state.Running? || e.state.Starting? || e.state.EnginePairing?;
      var has := e.client.state.Connected? || e.client.state.Connecting? || e.client.state.Pairing?;
      && e'.id == e.id && e'.paired == e.paired
      && (up ==> e' == e && r == Ok(()))
      && (!up && !e.paired ==> e' == e.(state := Stopped) && r == Err(NotPaired))
      && (!up && e.paired ==>
            && r == (if has || connects then Ok(()) else Err(ConnectionFailed))
            && e'.state == (if r.Ok? then Running else Stopped)
            && (has ==> e'.client == e.client)
            && (!has ==> e'.client.state == if connects then Connecting else Disconnected))
  {
  }

  /** A QR pairing is silently repeated on a pairing engine, and refused on a running or paired one. */
  lemma StartPairingOutcome(e: EngineView, qrChannel: bool, connects: bool)
    ensures
      var (e', r) := e.StartPairing(qrChannel, connects);
      var refused := e.state.Running? || e.paired;
      && e'.id == e.id && e'.paired == e.paired
      && (e.state.EnginePairing? ==> e' == e && r == Ok(()))
      && (!e.state.EnginePairing? && refused ==> e' == e && r == Err(AlreadyRunning))
      && (!e.state.EnginePairing? && !refused ==>
            && r == (if e.client.state.Pairing? then Ok(()) else if e.client.state.Connected? then Err(AlreadyRunning)
                     else if qrChannel && connects then Ok(()) else Err(ConnectionFailed))
            && e'.state == (if r.Ok? then EnginePairing else Stopped)
            && (r.Ok? ==> e'.client.state.Pairing?))
  {
  }

  /** A phone pairing is refused on a pairing engine as well. */
  lemma StartPhonePairingOutcome(e: EngineView, outcome: PhoneOutcome)
    ensures
      var (e', r) := e.StartPhonePairing(outcome);
      var refused := e.state.EnginePairing? || e.state.Running? || e.paired;
      && e'.id == e.id && e'.paired == e.paired
      && (refused ==> e' == e && r == Err(AlreadyRunning))
      && (!refused ==>
            && (r.Ok? <==> outcome.CodeIssued? && !e.client.state.Pairing? && !e.client.state.Connected?)
            && e'.state == (if r.Ok? then EnginePairing else Stopped)
            && (r.Ok? ==> e'.client.state.Pairing? && e'.client.currentPairingCode == r.value == outcome.code))
  {
  }

  /** A stop takes an engine that is up down, together with its client. */
  lemma StopOutcome(e: EngineView)
    ensures
      var e' := e.Stop();
      && e'.id == e.id && e'.paired == e.paired
      && (e.state.Stopped? || e.state.Stopping? ==> e' == e)
      && (!e.state.Stopped? && !e.state.Stopping? ==> e'.state.Stopped? && e'.client == e.client.Disconnect())
  {
  }

  /** A logout stops the engine; it forgets the link as soon as the device is cleared, and the client
      only if a new one could be made. */
  lemma LogoutOutcome(e: EngineView, cleared: bool, created: bool)
    ensures
      var (e', r) := e.Logout(cleared, created);
      && r == (if !cleared then Err(StorageFailed) else if !created then Err(NotInitialized) else Ok(()))
      && e'.id == e.id && e'.state == e.Stop().state
      && e'.paired == (e.paired && !cleared)
      && e'.client == if r.Ok? then NewClient() else e.Stop().client
  {
  }

  // ---------- Registered handlers ----------

  /** The calls that get as far as registering the event handler with the library: whether their
      connection then succeeds makes no difference. */
  predicate Registers(e: EngineView, call: Call) {
    var c := e.client.state;
    match call
    case CallStart(_) =>
      (e.state.Stopped? || e.state.Stopping?) && e.paired && !(c.Connected? || c.Connecting? || c.Pairing?)
    case CallPair(_, _) => !e.state.EnginePairing? && !e.state.Running? && !e.paired && !c.Pairing? && !c.Connected?
    case CallPhone(_) => !e.state.EnginePairing? && !e.state.Running? && !e.paired && !c.Pairing? && !c.Connected?
    case _ => false
  }

  /** The registering calls since the last completed logout, on top of the handlers there were at the
      start if there was none. */
  function Registered(e: EngineView, calls: seq<Call>): nat
    decreases |calls|
  {
    if calls == [] then e.client.handlers else
      var before, last := calls[..|calls| - 1], calls[|calls| - 1];
      if last == CallLogout(true, true) then 0
      else Registered(e, before) + if Registers(e.PerformAll(before), last) then 1 else 0
  }

  lemma PerformRegisters(e: EngineView, call: Call)
    ensures e.Perform(call).client.handlers ==
            if call == CallLogout(true, true) then 0
            else e.client.handlers + if Registers(e, call) then 1 else 0
  {
  }

  /** HANDLERS PILE UP.  In every run of every engine, the registered handlers are exactly those of the
      registering calls: neither a stop nor a failed connection takes one back. */
  lemma {:induction false} HandlersAreRegistrations(e: EngineView, calls: seq<Call>)
    ensures e.PerformAll(calls).client.handlers == Registered(e, calls)
    decreases |calls|
  {
    if calls != [] {
      HandlersAreRegistrations(e, calls[..|calls| - 1]);
      hide EngineView.Perform, Registers;
      PerformRegisters(e.PerformAll(calls[..|calls| - 1]), calls[|calls| - 1]);
    }
  }

  /** So an incoming message is pushed exactly once iff exactly one call of the run registered. */
  lemma MessagePushedOnceIff(id: nat, paired: bool, calls: seq<Call>, message: string)
    ensures
      var e := NewEngine(id, paired);
      PushedTimes(EvMessage(message), e.PerformAll(calls).client.handlers) == [MessageReceived(message)]
      <==> Registered(e, calls) == 1
  {
    var e := NewEngine(id, paired);
    HandlersAreRegistrations(e, calls);
    hide *;
    MessagesMultiply(message, e.PerformAll(calls).client.handlers);
    OnceIff(MessageReceived(message), e.PerformAll(calls).client.handlers);
  }

  lemma OnceIff(event: Event, h: nat)
    ensures seq(h, _ => event) == [event] <==> h == 1
  {
    assert |seq(h, _ => event)| == h;
    assert h == 1 ==> seq(h, _ => event) == [event];
  }

  // ---------- The class ----------

  class Engine {
    const id: nat
    const storage: Storage
    const queue: EventQueue
    const backoff: Backoffs.Backoff
    /** The configuration of the limiter that presence managers are created with. */
    const limiterCfg: RateLimiters.Config
    var client: Client
    var presence: Presences.PresenceManager
    var state: EngineState

    ghost predicate Valid()
      reads this, queue
    {
      && client.storage == storage && client.queue == queue
      && client.backoff == backoff && client.presence == presence && presence.limiterCfg == limiterCfg
      && queue.Valid()
    }

    ghost function View(): (v: EngineView)
      reads this, client, storage
      ensures v.id == id && v.state == state && v.paired == storage.paired
    {
      EngineView(id, state, client.View(), storage.paired)
    }

    ghost function Repr(): (r: set<object>)
      reads this, queue
      ensures this in r && storage in r && queue in r && queue.data in r && client in r && presence in r
    {
      {this, storage, queue, queue.data, backoff, client, presence}
    }

    /** `linked` says whether the device found on disk is linked. */
    constructor (id: nat, linked: bool, backoffCfg: Backoffs.Config, presenceCfg: Presences.Config,
                 limiterCfg: RateLimiters.Config)
      ensures Valid() && fresh(Repr())
      ensures View() == NewEngine(id, linked) && storage.paired == linked
      ensures queue.View() == NewQueue(1000)
    {
      this.id, this.limiterCfg := id, limiterCfg;
      var s := new Storage(linked);
      var q := new EventQueue(1000);
      var b := new Backoffs.Backoff(backoffCfg);
      var p := new Presences.PresenceManager(presenceCfg, limiterCfg);
      var c := new Client(s, q, b, p);
      storage, queue, backoff, presence, client := s, q, b, p, c;
      state := Stopped;
    }

    method Start(connects: bool) returns (r: Result<()>)
      requires Valid()
      modifies this`state, client
      ensures Valid()
      ensures (View(), r) == old(View()).Start(connects)
    {
      if state == Running || state == Starting || state == EnginePairing {
        return Ok(());
      }
      state := Starting;
      if !storage.paired {
        state := Stopped;
        return Err(NotPaired);
      }
      r := client.Connect(connects);
      if r.Err? {
        state := Stopped;
        return;
      }
      state := Running;
    }

    method StartPairing(qrChannel: bool, connects: bool) returns (r: Result<()>)
      requires Valid()
      modifies this`state, client
      ensures Valid()
      ensures (View(), r) == old(View()).StartPairing(qrChannel, connects)
    {
      if state == EnginePairing {
        return Ok(());
      }
      if state == Running {
        return Err(AlreadyRunning);
      }
      if storage.paired {
        return Err(AlreadyRunning);
      }
      state := EnginePairing;
      r := client.StartPairing(qrChannel, connects);
      if r.Err? {
        state := Stopped;
      }
    }

    method StartPhonePairing(phone: string, outcome: PhoneOutcome) returns (r: Result<string>)
      requires Valid()
      modifies this`state, client, queue, queue.data
      ensures Valid() && (queue.data == old(queue.data) || fresh(queue.data))
      ensures (View(), r) == old(View()).StartPhonePairing(outcome)
      ensures queue.View() ==
              if r.Ok? then old(queue.View()).Push(PairingCode(r.value, phone)) else old(queue.View())
    {
      if state == EnginePairing {
        return Err(AlreadyRunning);
      }
      if state == Running {
        return Err(AlreadyRunning);
      }
      if storage.paired {
        return Err(AlreadyRunning);
      }
      state := EnginePairing;
      r := client.StartPhonePairing(phone, outcome);
      if r.Err? {
        state := Stopped;
      }
    }

    method Stop()
      requires Valid()
      modifies this`state, client, presence
      ensures Valid()
      ensures View() == old(View()).Stop()
      ensures presence.View() == if old(state) == Stopped || old(state) == Stopping then old(presence.View())
                                 else old(presence.View()).Stop()
    {
      if state == Stopped || state == Stopping {
        return;
      }
      state := Stopping;
      presence.Stop();
      client.Disconnect();
      state := Stopped;
    }

    method Logout(cleared: bool, created: bool, presenceCfg: Presences.Config) returns (r: Result<()>)
      requires Valid()
      modifies this, client, presence, storage
      ensures Valid() && fresh(Repr() - old(Repr()))
      ensures (View(), r) == old(View()).Logout(cleared, created)
      ensures r.Ok? ==> fresh(presence) && presence.View() == Presences.NewPresence(presenceCfg)
      ensures r.Err? ==> presence == old(presence) && client == old(client)
    {
      Stop();
      if !cleared {
        return Err(StorageFailed);
      }
      storage.paired := false;
      if !created {
        return Err(NotInitialized);
      }
      var p := new Presences.PresenceManager(presenceCfg, limiterCfg);
      var c := new Client(storage, queue, backoff, p);
      client, presence := c, p;
      return Ok(());
    }
  }
}

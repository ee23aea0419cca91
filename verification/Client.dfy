/** The client wrapper: its state machine, the handlers that feed the event queue, and the hooks
    into backoff and presence.  The library underneath is an environment: whether a call on it
    succeeds is a parameter, and so is each event it delivers. */
module Clients {
  import opened States
  import opened Events
  import opened EventQueues
  import opened Timing
  import Backoffs
  import Presences

  /** Events of the library; `EvOther` is any event the handler has no case for. */
  datatype WAEvent =
    | EvConnected(jid: Option<string>)
    | EvDisconnected
    | EvLoggedOut
    | EvStreamReplaced
    | EvMessage(message: string)
    | EvHistorySync
    | EvPairSuccess(newJid: string)
    | EvPairError(why: string)
    | EvKeepAliveTimeout
    | EvKeepAliveRestored
    | EvOther

  datatype QRItem = QRCode(qr: string) | QRSuccess | QRTimeout | QRError | QROther

  /** How far a phone pairing gets: the socket does not open, never becomes ready, the code is
      refused, or the code arrives. */
  datatype PhoneOutcome = SocketRefused | NeverReady | CodeRefused | CodeIssued(code: string)

  const QR_EXPIRED := "QR code expired"
  const QR_ERROR := "QR authentication error"

  /** What a handled event pushes. */
  function Pushed(ev: WAEvent): seq<Event> {
    match ev
    case EvConnected(jid) =>
      if jid.Some? then [ConnectionOpen, LoggedIn(jid.value, false)] else [ConnectionOpen]
    case EvDisconnected => [ConnectionClosed(ByDisconnection)]
    case EvLoggedOut => [LoggedOut, ConnectionClosed(ByLogout)]
    case EvStreamReplaced => [ConnectionClosed(ByStreamReplacement)]
    case EvMessage(m) => [MessageReceived(m)]
    case EvHistorySync => [HistorySync]
    case EvPairSuccess(jid) => [PairingSuccess(jid), LoggedIn(jid, true)]
    case EvPairError(why) => [PairingFailed(why)]
    case EvKeepAliveTimeout => [ConnectionReconnecting]
    case EvKeepAliveRestored => [ConnectionOpen]
    case EvOther => []
  }

  function QRPushed(item: QRItem): seq<Event> {
    match item
    case QRCode(qr) => [QRUpdated(qr)]
    case QRTimeout => [QRExpired, PairingFailed(QR_EXPIRED)]
    case QRError => [PairingFailed(QR_ERROR)]
    case _ => []
  }

  /** `socket` and `handlers` belong to the library: whether it is connected or keeps reconnecting
      by itself, and how many times the event handler has been registered with it. */
  datatype ClientView = ClientView(
    state: ClientState,
    pairingActive: bool,
    currentQR: string,
    currentPairingCode: string,
    qrContext: bool,
    socket: bool,
    handlers: nat,
    autoReconnect: bool)
  {
    function Connect(paired: bool, connects: bool): (ClientView, Result<()>) {
      if state.Connected? || state.Connecting? || state.Pairing? then
        (this, Ok(()))
      else
        var c := this.(handlers := handlers + 1);
        if !paired then (c.(state := Disconnected), Err(NotPaired))
        else if !connects then (c.(state := Disconnected), Err(ConnectionFailed))
        else (c.(state := Connecting, socket := true), Ok(()))
    }

    function StartPairing(paired: bool, qrChannel: bool, connects: bool): (ClientView, Result<()>) {
      if state.Pairing? then (this, Ok(()))
      else if state.Connected? || paired then (this, Err(AlreadyRunning))
      else
        var c := this.(handlers := handlers + 1, qrContext := true);
        if !qrChannel || !connects
        then (c.(state := Disconnected, pairingActive := false), Err(ConnectionFailed))
        else (c.(state := Pairing, pairingActive := true, socket := true), Ok(()))
    }

    function StartPhonePairing(paired: bool, outcome: PhoneOutcome): (ClientView, Result<string>) {
      if state.Pairing? || state.Connected? || paired then (this, Err(AlreadyRunning))
      else
        var c := this.(handlers := handlers + 1);
        var failed := c.(autoReconnect := true, state := Disconnected, pairingActive := false);
        match outcome
        case SocketRefused => (failed, Err(ConnectionFailed))
        case NeverReady => (failed.(socket := true), Err(ConnectionTimeout))
        case CodeRefused => (failed.(socket := true), Err(PairingCodeFailed))
        case CodeIssued(code) =>
          (c.(autoReconnect := false, state := Pairing, pairingActive := true, socket := true,
           currentPairingCode := code), Ok(code))
    }

    function Disconnect(): ClientView {
      if state.Disconnected? then this
      else this.(qrContext := false, currentQR := "", currentPairingCode := "", socket := false,
                 state := Disconnected, pairingActive := false)
    }

    function Handle(ev: WAEvent): ClientView {
      match ev
      case EvConnected(_) => this.(state := Connected)
      case EvLoggedOut => this.(state := Disconnected, currentQR := "")
      case EvStreamReplaced => this.(state := Disconnected)
      case EvPairSuccess(_) =>
        this.(autoReconnect := true, state := Connected, pairingActive := false, currentQR := "",
              currentPairingCode := "")
      case EvPairError(_) => this.(state := Disconnected, pairingActive := false, currentPairingCode := "")
      case EvKeepAliveTimeout => this.(state := Reconnecting)
      case EvKeepAliveRestored => this.(state := Connected)
      case _ => this
    }

    /** What `h` registered handlers make of one event. */
    function HandleTimes(ev: WAEvent, h: nat): ClientView {
      if h == 0 then this else HandleTimes(ev, h - 1).Handle(ev)
    }

    function HandleQR(item: QRItem): ClientView {
      match item
      case QRCode(qr) => this.(currentQR := qr)
      case QRSuccess => this.(currentQR := "")
      case QRTimeout => this.(currentQR := "", currentPairingCode := "", state := Disconnected)
      case QRError => this.(currentQR := "", currentPairingCode := "", state := Disconnected)
      case QROther => this
    }

    /** The whole of a QR channel, through to its closing. */
    function HandleQRs(items: seq<QRItem>): ClientView
      decreases |items|
    {
      if items == [] then this else HandleQRs(items[..|items| - 1]).HandleQR(items[|items| - 1])
    }

    function QRChannelClosed(): ClientView {
      this.(pairingActive := false, currentQR := "")
    }
  }

  function NewClient(): ClientView {
    ClientView(Disconnected, false, "", "", false, false, 0, true)
  }

  function QRsPushed(items: seq<QRItem>): seq<Event>
    decreases |items|
  {
    if items == [] then [] else QRsPushed(items[..|items| - 1]) + QRPushed(items[|items| - 1])
  }

  // ---------- Field by field ----------

  /** Each field of the client, and the events that change it. */
  lemma HandleByField(c: ClientView, ev: WAEvent)
    ensures
      var c' := c.Handle(ev);
      && c'.pairingActive == (c.pairingActive && !ev.EvPairSuccess? && !ev.EvPairError?)
      && c'.currentQR == (if ev.EvLoggedOut? || ev.EvPairSuccess? then "" else c.currentQR)
      && c'.currentPairingCode == (if ev.EvPairSuccess? || ev.EvPairError? then "" else c.currentPairingCode)
      && c'.autoReconnect == (c.autoReconnect || ev.EvPairSuccess?)
      && c'.qrContext == c.qrContext && c'.socket == c.socket && c'.handlers == c.handlers
  {
  }

  lemma HandleQRByField(c: ClientView, item: QRItem)
    ensures
      var c' := c.HandleQR(item);
      && c'.currentQR == (if item.QRCode? then item.qr else if item.QROther? then c.currentQR else "")
      && c'.currentPairingCode == (if item.QRTimeout? || item.QRError? then "" else c.currentPairingCode)
      && c'.pairingActive == c.pairingActive && c'.autoReconnect == c.autoReconnect
      && c'.qrContext == c.qrContext && c'.socket == c.socket && c'.handlers == c.handlers
  {
  }

  lemma ChannelClosedByField(c: ClientView)
    ensures
      var c' := c.QRChannelClosed();
      && !c'.pairingActive && c'.currentQR == ""
      && c'.state == c.state && c'.currentPairingCode == c.currentPairingCode && c'.autoReconnect == c.autoReconnect
      && c'.qrContext == c.qrContext && c'.socket == c.socket && c'.handlers == c.handlers
  {
  }

  /** Which of the three ways of opening a connection are no-ops, which are refused, and how the rest
      end. */
  lemma ConnectOutcome(c: ClientView, paired: bool, connects: bool)
    ensures
      var (c', r) := c.Connect(paired, connects);
      var idle := c.state.Disconnected? || c.state.Reconnecting?;
      && (!idle ==> c' == c && r == Ok(()))
      && (idle && paired && connects ==> r == Ok(()) && c'.state.Connecting? && c'.socket)
      && (idle && paired && !connects ==> r == Err(ConnectionFailed) && c'.state.Disconnected? && c'.socket == c.socket)
      && (idle && !paired ==> r == Err(NotPaired) && c'.state.Disconnected? && c'.socket == c.socket)
      && c'.handlers == c.handlers + (if idle then 1 else 0)
      && c'.currentQR == c.currentQR && c'.currentPairingCode == c.currentPairingCode
      && c'.pairingActive == c.pairingActive && c'.qrContext == c.qrContext && c'.autoReconnect == c.autoReconnect
  {
  }

  lemma StartPairingOutcome(c: ClientView, paired: bool, qrChannel: bool, connects: bool)
    ensures
      var (c', r) := c.StartPairing(paired, qrChannel, connects);
      var begins := !c.state.Pairing? && !c.state.Connected? && !paired;
      && (c.state.Pairing? ==> c' == c && r == Ok(()))
      && (!c.state.Pairing? && !begins ==> c' == c && r == Err(AlreadyRunning))
      && (begins ==>
            && (r == if qrChannel && connects then Ok(()) else Err(ConnectionFailed))
            && c'.state == (if r.Ok? then Pairing else Disconnected) && c'.pairingActive == r.Ok?
            && c'.socket == (c.socket || r.Ok?) && c'.qrContext && c'.handlers == c.handlers + 1
            && c'.currentQR == c.currentQR && c'.currentPairingCode == c.currentPairingCode
            && c'.autoReconnect == c.autoReconnect)
  {
  }

  lemma StartPhonePairingOutcome(c: ClientView, paired: bool, outcome: PhoneOutcome)
    ensures
      var (c', r) := c.StartPhonePairing(paired, outcome);
      var begins := !c.state.Pairing? && !c.state.Connected? && !paired;
      && (!begins ==> c' == c && r == Err(AlreadyRunning))
      && (begins ==>
            && (r.Ok? <==> outcome.CodeIssued?) && (r.Ok? ==> r.value == outcome.code)
            && (outcome.SocketRefused? ==> r == Err(ConnectionFailed))
            && (outcome.NeverReady? ==> r == Err(ConnectionTimeout))
            && (outcome.CodeRefused? ==> r == Err(PairingCodeFailed))
            && c'.state == (if r.Ok? then Pairing else Disconnected) && c'.pairingActive == r.Ok?
            && c'.socket == (c.socket || !outcome.SocketRefused?) && c'.autoReconnect == r.Err?
            && c'.currentPairingCode == (if r.Ok? then outcome.code else c.currentPairingCode)
            && c'.currentQR == c.currentQR && c'.qrContext == c.qrContext && c'.handlers == c.handlers + 1)
  {
  }

  /** A client that believes itself disconnected keeps whatever it shows; any other is taken down. */
  lemma DisconnectOutcome(c: ClientView)
    ensures
      var c' := c.Disconnect();
      && (c.state.Disconnected? ==> c' == c)
      && (!c.state.Disconnected? ==>
            && c'.state.Disconnected? && !c'.pairingActive && c'.currentQR == "" && c'.currentPairingCode == ""
            && !c'.qrContext && !c'.socket && c'.handlers == c.handlers && c'.autoReconnect == c.autoReconnect)
      && NewClient() == c'.(state := Disconnected, pairingActive := false, currentQR := "", currentPairingCode := "",
                            qrContext := false, socket := false, handlers := 0, autoReconnect := true)
  {
  }

  // ---------- Hooks ----------

  function SignalOf(ev: WAEvent): Option<Backoffs.Signal> {
    match ev
    case EvConnected(_) => Some(Backoffs.Restored)
    case EvKeepAliveRestored => Some(Backoffs.Restored)
    case EvDisconnected => Some(Backoffs.Lost)
    case _ => None
  }

  function AttemptsOnEvent(cfg: Backoffs.Config, attempts: nat, ev: WAEvent): nat {
    match SignalOf(ev)
    case None => attempts
    case Some(Restored) => 0
    case Some(Lost) => Backoffs.AfterFailure(cfg, attempts)
  }

  function PresenceOnEvent(p: Presences.Presence, ev: WAEvent, now: int): Presences.Presence {
    match ev
    case EvConnected(_) => p.OnConnect(now)
    case EvPairSuccess(_) => p.OnConnect(now)
    case EvDisconnected => p.OnDisconnect()
    case EvLoggedOut => p.OnDisconnect()
    case _ => p
  }

  predicate Loses(ev: WAEvent) {
    ev.EvDisconnected? || ev.EvLoggedOut?
  }

  predicate GoesOnline(ev: WAEvent) {
    ev.EvConnected? || ev.EvPairSuccess?
  }

  /** What an event does to presence `p`, and what it leaves alone. */
  ghost predicate PresenceFollows(p: Presences.Presence, ev: WAEvent, now: int, p': Presences.Presence) {
    && p'.cfg == p.cfg && p'.stopped == p.stopped
    && (p.cfg.enabled && Loses(ev) ==> !p'.isAvailable && p'.timer.NoTimer?)
    && (p.cfg.enabled && !p.stopped && GoesOnline(ev) ==>
          && (p'.isAvailable <==> p.isAvailable || p.cfg.sendOnConnect)
          && p'.timer == if 0 < p.cfg.idleTimeout then Presences.Armed(now + p.cfg.idleTimeout) else p.timer)
    && (!p.cfg.enabled || (p.stopped && GoesOnline(ev)) || !(Loses(ev) || GoesOnline(ev)) ==> p' == p)
  }

  lemma PresenceOnEventFollows(p: Presences.Presence, ev: WAEvent, now: int)
    ensures PresenceFollows(p, ev, now, PresenceOnEvent(p, ev, now))
  {
  }

  function PresenceOnEvents(p: Presences.Presence, evs: seq<(WAEvent, int)>): Presences.Presence
    decreases |evs|
  {
    if evs == [] then p
    else PresenceOnEvent(PresenceOnEvents(p, evs[..|evs| - 1]), evs[|evs| - 1].0, evs[|evs| - 1].1)
  }

  /** The device was connected or paired after the last loss. */
  function OnlineSinceLoss(evs: seq<(WAEvent, int)>): bool
    decreases |evs|
  {
    if evs == [] then false else
      match evs[|evs| - 1].0
      case EvConnected(_) => true
      case EvPairSuccess(_) => true
      case EvDisconnected => false
      case EvLoggedOut => false
      case _ => OnlineSinceLoss(evs[..|evs| - 1])
  }

  /** The presence that the handlers alone give a session follows its connection. */
  lemma {:induction false} PresenceFollowsConnection(cfg: Presences.Config, evs: seq<(WAEvent, int)>)
    ensures
      var p := PresenceOnEvents(Presences.NewPresence(cfg), evs);
      && p.cfg == cfg && !p.stopped
      && (p.isAvailable <==> cfg.enabled && cfg.sendOnConnect && OnlineSinceLoss(evs))
      && (p.timer.Armed? <==> cfg.enabled && 0 < cfg.idleTimeout && OnlineSinceLoss(evs))
    decreases |evs|
  {
    if evs != [] {
      PresenceFollowsConnection(cfg, evs[..|evs| - 1]);
    }
  }

  function AttemptsOnEvents(cfg: Backoffs.Config, evs: seq<WAEvent>): nat
    decreases |evs|
  {
    if evs == [] then 0 else AttemptsOnEvent(cfg, AttemptsOnEvents(cfg, evs[..|evs| - 1]), evs[|evs| - 1])
  }

  /** Disconnections handled after the last event that shows a healthy connection. */
  function DisconnectsSinceHealthy(evs: seq<WAEvent>): nat
    decreases |evs|
  {
    if evs == [] then 0 else
      match evs[|evs| - 1]
      case EvConnected(_) => 0
      case EvKeepAliveRestored => 0
      case EvDisconnected => 1 + DisconnectsSinceHealthy(evs[..|evs| - 1])
      case _ => DisconnectsSinceHealthy(evs[..|evs| - 1])
  }

  /** The attempt counter that the handlers drive is the number of disconnections since the
      connection was last healthy, saturating at the attempt limit when there is one. */
  lemma {:induction false} AttemptsCountDisconnects(cfg: Backoffs.Config, evs: seq<WAEvent>)
    ensures AttemptsOnEvents(cfg, evs) ==
            if 0 < cfg.maxAttempts < DisconnectsSinceHealthy(evs) then cfg.maxAttempts
            else DisconnectsSinceHealthy(evs)
    decreases |evs|
  {
    if evs != [] {
      AttemptsCountDisconnects(cfg, evs[..|evs| - 1]);
    }
  }

  // ---------- Several registrations ----------

  /** The events that `h` registered handlers push for one library event. */
  function PushedTimes(ev: WAEvent, h: nat): seq<Event> {
    if h == 0 then [] else PushedTimes(ev, h - 1) + Pushed(ev)
  }

  function AttemptsOnEventTimes(cfg: Backoffs.Config, attempts: nat, ev: WAEvent, h: nat): nat {
    if h == 0 then attempts else AttemptsOnEvent(cfg, AttemptsOnEventTimes(cfg, attempts, ev, h - 1), ev)
  }

  /** The same, where there may be no tracker. */
  function TrackedTimes(cfg: Option<Backoffs.Config>, attempts: nat, ev: WAEvent, h: nat): nat {
    if cfg.None? then attempts else AttemptsOnEventTimes(cfg.value, attempts, ev, h)
  }

  function Sleep(cfg: Option<Backoffs.Config>, attempts: nat, ev: WAEvent, u: real): nat {
    if cfg.None? || !ev.EvDisconnected? then 0 else Backoffs.SleptAt(cfg.value, attempts, u)
  }

  /** The backoff that they sleep off, one after the other. */
  function SleptTimes(cfg: Option<Backoffs.Config>, attempts: nat, ev: WAEvent, draws: seq<real>, h: nat): nat
    requires h <= |draws|
  {
    if h == 0 then 0
    else SleptTimes(cfg, attempts, ev, draws, h - 1)
         + Sleep(cfg, TrackedTimes(cfg, attempts, ev, h - 1), ev, draws[h - 1])
  }

  /** What any positive number of handlers makes of the presence, where there is one. */
  function PresenceTimes(p: Option<Presences.Presence>, ev: WAEvent, now: int, h: nat): Option<Presences.Presence> {
    if p.None? || h == 0 then p else Some(PresenceOnEvent(p.value, ev, now))
  }

  /** What `i` handlers did to the clock, each with a timer of its own. */
  ghost predicate PassedTimes(slept: nat, start: int, now: int, i: nat, slack: nat) {
    start + slept <= now <= start + slept + i * slack
  }

  lemma NoneYet(c: ClientView, q: Queue, ev: WAEvent, draws: seq<real>, start: int, slack: nat)
    requires 0 < q.maxSize
    ensures c.HandleTimes(ev, 0) == c && q.PushAll(PushedTimes(ev, 0)) == q
    ensures forall cfg, attempts :: TrackedTimes(cfg, attempts, ev, 0) == attempts
    ensures forall p :: PresenceTimes(p, ev, start, 0) == p
    ensures forall cfg, attempts :: PassedTimes(SleptTimes(cfg, attempts, ev, draws, 0), start, start, 0, slack)
  {
    PushAllNone(q);
  }

  lemma OneMoreHandler(c: ClientView, q: Queue, ev: WAEvent, i: nat)
    requires 0 < q.maxSize
    ensures c.HandleTimes(ev, i).Handle(ev) == c.HandleTimes(ev, i + 1)
    ensures c.HandleTimes(ev, i + 1).handlers == c.HandleTimes(ev, i).handlers
    ensures q.PushAll(PushedTimes(ev, i)).PushAll(Pushed(ev)) == q.PushAll(PushedTimes(ev, i + 1))
  {
    hide ClientView.Handle, Pushed, AttemptsOnEvent;
    HandleKeepsHandlers(c.HandleTimes(ev, i), ev);
    PushAllConcat(q, PushedTimes(ev, i), Pushed(ev));
  }

  lemma OneMoreHook(cfg: Option<Backoffs.Config>, attempts: nat, p: Option<Presences.Presence>, ev: WAEvent, i: nat,
                    start: int, now: int)
    requires ev.EvDisconnected? || now == start
    ensures TrackedTimes(cfg, TrackedTimes(cfg, attempts, ev, i), ev, 1) == TrackedTimes(cfg, attempts, ev, i + 1)
    ensures PresenceTimes(PresenceTimes(p, ev, start, i), ev, now, 1) == PresenceTimes(p, ev, start, i + 1)
  {
    if p.Some? {
      PresenceOnEventTwice(p.value, ev, start, now);
    }
    hide AttemptsOnEvent, PresenceOnEvent;
    if cfg.Some? {
      OnceIsOnEvent(cfg.value, AttemptsOnEventTimes(cfg.value, attempts, ev, i), ev);
    }
  }

  lemma OnceIsOnEvent(cfg: Backoffs.Config, attempts: nat, ev: WAEvent)
    ensures AttemptsOnEventTimes(cfg, attempts, ev, 1) == AttemptsOnEvent(cfg, attempts, ev)
  {
    assert AttemptsOnEventTimes(cfg, attempts, ev, 0) == attempts;
  }

  lemma OneMoreSleep(cfg: Option<Backoffs.Config>, attempts: nat, ev: WAEvent, draws: seq<real>, i: nat,
                     start: int, before: int, now: int, slack: nat)
    requires i < |draws| && PassedTimes(SleptTimes(cfg, attempts, ev, draws, i), start, before, i, slack)
    requires SleepsOff(Sleep(cfg, TrackedTimes(cfg, attempts, ev, i), ev, draws[i]), before, now, slack)
    ensures PassedTimes(SleptTimes(cfg, attempts, ev, draws, i + 1), start, now, i + 1, slack)
    ensures ev.EvDisconnected? || now == before
  {
    hide Backoffs.SleptAt, TrackedTimes;
    assert (i + 1) * slack == i * slack + slack;
  }

  /** A second handler finds presence where the first left it: only disconnections take time, and
      they do not look at the clock. */
  lemma PresenceOnEventTwice(p: Presences.Presence, ev: WAEvent, now: int, later: int)
    requires !ev.EvDisconnected? ==> later == now
    ensures PresenceOnEvent(PresenceOnEvent(p, ev, now), ev, later) == PresenceOnEvent(p, ev, now)
    ensures PresenceOnEvent(p, ev, later) == PresenceOnEvent(p, ev, now)
  {
  }

  lemma HandleKeepsHandlers(c: ClientView, ev: WAEvent)
    ensures c.Handle(ev).handlers == c.handlers
  {
  }

  /** With h registered handlers one message is pushed h times, ... */
  lemma {:induction false} MessagesMultiply(message: string, h: nat)
    ensures PushedTimes(EvMessage(message), h) == seq(h, _ => MessageReceived(message))
  {
    if h != 0 {
      MessagesMultiply(message, h - 1);
    }
  }

  /** ... one disconnection costs h attempts, saturating at the attempt limit, ... */
  lemma {:induction false} AttemptsMultiply(cfg: Backoffs.Config, attempts: nat, h: nat)
    ensures AttemptsOnEventTimes(cfg, attempts, EvDisconnected, h) ==
            if 0 < cfg.maxAttempts < attempts + h then (if cfg.maxAttempts < attempts then attempts else cfg.maxAttempts)
            else attempts + h
  {
    if h != 0 {
      AttemptsMultiply(cfg, attempts, h - 1);
    }
  }

  /** ... but the state comes out as if there were one. */
  lemma {:induction false} StateDoesNotMultiply(c: ClientView, ev: WAEvent, h: nat)
    requires 0 < h
    ensures c.HandleTimes(ev, h) == c.Handle(ev)
  {
    if h != 1 {
      StateDoesNotMultiply(c, ev, h - 1);
    } else {
      assert c.HandleTimes(ev, 0) == c;
    }
  }

  // ---------- The classes ----------

  /** The stored device: linked to an account or not. */
  class Storage {
    var paired: bool

    constructor (paired: bool)
      ensures this.paired == paired
    {
      this.paired := paired;
    }
  }

  /** Time passes by exactly the backoff, and the lateness of its timer. */
  ghost predicate SleepsOff(delay: nat, before: int, after: int, slack: nat) {
    before + delay <= after <= before + delay + if delay == 0 then 0 else slack
  }

  lemma PushAllNone(q: Queue)
    requires 0 < q.maxSize
    ensures q.PushAll([]) == q
  {
  }

  lemma {:induction false} PushAllConcat(q: Queue, a: seq<Event>, b: seq<Event>)
    requires 0 < q.maxSize
    ensures q.PushAll(a).PushAll(b) == q.PushAll(a + b)
    decreases |b|
  {
    if b == [] {
      assert a + b == a;
    } else {
      PushAllConcat(q, a, b[..|b| - 1]);
      assert (a + b)[..|a + b| - 1] == a + b[..|b| - 1];
    }
  }

  class Client {
    var state: ClientState
    var pairingActive: bool
    var currentQR: string
    var currentPairingCode: string
    var qrContext: bool
    var socket: bool
    var handlers: nat
    var autoReconnect: bool
    const storage: Storage
    const queue: EventQueue
    const backoff: Backoffs.Backoff?
    const presence: Presences.PresenceManager?

    ghost function View(): ClientView
      reads this
    {
      ClientView(state, pairingActive, currentQR, currentPairingCode, qrContext, socket, handlers, autoReconnect)
    }

    constructor (storage: Storage, queue: EventQueue, backoff: Backoffs.Backoff?, presence: Presences.PresenceManager?)
      ensures View() == NewClient()
      ensures this.storage == storage && this.queue == queue && this.backoff == backoff && this.presence == presence
    {
      state, pairingActive, currentQR, currentPairingCode := Disconnected, false, "", "";
      qrContext, socket, handlers, autoReconnect := false, false, 0, true;
      this.storage, this.queue, this.backoff, this.presence := storage, queue, backoff, presence;
    }

    /** `connects` is the library's answer to a connection attempt. */
    method Connect(connects: bool) returns (r: Result<()>)
      modifies this
      ensures (View(), r) == old(View()).Connect(storage.paired, connects)
    {
      if state == Connected || state == Connecting || state == Pairing {
        return Ok(());
      }
      state := Connecting;
      handlers := handlers + 1;
      if storage.paired {
        if !connects {
          state := Disconnected;
          return Err(ConnectionFailed);
        }
        socket := true;
        return Ok(());
      }
      state := Disconnected;
      return Err(NotPaired);
    }

    method StartPairing(qrChannel: bool, connects: bool) returns (r: Result<()>)
      modifies this
      ensures (View(), r) == old(View()).StartPairing(storage.paired, qrChannel, connects)
    {
      if state == Pairing {
        return Ok(());
      }
      if state == Connected {
        return Err(AlreadyRunning);
      }
      if storage.paired {
        return Err(AlreadyRunning);
      }
      state := Pairing;
      pairingActive := true;
      handlers := handlers + 1;
      qrContext := true;
      if !qrChannel {
        state := Disconnected;
        pairingActive := false;
        return Err(ConnectionFailed);
      }
      if !connects {
        state := Disconnected;
        pairingActive := false;
        return Err(ConnectionFailed);
      }
      socket := true;
      return Ok(());
    }

    method StartPhonePairing(phone: string, outcome: PhoneOutcome) returns (r: Result<string>)
      requires queue.Valid()
      modifies this, queue, queue.data
      ensures queue.Valid() && (queue.data == old(queue.data) || fresh(queue.data))
      ensures (View(), r) == old(View()).StartPhonePairing(storage.paired, outcome)
      ensures queue.View() ==
              if r.Ok? then old(queue.View()).Push(PairingCode(r.value, phone)) else old(queue.View())
    {
      hide Queue.Push, EventQueue.View;
      if state == Pairing {
        return Err(AlreadyRunning);
      }
      if state == Connected {
        return Err(AlreadyRunning);
      }
      if storage.paired {
        return Err(AlreadyRunning);
      }
      state := Pairing;
      pairingActive := true;
      autoReconnect := false;
      handlers := handlers + 1;
      if outcome.SocketRefused? {
        autoReconnect := true;
        state := Disconnected;
        pairingActive := false;
        return Err(ConnectionFailed);
      }
      socket := true;
      if outcome.NeverReady? {
        autoReconnect := true;
        state := Disconnected;
        pairingActive := false;
        return Err(ConnectionTimeout);
      }
      if outcome.CodeRefused? {
        autoReconnect := true;
        state := Disconnected;
        pairingActive := false;
        return Err(PairingCodeFailed);
      }
      currentPairingCode := outcome.code;
      queue.Push(PairingCode(outcome.code, phone));
      return Ok(outcome.code);
    }

    method Disconnect()
      modifies this
      ensures View() == old(View()).Disconnect()
    {
      if state == Disconnected {
        return;
      }
      qrContext := false;
      currentQR := "";
      currentPairingCode := "";
      socket := false;
      state := Disconnected;
      pairingActive := false;
    }

    /** Pushes one or two events; the tail of every handler. */
    method PushAll(es: seq<Event>)
      requires queue.Valid()
      modifies queue, queue.data
      ensures queue.Valid() && (queue.data == old(queue.data) || fresh(queue.data))
      ensures queue.View() == old(queue.View()).PushAll(es)
    {
      hide EventQueue.View, Queue.Push;
      ghost var q := queue.View();
      for i := 0 to |es|
        invariant queue.Valid() && (queue.data == old(queue.data) || fresh(queue.data))
        invariant queue.View() == q.PushAll(es[..i])
      {
        assert es[..i + 1][..i] == es[..i];
        queue.Push(es[i]);
      }
      assert es[..|es|] == es;
    }

    method OnConnected(jid: Option<string>, now: int)
      requires queue.Valid()
      modifies this, queue, queue.data, backoff, presence
      ensures queue.Valid() && (queue.data == old(queue.data) || fresh(queue.data))
      ensures View() == old(View()).Handle(EvConnected(jid))
      ensures queue.View() == old(queue.View()).PushAll(Pushed(EvConnected(jid)))
      ensures backoff != null ==>
                backoff.attempts == AttemptsOnEvent(backoff.cfg, old(backoff.attempts), EvConnected(jid))
      ensures presence != null ==>
                presence.View() == PresenceOnEvent(old(presence.View()), EvConnected(jid), now)
    {
      hide Queue.PushAll, EventQueue.View, Presences.Presence.OnConnect;
      state := Connected;
      if jid.Some? {
        PushAll([ConnectionOpen, LoggedIn(jid.value, false)]);
      } else {
        PushAll([ConnectionOpen]);
      }
      if backoff != null {
        backoff.Reset();
      }
      if presence != null {
        presence.OnConnect(now);
      }
    }

    /** The backoff is slept off inside the handler, so the library delivers nothing else meanwhile. */
    method OnDisconnected(clock: Clock, u: real, slack: nat)
      requires queue.Valid() && Draw(u)
      modifies this, queue, queue.data, backoff, presence, clock
      ensures queue.Valid() && (queue.data == old(queue.data) || fresh(queue.data))
      ensures View() == old(View()).Handle(EvDisconnected)
      ensures queue.View() == old(queue.View()).PushAll(Pushed(EvDisconnected))
      ensures backoff != null ==>
                backoff.attempts == AttemptsOnEvent(backoff.cfg, old(backoff.attempts), EvDisconnected)
      ensures presence != null ==>
                presence.View() == PresenceOnEvent(old(presence.View()), EvDisconnected, old(clock.now))
      ensures SleepsOff(if backoff == null then 0 else Backoffs.SleptAt(backoff.cfg, old(backoff.attempts), u),
                        old(clock.now), clock.now, slack)
    {
      hide Queue.PushAll, EventQueue.View, Presences.Presence.OnDisconnect, Backoffs.Delay;
      PushAll([ConnectionClosed(ByDisconnection)]);
      if presence != null {
        presence.OnDisconnect();
      }
      if backoff != null {
        var delay, ok := backoff.Next(u);
        if ok && 0 < delay {
          clock.Sleep(delay, slack);
        }
      }
    }

    method OnLoggedOut(now: int)
      requires queue.Valid()
      modifies this, queue, queue.data, backoff, presence
      ensures queue.Valid() && (queue.data == old(queue.data) || fresh(queue.data))
      ensures View() == old(View()).Handle(EvLoggedOut)
      ensures queue.View() == old(queue.View()).PushAll(Pushed(EvLoggedOut))
      ensures backoff != null ==>
                backoff.attempts == AttemptsOnEvent(backoff.cfg, old(backoff.attempts), EvLoggedOut)
      ensures presence != null ==>
                presence.View() == PresenceOnEvent(old(presence.View()), EvLoggedOut, now)
    {
      hide Queue.PushAll, EventQueue.View, Presences.Presence.OnDisconnect;
      state := Disconnected;
      currentQR := "";
      if presence != null {
        presence.OnDisconnect();
      }
      PushAll([LoggedOut, ConnectionClosed(ByLogout)]);
    }

    method OnPairSuccess(jid: string, now: int)
      requires queue.Valid()
      modifies this, queue, queue.data, backoff, presence
      ensures queue.Valid() && (queue.data == old(queue.data) || fresh(queue.data))
      ensures View() == old(View()).Handle(EvPairSuccess(jid))
      ensures queue.View() == old(queue.View()).PushAll(Pushed(EvPairSuccess(jid)))
      ensures backoff != null ==>
                backoff.attempts == AttemptsOnEvent(backoff.cfg, old(backoff.attempts), EvPairSuccess(jid))
      ensures presence != null ==>
                presence.View() == PresenceOnEvent(old(presence.View()), EvPairSuccess(jid), now)
    {
      hide Queue.PushAll, EventQueue.View, Presences.Presence.OnConnect;
      autoReconnect := true;
      state := Connected;
      pairingActive := false;
      currentQR := "";
      currentPairingCode := "";
      PushAll([PairingSuccess(jid), LoggedIn(jid, true)]);
      if presence != null {
        presence.OnConnect(now);
      }
    }

    method OnKeepAliveRestored(now: int)
      requires queue.Valid()
      modifies this, queue, queue.data, backoff, presence
      ensures queue.Valid() && (queue.data == old(queue.data) || fresh(queue.data))
      ensures View() == old(View()).Handle(EvKeepAliveRestored)
      ensures queue.View() == old(queue.View()).PushAll(Pushed(EvKeepAliveRestored))
      ensures backoff != null ==>
                backoff.attempts == AttemptsOnEvent(backoff.cfg, old(backoff.attempts), EvKeepAliveRestored)
      ensures presence != null ==>
                presence.View() == PresenceOnEvent(old(presence.View()), EvKeepAliveRestored, now)
    {
      hide Queue.PushAll, EventQueue.View;
      state := Connected;
      PushAll([ConnectionOpen]);
      if backoff != null {
        backoff.Reset();
      }
    }

    /** The events that touch neither hook. */
    method OnPlainEvent(ev: WAEvent, now: int)
      requires queue.Valid()
      requires !(ev.EvConnected? || ev.EvDisconnected? || ev.EvLoggedOut? ||
                 ev.EvPairSuccess? || ev.EvKeepAliveRestored?)
      modifies this, queue, queue.data
      ensures queue.Valid() && (queue.data == old(queue.data) || fresh(queue.data))
      ensures View() == old(View()).Handle(ev)
      ensures queue.View() == old(queue.View()).PushAll(Pushed(ev))
      ensures backoff != null ==>
                backoff.attempts == AttemptsOnEvent(backoff.cfg, old(backoff.attempts), ev)
      ensures presence != null ==>
                presence.View() == PresenceOnEvent(old(presence.View()), ev, now)
    {
      hide Queue.PushAll, EventQueue.View;
      match ev
      case EvStreamReplaced =>
        state := Disconnected;
        PushAll([ConnectionClosed(ByStreamReplacement)]);
      case EvMessage(m) =>
        PushAll([MessageReceived(m)]);
      case EvHistorySync =>
        PushAll([HistorySync]);
      case EvPairError(why) =>
        state := Disconnected;
        pairingActive := false;
        currentPairingCode := "";
        PushAll([PairingFailed(why)]);
      case EvKeepAliveTimeout =>
        state := Reconnecting;
        PushAll([ConnectionReconnecting]);
      case EvOther =>
        PushAll([]);
    }

    /** One library event, seen by one of the registered handlers; `u` is the draw of a backoff
        delay. */
    method HandleEvent(ev: WAEvent, clock: Clock, u: real, slack: nat)
      requires queue.Valid() && Draw(u)
      modifies this, queue, queue.data, backoff, presence, clock
      ensures queue.Valid() && (queue.data == old(queue.data) || fresh(queue.data))
      ensures View() == old(View()).Handle(ev)
      ensures queue.View() == old(queue.View()).PushAll(Pushed(ev))
      ensures backoff != null ==>
                backoff.attempts == AttemptsOnEvent(backoff.cfg, old(backoff.attempts), ev)
      ensures presence != null ==>
                presence.View() == PresenceOnEvent(old(presence.View()), ev, old(clock.now))
      ensures presence != null ==>
                PresenceFollows(old(presence.View()), ev, old(clock.now), presence.View())
      ensures SleepsOff(if backoff == null || !ev.EvDisconnected? then 0
                        else Backoffs.SleptAt(backoff.cfg, old(backoff.attempts), u),
                        old(clock.now), clock.now, slack)
    {
      if presence != null {
        PresenceOnEventFollows(presence.View(), ev, clock.now);
      }
      hide Queue.PushAll, EventQueue.View, AttemptsOnEvent, Backoffs.SleptAt, PresenceFollows, PresenceOnEvent;
      match ev
      case EvConnected(jid) => OnConnected(jid, clock.now);
      case EvDisconnected => OnDisconnected(clock, u, slack);
      case EvLoggedOut => OnLoggedOut(clock.now);
      case EvPairSuccess(jid) => OnPairSuccess(jid, clock.now);
      case EvKeepAliveRestored => OnKeepAliveRestored(clock.now);
      case _ => OnPlainEvent(ev, clock.now);
    }

    ghost function BackoffCfg(): Option<Backoffs.Config> {
      if backoff == null then None else Some(backoff.cfg)
    }

    ghost function Attempts(): nat
      reads backoff
    {
      if backoff == null then 0 else backoff.attempts
    }

    ghost function Online(): Option<Presences.Presence>
      reads presence
    {
      if presence == null then None else Some(presence.View())
    }

    /** One of the registered handlers, in terms of the hooks as values. */
    method HandleOnce(ev: WAEvent, clock: Clock, u: real, slack: nat)
      requires queue.Valid() && Draw(u)
      modifies this, queue, queue.data, backoff, presence, clock
      ensures queue.Valid() && (queue.data == old(queue.data) || fresh(queue.data))
      ensures View() == old(View()).Handle(ev)
      ensures queue.View() == old(queue.View()).PushAll(Pushed(ev))
      ensures Attempts() == TrackedTimes(BackoffCfg(), old(Attempts()), ev, 1)
      ensures Online() == PresenceTimes(old(Online()), ev, old(clock.now), 1)
      ensures SleepsOff(Sleep(BackoffCfg(), old(Attempts()), ev, u), old(clock.now), clock.now, slack)
    {
      if backoff != null {
        OnceIsOnEvent(backoff.cfg, backoff.attempts, ev);
      }
      hide Queue.PushAll, EventQueue.View, ClientView.Handle, Pushed, AttemptsOnEvent, AttemptsOnEventTimes;
      hide PresenceOnEvent, SleepsOff, Backoffs.SleptAt;
      HandleEvent(ev, clock, u, slack);
    }

    /** The library calls every registered handler with the event, one after the other. */
    method Dispatch(ev: WAEvent, clock: Clock, draws: seq<real>, slack: nat)
      requires queue.Valid() && |draws| == handlers && forall i :: 0 <= i < |draws| ==> Draw(draws[i])
      modifies this, queue, queue.data, backoff, presence, clock
      ensures queue.Valid() && (queue.data == old(queue.data) || fresh(queue.data))
      ensures View() == old(View()).HandleTimes(ev, |draws|)
      ensures queue.View() == old(queue.View()).PushAll(PushedTimes(ev, |draws|))
      ensures Attempts() == TrackedTimes(BackoffCfg(), old(Attempts()), ev, |draws|)
      ensures Online() == PresenceTimes(old(Online()), ev, old(clock.now), |draws|)
      ensures PassedTimes(SleptTimes(BackoffCfg(), old(Attempts()), ev, draws, |draws|),
                          old(clock.now), clock.now, |draws|, slack)
    {
      ghost var c, q, start, cfg, a, p := View(), queue.View(), clock.now, BackoffCfg(), Attempts(), Online();
      NoneYet(c, q, ev, draws, start, slack);
      hide *;
      for i := 0 to handlers
        invariant queue.Valid() && (queue.data == old(queue.data) || fresh(queue.data))
        invariant handlers == |draws| && View() == c.HandleTimes(ev, i)
        invariant queue.View() == q.PushAll(PushedTimes(ev, i))
        invariant Attempts() == TrackedTimes(cfg, a, ev, i) && Online() == PresenceTimes(p, ev, start, i)
        invariant ev.EvDisconnected? || clock.now == start
        invariant PassedTimes(SleptTimes(cfg, a, ev, draws, i), start, clock.now, i, slack)
      {
        ghost var before := clock.now;
        OneMoreHandler(c, q, ev, i);
        OneMoreHook(cfg, a, p, ev, i, start, before);
        HandleOnce(ev, clock, draws[i], slack);
        OneMoreSleep(cfg, a, ev, draws, i, start, before, clock.now, slack);
      }
    }

    method HandleQRItem(item: QRItem)
      requires queue.Valid()
      modifies this, queue, queue.data
      ensures queue.Valid() && (queue.data == old(queue.data) || fresh(queue.data))
      ensures View() == old(View()).HandleQR(item)
      ensures queue.View() == old(queue.View()).PushAll(QRPushed(item))
    {
      hide Queue.PushAll, EventQueue.View;
      match item
      case QRCode(qr) =>
        currentQR := qr;
        PushAll([QRUpdated(qr)]);
      case QRSuccess =>
        currentQR := "";
        PushAll([]);
      case QRTimeout =>
        currentQR := "";
        currentPairingCode := "";
        PushAll([QRExpired, PairingFailed(QR_EXPIRED)]);
        state := Disconnected;
      case QRError =>
        currentQR := "";
        currentPairingCode := "";
        PushAll([PairingFailed(QR_ERROR)]);
        state := Disconnected;
      case QROther =>
        PushAll([]);
    }

    /** Drains a QR channel that delivers `items` and is then closed. */
    method HandleQRChannel(items: seq<QRItem>)
      requires queue.Valid()
      modifies this, queue, queue.data
      ensures queue.Valid()
      ensures View() == old(View()).HandleQRs(items).QRChannelClosed()
      ensures queue.View() == old(queue.View()).PushAll(QRsPushed(items))
    {
      hide EventQueue.View, ClientView.HandleQR, QRPushed;
      ghost var c, q := View(), queue.View();
      for i := 0 to |items|
        invariant queue.Valid() && (queue.data == old(queue.data) || fresh(queue.data))
        invariant View() == c.HandleQRs(items[..i])
        invariant queue.View() == q.PushAll(QRsPushed(items[..i]))
      {
        assert items[..i + 1][..i] == items[..i];
        PushAllConcat(q, QRsPushed(items[..i]), QRPushed(items[i]));
        HandleQRItem(items[i]);
      }
      assert items[..|items|] == items;
      pairingActive := false;
      currentQR := "";
    }
  }
}

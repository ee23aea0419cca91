/** What the answers of a consumer's polls tell about the client's state when events were lost:
    exactly the states that a small automaton over the answers computes. */
module Knowledge {
  import opened States
  import opened Events
  import opened EventQueues
  import opened Clients
  import opened Engines
  import opened Recovery
  import opened Timing

  // ---------- What the answers say about the push history ----------

  /** One position of the push history, as the consumer sees it. */
  datatype Slot = Known(event: Event) | Unknown | OfType(tag: EventType)

  predicate Fits(e: Event, slot: Slot) {
    match slot
    case Known(k) => e == k
    case Unknown => true
    case OfType(t) => TypeOf(e) == t
  }

  ghost predicate Matches(w: seq<Event>, slots: seq<Slot>) {
    |w| == |slots| && forall i :: 0 <= i < |w| ==> Fits(w[i], slots[i])
  }

  /** The type named by the last report, or by none yet. */
  function LastType(q: Queue, seen: seq<Polled>): EventType
    decreases |seen|
  {
    if seen == [] then q.lastDropType else
      var last := seen[|seen| - 1];
      if last.DropReport? then last.oldestType else LastType(q, seen[..|seen| - 1])
  }

  /** Whether the type in answer `p` can be relied on.  If the queue may have been cleared, it can
      when it is new and the hole is no larger than the queue. */
  predicate Reliable(q: Queue, clears: bool, before: seq<Polled>, p: Polled) {
    p.DropReport? && (!clears || (p.count <= q.maxSize && p.oldestType != LastType(q, before)))
  }

  function SlotsOf(q: Queue, clears: bool, before: seq<Polled>, p: Polled): seq<Slot> {
    match p
    case Nothing => []
    case Delivered(e) => [Known(e)]
    case DropReport(n, t) =>
      if n == 0 then [] else
        seq(n - 1, _ => Unknown) + [if Reliable(q, clears, before, p) then OfType(t) else Unknown]
  }

  function Slots(q: Queue, clears: bool, seen: seq<Polled>): seq<Slot>
    decreases |seen|
  {
    if seen == [] then [] else
      var before, last := seen[..|seen| - 1], seen[|seen| - 1];
      Slots(q, clears, before) + SlotsOf(q, clears, before, last)
  }

  lemma {:induction false} SlotsReachCursor(q: Queue, clears: bool, seen: seq<Polled>)
    ensures |Slots(q, clears, seen)| == Cursor(seen)
    decreases |seen|
  {
    if seen != [] {
      SlotsReachCursor(q, clears, seen[..|seen| - 1]);
    }
  }

  /** What answer `p`, after the answers `before`, says about a history `w`. */
  ghost predicate Confirms(q: Queue, clears: bool, w: seq<Event>, before: seq<Polled>, p: Polled) {
    var from := Cursor(before);
    && (p.Delivered? ==> from < |w| && w[from] == p.event)
    && (Reliable(q, clears, before, p) && 0 < p.count ==>
          from + p.count <= |w| && TypeOf(w[from + p.count - 1]) == p.oldestType)
  }

  ghost predicate AllConfirm(q: Queue, clears: bool, w: seq<Event>, seen: seq<Polled>) {
    forall k :: 0 <= k < |seen| ==> Confirms(q, clears, w, seen[..k], seen[k])
  }

  lemma AllConfirmSnoc(q: Queue, clears: bool, w: seq<Event>, seen: seq<Polled>)
    requires seen != []
    ensures AllConfirm(q, clears, w, seen) <==>
            && AllConfirm(q, clears, w, seen[..|seen| - 1])
            && Confirms(q, clears, w, seen[..|seen| - 1], seen[|seen| - 1])
  {
    hide Confirms;
    var before := seen[..|seen| - 1];
    assert forall k :: 0 <= k < |before| ==> before[..k] == seen[..k] && before[k] == seen[k];
    if AllConfirm(q, clears, w, seen) {
      forall k | 0 <= k < |before|
        ensures Confirms(q, clears, w, before[..k], before[k])
      {
        assert Confirms(q, clears, w, seen[..k], seen[k]);
      }
    }
  }

  lemma SlotsSnoc(q: Queue, clears: bool, seen: seq<Polled>)
    requires seen != []
    ensures
      var before, last := seen[..|seen| - 1], seen[|seen| - 1];
      && Slots(q, clears, seen) == Slots(q, clears, before) + SlotsOf(q, clears, before, last)
      && |SlotsOf(q, clears, before, last)| == Advance(last)
      && Cursor(seen) == Cursor(before) + Advance(last)
  {
  }

  lemma MatchesConcat(a: seq<Event>, b: seq<Event>, s: seq<Slot>, t: seq<Slot>)
    requires |a| == |s|
    ensures Matches(a + b, s + t) <==> Matches(a, s) && Matches(b, t)
  {
    hide Fits;
    if Matches(a + b, s + t) {
      forall i | 0 <= i < |a|
        ensures Fits(a[i], s[i])
      {
        assert Fits((a + b)[i], (s + t)[i]);
      }
      forall i | 0 <= i < |b|
        ensures Fits(b[i], t[i])
      {
        assert Fits((a + b)[|a| + i], (s + t)[|a| + i]);
      }
    }
  }

  lemma CutAt<T>(w: seq<T>, from: nat, to: nat)
    requires from <= to <= |w|
    ensures w[..to] == w[..from] + w[from..to]
    ensures to == |w| ==> w == w[..from] + w[from..]
  {
  }

  lemma PartMatchesIff(part: seq<Event>, slots: seq<Slot>, p: Polled, reliable: bool)
    requires |part| == |slots| == Advance(p)
    requires p.Delivered? ==> slots == [Known(p.event)]
    requires p.DropReport? ==>
               forall i :: 0 <= i < p.count ==>
                 slots[i] == if reliable && i == p.count - 1 then OfType(p.oldestType) else Unknown
    ensures Matches(part, slots) <==>
            && (p.Delivered? ==> part[0] == p.event)
            && (p.DropReport? && reliable && 0 < p.count ==> TypeOf(part[|part| - 1]) == p.oldestType)
  {
    hide TypeOf;
    if p.Delivered? {
      assert Matches(part, slots) <==> Fits(part[0], slots[0]);
    } else if p.DropReport? && 0 < p.count {
      assert forall i :: 0 <= i < p.count - 1 ==> Fits(part[i], slots[i]);
      assert Matches(part, slots) <==> Fits(part[p.count - 1], slots[p.count - 1]);
    }
  }

  lemma AnswerMatchesIff(q: Queue, clears: bool, w: seq<Event>, before: seq<Polled>, p: Polled)
    requires Cursor(before) + Advance(p) <= |w|
    ensures Matches(w[Cursor(before)..Cursor(before) + Advance(p)], SlotsOf(q, clears, before, p)) <==>
            Confirms(q, clears, w, before, p)
  {
    hide TypeOf, LastType, Cursor, Matches, Fits;
    var from := Cursor(before);
    var part := w[from..from + Advance(p)];
    PartMatchesIff(part, SlotsOf(q, clears, before, p), p, Reliable(q, clears, before, p));
    assert 0 < |part| ==> part[0] == w[from] && part[|part| - 1] == w[from + |part| - 1];
  }

  lemma MatchesOneMore(q: Queue, clears: bool, w: seq<Event>, before: seq<Polled>, p: Polled, slots: seq<Slot>)
    requires Cursor(before) + Advance(p) <= |w| && |slots| == Cursor(before)
    ensures Matches(w[..Cursor(before) + Advance(p)], slots + SlotsOf(q, clears, before, p)) <==>
            Matches(w[..Cursor(before)], slots) && Confirms(q, clears, w, before, p)
  {
    var from, to := Cursor(before), Cursor(before) + Advance(p);
    CutAt(w, from, to);
    AnswerMatchesIff(q, clears, w, before, p);
    hide *;
    MatchesConcat(w[..from], w[from..to], slots, SlotsOf(q, clears, before, p));
  }

  /** A history fits the slots exactly if it has their length and every answer confirms it. */
  lemma {:induction false} MatchesIff(q: Queue, clears: bool, w: seq<Event>, seen: seq<Polled>)
    requires Cursor(seen) <= |w|
    ensures Matches(w[..Cursor(seen)], Slots(q, clears, seen)) <==> AllConfirm(q, clears, w, seen)
    decreases |seen|
  {
    if seen != [] {
      var before, last := seen[..|seen| - 1], seen[|seen| - 1];
      SlotsSnoc(q, clears, seen);
      AllConfirmSnoc(q, clears, w, seen);
      SlotsReachCursor(q, clears, before);
      hide *;
      MatchesIff(q, clears, w, before);
      MatchesOneMore(q, clears, w, before, last, Slots(q, clears, before));
    }
  }

  // ---------- A run confirms its own answers ----------

  /** What is known of the type that the next report will name. */
  ghost predicate TypeKnown(q: Queue, clears: bool, r: Run) {
    if !clears then PendingRight(r)
    else
      r.q.lastDropType != LastType(q, r.seen) ==>
        r.q.maxSize < r.q.dropCount || (0 < r.q.dropCount && |r.q.events| == r.q.maxSize && PendingRight(r))
  }

  lemma AllConfirmLonger(q: Queue, clears: bool, w: seq<Event>, e: Event, seen: seq<Polled>)
    requires AllConfirm(q, clears, w, seen)
    ensures AllConfirm(q, clears, w + [e], seen)
  {
    hide Reliable, TypeOf, Cursor;
    forall k | 0 <= k < |seen|
      ensures Confirms(q, clears, w + [e], seen[..k], seen[k])
    {
      assert Confirms(q, clears, w, seen[..k], seen[k]);
    }
  }

  lemma PushKeepsTypeKnown(q: Queue, clears: bool, r: Run, e: Event)
    requires Placed(r) && TypeKnown(q, clears, r)
    ensures TypeKnown(q, clears, Step(r, PushOp(e)))
  {
    hide TypeOf, LastType, Holes, Cursor;
    var s := Step(r, PushOp(e));
    assert r.q.Overflows() ==> r.q.events[0] == r.history[|r.history| - |r.q.events|];
  }

  lemma ClearKeepsTypeKnown(q: Queue, r: Run)
    requires Placed(r) && TypeKnown(q, true, r)
    ensures TypeKnown(q, true, Step(r, ClearOp))
  {
    hide TypeOf, LastType, Holes, Cursor;
  }

  lemma PollConfirms(q: Queue, clears: bool, r: Run)
    requires Placed(r) && TypeKnown(q, clears, r) && r.q.maxSize == q.maxSize
    ensures Confirms(q, clears, r.history, r.seen, r.q.Poll().1)
  {
    hide TypeOf, Holes, Cursor, LastType;
    var from := |r.history| - |r.q.events|;
    assert Cursor(r.seen) + r.q.dropCount == from;
    assert r.q.events != [] ==> r.q.events[0] == r.history[from];
  }

  lemma PollKeepsTypeKnown(q: Queue, clears: bool, r: Run)
    requires Placed(r) && TypeKnown(q, clears, r)
    ensures TypeKnown(q, clears, Step(r, PollOp))
  {
    hide TypeOf, Holes, Cursor;
    var s, p := Step(r, PollOp), r.q.Poll().1;
    assert s.seen[..|r.seen|] == r.seen;
    assert LastType(q, s.seen) == if p.DropReport? then p.oldestType else LastType(q, r.seen);
    hide LastType;
  }

  /** The history of a run fits what its answers say: always, with the cautious reading of the types,
      and without clears with the full one. */
  lemma {:induction false} RunConfirms(q: Queue, clears: bool, ops: seq<Op>)
    requires Drained(q) && (!clears ==> ClearOp !in ops)
    ensures
      var r := Exec(q, ops);
      TypeKnown(q, clears, r) && AllConfirm(q, clears, r.history, r.seen)
    decreases |ops|
  {
    if ops != [] {
      var before, op := ops[..|ops| - 1], ops[|ops| - 1];
      var r := Exec(q, before);
      assert op in ops;
      RunConfirms(q, clears, before);
      ExactGapReconstruction(q, before);
      hide TypeKnown, AllConfirm, Confirms, Placed, Queue.Push, Queue.Poll, Queue.Clear, Interval;
      match op
      case PushOp(e) =>
        PushKeepsTypeKnown(q, clears, r, e);
        AllConfirmLonger(q, clears, r.history, e, r.seen);
      case PollOp =>
        PollConfirms(q, clears, r);
        PollKeepsTypeKnown(q, clears, r);
        assert (r.seen + [r.q.Poll().1])[..|r.seen|] == r.seen;
        AllConfirmSnoc(q, clears, r.history, r.seen + [r.q.Poll().1]);
      case ClearOp => ClearKeepsTypeKnown(q, r);
    }
  }

  // ---------- How histories are put together ----------

  /** The events that are pushed by themselves, with the library's socket open or not, ... */
  predicate Alone(open: bool, e: Event) {
    match e
    case ConnectionOpen => open
    case ConnectionReconnecting => open
    case ConnectionClosed(reason) => open && !reason.ByLogout?
    case PairingFailed(why) => open || why == QR_ERROR
    case MessageReceived(_) => open
    case MessageSent(_) => true
    case MessageFailed(_) => true
    case QRUpdated(_) => true
    case HistorySync => open
    case _ => false
  }

  /** ... and those that are pushed together. */
  predicate PairOf(open: bool, a: Event, b: Event) {
    || (open && a.ConnectionOpen? && b.LoggedIn? && !b.isNewUser)
    || (open && a.LoggedOut? && b == ConnectionClosed(ByLogout))
    || (open && a.PairingSuccess? && b == LoggedIn(a.jid, true))
    || (a.QRExpired? && b == PairingFailed(QR_EXPIRED))
  }

  /** `w` consists of such events and pairs; `pairs` are the positions where the pairs begin. */
  ghost predicate Tiled(open: bool, w: seq<Event>, pairs: set<int>) {
    && (forall p :: p in pairs ==> 0 <= p && p + 1 < |w| && PairOf(open, w[p], w[p + 1]) && p + 1 !in pairs)
    && (forall p :: 0 <= p < |w| && p !in pairs && p - 1 !in pairs ==> Alone(open, w[p]))
  }

  /** The states in which an event pushed by itself can leave a client, and a pair. */
  function AloneEffects(open: bool, s: ClientState, slot: Slot): set<ClientState> {
    match slot
    case Known(e) => if Alone(open, e) then {Interpret(s, e)} else {}
    case Unknown => if open then {s, Connected, Reconnecting, Disconnected} else {s, Disconnected}
    case OfType(t) =>
      match t
      case ConnectionOpenType => if open then {Connected} else {}
      case ConnectionReconnectingType => if open then {Reconnecting} else {}
      case PairingFailedType => {Disconnected}
      case ConnectionClosedType => if open then {s, Disconnected} else {}
      case MessageReceivedType => if open then {s} else {}
      case MessageSentType => {s}
      case MessageFailedType => {s}
      case QRUpdatedType => {s}
      case HistorySyncType => if open then {s} else {}
      case _ => {}
  }

  function AfterAlone(open: bool, before: set<ClientState>, slot: Slot): set<ClientState> {
    set s, r | s in before && r in AloneEffects(open, s, slot) :: r
  }

  predicate MayBe(slot: Slot, tag: EventType) {
    match slot
    case Known(e) => TypeOf(e) == tag
    case Unknown => true
    case OfType(t) => t == tag
  }

  function PairEffects(open: bool, a: Slot, b: Slot): set<ClientState> {
    (if open && MayBe(a, ConnectionOpenType) && MayBe(b, LoggedInType) && (b.Known? ==> !b.event.isNewUser)
     then {Connected} else {})
    + (if open && MayBe(a, LoggedOutType) && MayBe(b, ConnectionClosedType) && (b.Known? ==> b.event.reason.ByLogout?)
       then {Disconnected} else {})
    + (if open && MayBe(a, PairingSuccessType) && MayBe(b, LoggedInType)
          && (b.Known? ==> b.event.isNewUser && (a.Known? ==> a.event.jid == b.event.jid))
       then {Connected} else {})
    + (if MayBe(a, QRExpiredType) && MayBe(b, PairingFailedType) && (b.Known? ==> b.event.failure == QR_EXPIRED)
       then {Disconnected} else {})
  }

  /** THE CONSUMER'S KNOWLEDGE: the states in which a client that started in `s` can be after a
      history of which the slots are known. */
  function Possible(open: bool, s: ClientState, slots: seq<Slot>): set<ClientState>
    decreases |slots|
  {
    if slots == [] then {s} else
      var n := |slots|;
      AfterAlone(open, Possible(open, s, slots[..n - 1]), slots[n - 1])
      + (if 2 <= n && Possible(open, s, slots[..n - 2]) != {} then PairEffects(open, slots[n - 2], slots[n - 1]) else {})
  }

  lemma AloneEffect(open: bool, s: ClientState, e: Event, slot: Slot)
    requires Alone(open, e) && Fits(e, slot)
    ensures Interpret(s, e) in AloneEffects(open, s, slot)
  {
  }

  lemma AloneWitness(open: bool, s: ClientState, slot: Slot, r: ClientState) returns (e: Event)
    requires r in AloneEffects(open, s, slot)
    ensures Alone(open, e) && Fits(e, slot) && Interpret(s, e) == r
  {
    match slot
    case Known(k) => e := k;
    case Unknown =>
      e := if r == s then MessageSent("") else if r == Disconnected then PairingFailed(QR_ERROR)
           else if r == Connected then ConnectionOpen else ConnectionReconnecting;
    case OfType(t) =>
      match t
      case ConnectionOpenType => e := ConnectionOpen;
      case ConnectionReconnectingType => e := ConnectionReconnecting;
      case PairingFailedType => e := PairingFailed(QR_ERROR);
      case ConnectionClosedType =>
        e := ConnectionClosed(if r == Disconnected then ByStreamReplacement else ByDisconnection);
      case MessageReceivedType => e := MessageReceived("");
      case MessageSentType => e := MessageSent("");
      case MessageFailedType => e := MessageFailed("");
      case QRUpdatedType => e := QRUpdated("");
      case HistorySyncType => e := HistorySync;
  }

  lemma PairEffect(open: bool, s: ClientState, a: Event, b: Event, x: Slot, y: Slot)
    requires PairOf(open, a, b) && Fits(a, x) && Fits(b, y)
    ensures Interpret(Interpret(s, a), b) in PairEffects(open, x, y)
  {
  }

  lemma ConnectedWitness(open: bool, s: ClientState, x: Slot, y: Slot) returns (a: Event, b: Event)
    requires Connected in PairEffects(open, x, y)
    ensures PairOf(open, a, b) && Fits(a, x) && Fits(b, y) && Interpret(Interpret(s, a), b) == Connected
  {
    if MayBe(x, ConnectionOpenType) && MayBe(y, LoggedInType) && (y.Known? ==> !y.event.isNewUser) {
      a, b := ConnectionOpen, if y.Known? then y.event else LoggedIn("", false);
    } else {
      var jid := if y.Known? then y.event.jid else if x.Known? then x.event.jid else "";
      a, b := PairingSuccess(jid), LoggedIn(jid, true);
    }
  }

  lemma DisconnectedWitness(open: bool, s: ClientState, x: Slot, y: Slot) returns (a: Event, b: Event)
    requires Disconnected in PairEffects(open, x, y)
    ensures PairOf(open, a, b) && Fits(a, x) && Fits(b, y) && Interpret(Interpret(s, a), b) == Disconnected
  {
    if open && MayBe(x, LoggedOutType) && MayBe(y, ConnectionClosedType) && (y.Known? ==> y.event.reason.ByLogout?) {
      a, b := LoggedOut, ConnectionClosed(ByLogout);
    } else {
      a, b := QRExpired, PairingFailed(QR_EXPIRED);
    }
  }

  lemma PairWitness(open: bool, s: ClientState, x: Slot, y: Slot, r: ClientState) returns (a: Event, b: Event)
    requires r in PairEffects(open, x, y)
    ensures PairOf(open, a, b) && Fits(a, x) && Fits(b, y) && Interpret(Interpret(s, a), b) == r
  {
    assert r == Connected || r == Disconnected;
    hide *;
    if r == Connected {
      a, b := ConnectedWitness(open, s, x, y);
    } else {
      a, b := DisconnectedWitness(open, s, x, y);
    }
  }

  lemma PossibleAlone(open: bool, s: ClientState, slots: seq<Slot>, p: ClientState, r: ClientState)
    requires slots != [] && p in Possible(open, s, slots[..|slots| - 1]) && r in AloneEffects(open, p, slots[|slots| - 1])
    ensures r in Possible(open, s, slots)
  {
    hide AloneEffects;
  }

  lemma PossiblePair(open: bool, s: ClientState, slots: seq<Slot>, p: ClientState, r: ClientState)
    requires 2 <= |slots| && p in Possible(open, s, slots[..|slots| - 2])
    requires r in PairEffects(open, slots[|slots| - 2], slots[|slots| - 1])
    ensures r in Possible(open, s, slots)
  {
    hide PairEffects;
  }

  lemma MatchesPrefix(w: seq<Event>, slots: seq<Slot>, k: nat)
    requires Matches(w, slots) && k <= |w|
    ensures Matches(w[..k], slots[..k])
  {
    hide Fits;
    forall i | 0 <= i < k
      ensures Fits(w[..k][i], slots[..k][i])
    {
      assert Fits(w[i], slots[i]);
    }
  }

  function Below(pairs: set<int>, k: int): set<int> {
    set p | p in pairs && p < k
  }

  lemma TiledPrefix(open: bool, w: seq<Event>, pairs: set<int>, k: nat)
    requires Tiled(open, w, pairs) && k <= |w| && k - 1 !in pairs
    ensures Tiled(open, w[..k], Below(pairs, k))
  {
    hide Alone, PairOf;
    forall p | p in Below(pairs, k)
      ensures p + 1 < k
    {
      assert p != k - 1;
    }
  }

  /** Knowledge is sound: a tiled history that matches the slots ends in a possible state. */
  lemma {:induction false} PossibleSound(open: bool, s: ClientState, w: seq<Event>, pairs: set<int>, slots: seq<Slot>)
    requires Tiled(open, w, pairs) && Matches(w, slots)
    ensures Fold(s, w) in Possible(open, s, slots)
    decreases |w|
  {
    if w != [] {
      var n := |w|;
      assert Fits(w[n - 1], slots[n - 1]);
      if n - 2 in pairs {
        assert PairOf(open, w[n - 2], w[n - 2 + 1]) && Fits(w[n - 2], slots[n - 2]);
        assert n - 3 in pairs ==> n - 3 + 1 !in pairs;
        FoldLastTwo(s, w);
        hide *;
        TiledPrefix(open, w, pairs, n - 2);
        MatchesPrefix(w, slots, n - 2);
        PossibleSound(open, s, w[..n - 2], Below(pairs, n - 2), slots[..n - 2]);
        PairEffect(open, Fold(s, w[..n - 2]), w[n - 2], w[n - 1], slots[n - 2], slots[n - 1]);
        PossiblePair(open, s, slots, Fold(s, w[..n - 2]), Fold(s, w));
      } else {
        assert n - 1 !in pairs && Alone(open, w[n - 1]);
        assert Fold(s, w) == Interpret(Fold(s, w[..n - 1]), w[n - 1]);
        hide *;
        TiledPrefix(open, w, pairs, n - 1);
        MatchesPrefix(w, slots, n - 1);
        PossibleSound(open, s, w[..n - 1], Below(pairs, n - 1), slots[..n - 1]);
        AloneEffect(open, Fold(s, w[..n - 1]), w[n - 1], slots[n - 1]);
        PossibleAlone(open, s, slots, Fold(s, w[..n - 1]), Fold(s, w));
      }
    } else {
      assert slots == [];
    }
  }

  lemma FoldLastTwo(s: ClientState, w: seq<Event>)
    requires 2 <= |w|
    ensures Fold(s, w) == Interpret(Interpret(Fold(s, w[..|w| - 2]), w[|w| - 2]), w[|w| - 1])
  {
    hide Interpret;
    var n := |w|;
    assert w[..n - 1][..n - 2] == w[..n - 2] && w[..n - 1][n - 2] == w[n - 2];
    assert Fold(s, w[..n - 1]) == Interpret(Fold(s, w[..n - 2]), w[n - 2]);
  }

  lemma FoldSnoc(s: ClientState, w: seq<Event>, e: Event)
    ensures Fold(s, w + [e]) == Interpret(Fold(s, w), e)
  {
    assert (w + [e])[..|w|] == w;
  }

  lemma TiledAlone(open: bool, w: seq<Event>, pairs: set<int>, e: Event)
    requires Tiled(open, w, pairs) && Alone(open, e)
    ensures Tiled(open, w + [e], pairs)
  {
    hide Alone, PairOf;
  }

  lemma TiledPair(open: bool, w: seq<Event>, pairs: set<int>, a: Event, b: Event)
    requires Tiled(open, w, pairs) && PairOf(open, a, b)
    ensures Tiled(open, w + [a] + [b], pairs + {|w|})
  {
    hide Alone, PairOf;
  }

  lemma MatchesSnoc(w: seq<Event>, slots: seq<Slot>, e: Event)
    requires slots != [] && Matches(w, slots[..|slots| - 1]) && Fits(e, slots[|slots| - 1])
    ensures Matches(w + [e], slots)
  {
    hide Fits;
    forall i | 0 <= i < |slots|
      ensures Fits((w + [e])[i], slots[i])
    {
      assert i < |w| ==> Fits(w[i], slots[..|slots| - 1][i]);
    }
  }

  lemma LastStep(open: bool, s: ClientState, slots: seq<Slot>, r: ClientState) returns (p: ClientState, pair: bool)
    requires slots != [] && r in Possible(open, s, slots)
    ensures if pair then 2 <= |slots| && p in Possible(open, s, slots[..|slots| - 2])
                         && r in PairEffects(open, slots[|slots| - 2], slots[|slots| - 1])
            else p in Possible(open, s, slots[..|slots| - 1]) && r in AloneEffects(open, p, slots[|slots| - 1])
  {
    hide AloneEffects, PairEffects;
    var n := |slots|;
    if r in AfterAlone(open, Possible(open, s, slots[..n - 1]), slots[n - 1]) {
      p, pair :| p in Possible(open, s, slots[..n - 1]) && r in AloneEffects(open, p, slots[n - 1]) && !pair;
    } else {
      p, pair :| p in Possible(open, s, slots[..n - 2]) && pair;
    }
  }

  lemma AppendAlone(open: bool, s: ClientState, w: seq<Event>, pairs: set<int>, slots: seq<Slot>, r: ClientState)
    returns (w': seq<Event>)
    requires slots != [] && Tiled(open, w, pairs) && Matches(w, slots[..|slots| - 1])
    requires r in AloneEffects(open, Fold(s, w), slots[|slots| - 1])
    ensures Tiled(open, w', pairs) && Matches(w', slots) && Fold(s, w') == r
  {
    hide *;
    var e := AloneWitness(open, Fold(s, w), slots[|slots| - 1], r);
    FoldSnoc(s, w, e);
    TiledAlone(open, w, pairs, e);
    MatchesSnoc(w, slots, e);
    w' := w + [e];
  }

  lemma AppendPair(open: bool, s: ClientState, w: seq<Event>, pairs: set<int>, slots: seq<Slot>, r: ClientState)
    returns (w': seq<Event>)
    requires 2 <= |slots| && Tiled(open, w, pairs) && Matches(w, slots[..|slots| - 2])
    requires r in PairEffects(open, slots[|slots| - 2], slots[|slots| - 1])
    ensures Tiled(open, w', pairs + {|w|}) && Matches(w', slots) && Fold(s, w') == r
  {
    var n := |slots|;
    assert slots[..n - 1][..n - 2] == slots[..n - 2] && slots[..n - 1][n - 2] == slots[n - 2];
    hide *;
    var a, b := PairWitness(open, Fold(s, w), slots[n - 2], slots[n - 1], r);
    FoldSnoc(s, w, a);
    FoldSnoc(s, w + [a], b);
    TiledPair(open, w, pairs, a, b);
    MatchesSnoc(w, slots[..n - 1], a);
    MatchesSnoc(w + [a], slots, b);
    w' := w + [a] + [b];
  }

  /** Knowledge is complete: every possible state is that of some tiled history. */
  lemma {:induction false} PossibleComplete(open: bool, s: ClientState, slots: seq<Slot>, r: ClientState)
    returns (w: seq<Event>, pairs: set<int>)
    requires r in Possible(open, s, slots)
    ensures Tiled(open, w, pairs) && Matches(w, slots) && Fold(s, w) == r
    decreases |slots|
  {
    if slots == [] {
      w, pairs := [], {};
    } else {
      hide *;
      var p, pair := LastStep(open, s, slots, r);
      if pair {
        w, pairs := PossibleComplete(open, s, slots[..|slots| - 2], p);
        var n := |w|;
        w := AppendPair(open, s, w, pairs, slots, r);
        pairs := pairs + {n};
      } else {
        w, pairs := PossibleComplete(open, s, slots[..|slots| - 1], p);
        w := AppendAlone(open, s, w, pairs, slots, r);
      }
    }
  }

  // ---------- Telling a history differently without anyone noticing ----------

  /** A pair that the original history does not have is told as two events pushed by themselves. */
  function FirstAlone(e: Event): Event {
    if e.ConnectionOpen? || e.PairingSuccess? then ConnectionOpen else MessageSent("")
  }

  function SecondAlone(open: bool, e: Event): Event {
    match e
    case ConnectionClosed(_) => ConnectionClosed(ByStreamReplacement)
    case PairingFailed(_) => if open then e else PairingFailed(QR_ERROR)
    case _ => MessageSent("")
  }

  function Split(open: bool, w: seq<Event>, extra: set<int>): seq<Event> {
    seq(|w|, p requires 0 <= p < |w| =>
      if p in extra then FirstAlone(w[p]) else if p - 1 in extra then SecondAlone(open, w[p]) else w[p])
  }

  lemma SplitPair(open: bool, a: Event, b: Event)
    requires PairOf(open, a, b)
    ensures Alone(open, FirstAlone(a)) && Alone(open, SecondAlone(open, b))
    ensures forall s :: Interpret(s, FirstAlone(a)) == Interpret(s, a)
    ensures forall s :: Interpret(s, SecondAlone(open, b)) == Interpret(s, b)
  {
  }

  /** Events that only begin a pair, or only end one. */
  predicate OnlyFirst(e: Event) {
    e.LoggedOut? || e.PairingSuccess? || e.QRExpired?
  }

  predicate OnlySecond(open: bool, e: Event) {
    e.LoggedIn? || e == ConnectionClosed(ByLogout) || (!open && e == PairingFailed(QR_EXPIRED))
  }

  lemma FailuresDiffer()
    ensures QR_ERROR != QR_EXPIRED
  {
    assert |QR_ERROR| != |QR_EXPIRED|;
  }

  lemma TiledRoles(open: bool, w: seq<Event>, pairs: set<int>, p: int)
    requires Tiled(open, w, pairs) && 0 <= p < |w|
    ensures p !in pairs ==> !OnlyFirst(w[p])
    ensures p - 1 !in pairs ==> !OnlySecond(open, w[p])
  {
    FailuresDiffer();
    if p in pairs {
      assert PairOf(open, w[p], w[p + 1]);
    } else if p - 1 in pairs {
      assert PairOf(open, w[p - 1], w[p - 1 + 1]);
    } else {
      assert Alone(open, w[p]);
    }
  }

  /** What fits one slot together with an event of another role fits it split as well. */
  lemma SplitFits(open: bool, a: Event, b: Event, x: Slot, y: Slot, a': Event, b': Event)
    requires PairOf(open, a, b) && Fits(a, x) && Fits(b, y) && Fits(a', x) && Fits(b', y)
    requires !OnlyFirst(a') && !OnlySecond(open, b')
    ensures Fits(FirstAlone(a), x) && Fits(SecondAlone(open, b), y)
  {
  }

  /** A tiling, one position at a time: where pairs begin, and what is alone. */
  lemma TiledAt(open: bool, w: seq<Event>, pairs: set<int>, p: int)
    requires Tiled(open, w, pairs) && 0 <= p < |w|
    ensures p in pairs ==> p + 1 < |w| && PairOf(open, w[p], w[p + 1]) && p + 1 !in pairs && p - 1 !in pairs
    ensures p - 1 in pairs ==> 1 <= p && PairOf(open, w[p - 1], w[p])
    ensures p !in pairs && p - 1 !in pairs ==> Alone(open, w[p])
  {
    assert p - 1 in pairs ==> p - 1 + 1 == p;
  }

  lemma SplitPairAt(open: bool, own: set<int>, w: seq<Event>, pairs: set<int>, p: int)
    requires Tiled(open, w, pairs) && p in pairs * own
    ensures
      var w' := Split(open, w, pairs - own);
      0 <= p && p + 1 < |w'| && PairOf(open, w'[p], w'[p + 1]) && p + 1 !in pairs
  {
    TiledAt(open, w, pairs, p);
    hide Alone, PairOf, Tiled, FirstAlone, SecondAlone;
  }

  lemma SplitAloneAt(open: bool, own: set<int>, w: seq<Event>, pairs: set<int>, p: int)
    requires Tiled(open, w, pairs) && 0 <= p < |w| && p !in pairs * own && p - 1 !in pairs * own
    ensures Alone(open, Split(open, w, pairs - own)[p])
  {
    TiledAt(open, w, pairs, p);
    if p in pairs {
      SplitPair(open, w[p], w[p + 1]);
    } else if p - 1 in pairs {
      SplitPair(open, w[p - 1], w[p]);
    }
    hide Alone, PairOf, Tiled, FirstAlone, SecondAlone;
  }

  lemma SplitTiled(open: bool, own: set<int>, w: seq<Event>, pairs: set<int>)
    requires Tiled(open, w, pairs)
    ensures Tiled(open, Split(open, w, pairs - own), pairs * own)
  {
    var w' := Split(open, w, pairs - own);
    forall p | p in pairs * own
      ensures 0 <= p && p + 1 < |w'| && PairOf(open, w'[p], w'[p + 1]) && p + 1 !in pairs
    {
      SplitPairAt(open, own, w, pairs, p);
    }
    forall p | 0 <= p < |w'| && p !in pairs * own && p - 1 !in pairs * own
      ensures Alone(open, w'[p])
    {
      SplitAloneAt(open, own, w, pairs, p);
    }
    hide Alone, PairOf, Split;
  }

  lemma SplitMatches(open: bool, h: seq<Event>, own: set<int>, w: seq<Event>, pairs: set<int>, slots: seq<Slot>)
    requires Tiled(open, h, own) && Tiled(open, w, pairs) && Matches(h, slots) && Matches(w, slots)
    ensures Matches(Split(open, w, pairs - own), slots)
  {
    var extra := pairs - own;
    forall p | p in extra
      ensures 0 <= p && p + 1 < |w| && Fits(FirstAlone(w[p]), slots[p]) && Fits(SecondAlone(open, w[p + 1]), slots[p + 1])
    {
      TiledRoles(open, h, own, p);
      TiledRoles(open, h, own, p + 1);
      hide Tiled;
      assert Fits(h[p], slots[p]) && Fits(h[p + 1], slots[p + 1]);
      assert Fits(w[p], slots[p]) && Fits(w[p + 1], slots[p + 1]);
      SplitFits(open, w[p], w[p + 1], slots[p], slots[p + 1], h[p], h[p + 1]);
    }
    hide FirstAlone, SecondAlone, Fits, Tiled;
    forall p | 0 <= p < |w|
      ensures Fits(Split(open, w, extra)[p], slots[p])
    {
      assert p - 1 in extra ==> p - 1 + 1 == p;
      assert Fits(w[p], slots[p]);
    }
  }

  lemma {:induction false} FoldPointwise(s: ClientState, v: seq<Event>, w: seq<Event>)
    requires |v| == |w| && forall i, t :: 0 <= i < |v| ==> Interpret(t, v[i]) == Interpret(t, w[i])
    ensures Fold(s, v) == Fold(s, w)
    decreases |v|
  {
    if v != [] {
      FoldPointwise(s, v[..|v| - 1], w[..|w| - 1]);
    }
  }

  lemma SplitIs(open: bool, w: seq<Event>, extra: set<int>, p: int)
    requires 0 <= p < |w|
    ensures |Split(open, w, extra)| == |w|
    ensures Split(open, w, extra)[p] ==
            if p in extra then FirstAlone(w[p]) else if p - 1 in extra then SecondAlone(open, w[p]) else w[p]
  {
    hide FirstAlone, SecondAlone;
  }

  lemma SplitReadsAlike(open: bool, w: seq<Event>, pairs: set<int>, extra: set<int>, p: int)
    requires Tiled(open, w, pairs) && extra <= pairs && 0 <= p < |w|
    ensures |Split(open, w, extra)| == |w|
    ensures forall t :: Interpret(t, Split(open, w, extra)[p]) == Interpret(t, w[p])
  {
    hide *;
    SplitIs(open, w, extra, p);
    TiledAt(open, w, pairs, p);
    if p in extra {
      SplitPair(open, w[p], w[p + 1]);
    } else if p - 1 in extra {
      SplitPair(open, w[p - 1], w[p]);
    }
  }

  lemma SplitFold(open: bool, s: ClientState, w: seq<Event>, pairs: set<int>, extra: set<int>)
    requires Tiled(open, w, pairs) && extra <= pairs
    ensures Fold(s, Split(open, w, extra)) == Fold(s, w)
  {
    assert |Split(open, w, extra)| == |w|;
    hide *;
    forall p, t | 0 <= p < |w|
      ensures Interpret(t, Split(open, w, extra)[p]) == Interpret(t, w[p])
    {
      SplitReadsAlike(open, w, pairs, extra, p);
    }
    FoldPointwise(s, Split(open, w, extra), w);
  }

  // ---------- What can happen between lifecycle calls ----------

  /** The step of the library in which an activity is handled, if there is one. */
  predicate Delivers(step: EnvStep, a: Activity) {
    match a
    case Handle(ev) => step.Deliver? && step.ev == ev
    case HandleItem(item) => step.DeliverQR? && step.item == item
    case CloseQR => step.CloseQR?
    case _ => false
  }

  ghost predicate FollowsAtOnce(e: EngineView, a: Activity, e': EngineView) {
    if a.Handle? || a.HandleItem? || a.CloseQR?
    then exists step :: Delivers(step, a) && e.Allows(step) && e' == e.Absorb(step)
    else e' == e
  }

  /** The library may have linked the device before. */
  ghost predicate Follows(e: EngineView, a: Activity, e': EngineView) {
    FollowsAtOnce(e, a, e') || (e.Allows(LinkDevice) && FollowsAtOnce(e.Absorb(LinkDevice), a, e'))
  }

  ghost predicate Unfolds(e: EngineView, acts: seq<Activity>, trace: seq<EngineView>)
    decreases |acts|
  {
    && |trace| == |acts| + 1
    && (if acts == [] then trace[0] == e
        else Unfolds(e, acts[..|acts| - 1], trace[..|acts|])
             && Follows(trace[|acts| - 1], acts[|acts| - 1], trace[|acts|]))
  }

  /** The library, as far as the environment is concerned, can do its part of these activities. */
  ghost predicate Happens(e: EngineView, acts: seq<Activity>) {
    exists trace :: Unfolds(e, acts, trace)
  }

  /** With its socket open it can deliver anything but a connection without a device; with the socket
      closed, no event at all. */
  predicate FairOne(open: bool, a: Activity) {
    a.Handle? ==> open && a.ev != EvConnected(None)
  }

  predicate Fair(open: bool, acts: seq<Activity>) {
    forall k :: 0 <= k < |acts| ==> FairOne(open, acts[k])
  }

  lemma FairConcat(open: bool, a: seq<Activity>, b: seq<Activity>)
    requires Fair(open, a) && Fair(open, b)
    ensures Fair(open, a + b)
  {
  }

  lemma AtOnceIsFair(e: EngineView, a: Activity, e': EngineView)
    requires FollowsAtOnce(e, a, e')
    ensures FairOne(e.client.socket, a) && (e'.client.socket ==> e.client.socket)
    ensures e'.client.state == After(e.client, a).state
  {
    hide ClientView.Handle, ClientView.HandleQR;
  }

  lemma StateAfter(c: ClientView, d: ClientView, a: Activity)
    requires c.state == d.state
    ensures After(c, a).state == After(d, a).state
  {
    hide *;
    ActivityTellsState(c, a);
    ActivityTellsState(d, a);
  }

  lemma FollowsIsFair(e: EngineView, a: Activity, e': EngineView)
    requires Follows(e, a, e')
    ensures FairOne(e.client.socket, a) && (e'.client.socket ==> e.client.socket)
    ensures e'.client.state == After(e.client, a).state
  {
    assert e.Absorb(LinkDevice).client == e.client;
    hide FollowsAtOnce, After, FairOne;
    AtOnceIsFair(if FollowsAtOnce(e, a, e') then e else e.Absorb(LinkDevice), a, e');
  }

  lemma {:induction false} UnfoldsIsFair(e: EngineView, acts: seq<Activity>, trace: seq<EngineView>)
    requires Unfolds(e, acts, trace)
    ensures Fair(e.client.socket, acts) && (trace[|acts|].client.socket ==> e.client.socket)
    ensures trace[|acts|].client.state == RunClient(e.client, acts).state
    decreases |acts|
  {
    if acts != [] {
      var n := |acts| - 1;
      UnfoldsIsFair(e, acts[..n], trace[..n + 1]);
      assert trace[..n + 1][n] == trace[n];
      FollowsIsFair(trace[n], acts[n], trace[n + 1]);
      StateAfter(trace[n].client, RunClient(e.client, acts[..n]), acts[n]);
      hide Follows, After;
    }
  }

  /** The state after an activity, with the socket left as it is. */
  lemma FairFollows(e: EngineView, a: Activity) returns (e': EngineView)
    requires FairOne(e.client.socket, a)
    ensures Follows(e, a, e') && e'.client.socket == e.client.socket
  {
    match a
    case Handle(ev) =>
      if ev.EvConnected? || ev.EvPairSuccess? {
        var linked := if e.paired then e else e.Absorb(LinkDevice);
        var step := Deliver(ev, true, true);
        assert Delivers(step, a) && linked.Allows(step);
        e' := linked.Absorb(step);
      } else {
        var step := Deliver(ev, true, e.paired);
        assert Delivers(step, a) && e.Allows(step);
        e' := e.Absorb(step);
      }
    case HandleItem(item) =>
      var step := DeliverQR(item, e.client.socket);
      assert Delivers(step, a) && e.Allows(step);
      e' := e.Absorb(step);
    case CloseQR =>
      assert Delivers(EnvStep.CloseQR, a) && e.Allows(EnvStep.CloseQR);
      e' := e.Absorb(EnvStep.CloseQR);
    case _ => e' := e;
  }

  lemma {:induction false} FairUnfolds(e: EngineView, acts: seq<Activity>) returns (trace: seq<EngineView>)
    requires Fair(e.client.socket, acts)
    ensures Unfolds(e, acts, trace) && trace[|acts|].client.socket == e.client.socket
    decreases |acts|
  {
    if acts == [] {
      trace := [e];
    } else {
      var n := |acts| - 1;
      var before := FairUnfolds(e, acts[..n]);
      var last := FairFollows(before[n], acts[n]);
      trace := before + [last];
      assert trace[..n + 1] == before;
      hide Follows;
    }
  }

  /** WHAT CAN HAPPEN between lifecycle calls depends on the socket alone: linking and unlinking never
      get in the way. */
  lemma HappensIff(e: EngineView, acts: seq<Activity>)
    ensures Happens(e, acts) <==> Fair(e.client.socket, acts)
  {
    hide Unfolds, Fair;
    if Fair(e.client.socket, acts) {
      var trace := FairUnfolds(e, acts);
    }
    forall trace | Unfolds(e, acts, trace)
      ensures Fair(e.client.socket, acts)
    {
      UnfoldsIsFair(e, acts, trace);
    }
  }

  // ---------- The same, told by a run ----------

  /** All events pushed by some activities, and where pairs of them begin. */
  function HistoryOf(acts: seq<Activity>): seq<Event>
    decreases |acts|
  {
    if acts == [] then [] else HistoryOf(acts[..|acts| - 1]) + PushedBy(acts[|acts| - 1])
  }

  function PairsOf(acts: seq<Activity>): set<int>
    decreases |acts|
  {
    if acts == [] then {} else
      var before := acts[..|acts| - 1];
      PairsOf(before) + if |PushedBy(acts[|acts| - 1])| == 2 then {|HistoryOf(before)|} else {}
  }

  lemma {:induction false} HistoryIs(q: Queue, acts: seq<Activity>)
    requires 0 < q.maxSize
    ensures Exec(q, RunOps(acts)).history == HistoryOf(acts)
    decreases |acts|
  {
    if acts != [] {
      var before, a := acts[..|acts| - 1], acts[|acts| - 1];
      assert RunOps(acts) == RunOps(before) + OpsOf(a);
      hide PushedBy, OpsOf, Exec;
      HistoryIs(q, before);
      ActivityExtendsHistory(q, RunOps(before), a);
    }
  }

  lemma PushedShape(open: bool, a: Activity)
    requires FairOne(open, a)
    ensures |PushedBy(a)| <= 2
    ensures |PushedBy(a)| == 1 ==> Alone(open, PushedBy(a)[0])
    ensures |PushedBy(a)| == 2 ==> PairOf(open, PushedBy(a)[0], PushedBy(a)[1])
  {
  }

  lemma {:induction false} ActsTile(open: bool, acts: seq<Activity>)
    requires Fair(open, acts)
    ensures Tiled(open, HistoryOf(acts), PairsOf(acts))
    decreases |acts|
  {
    if acts != [] {
      var before, es := acts[..|acts| - 1], PushedBy(acts[|acts| - 1]);
      ActsTile(open, before);
      PushedShape(open, acts[|acts| - 1]);
      hide PushedBy, Tiled, Alone, PairOf;
      if |es| == 1 {
        assert es == [es[0]];
        TiledAlone(open, HistoryOf(before), PairsOf(before), es[0]);
      } else if |es| == 2 {
        assert es == [es[0]] + [es[1]];
        assert HistoryOf(acts) == HistoryOf(before) + [es[0]] + [es[1]];
        TiledPair(open, HistoryOf(before), PairsOf(before), es[0], es[1]);
      }
    }
  }

  /** An activity that pushes just this event, or just this pair. */
  function ActivityFor(open: bool, e: Event): Activity
    requires Alone(open, e)
  {
    match e
    case ConnectionOpen => Handle(EvKeepAliveRestored)
    case ConnectionReconnecting => Handle(EvKeepAliveTimeout)
    case ConnectionClosed(reason) => Handle(if reason.ByDisconnection? then EvDisconnected else EvStreamReplaced)
    case PairingFailed(why) => if why == QR_ERROR then HandleItem(QRError) else Handle(EvPairError(why))
    case MessageReceived(m) => Handle(EvMessage(m))
    case MessageSent(m) => SendSucceeded(m)
    case MessageFailed(m) => Activity.SendFailed(m)
    case QRUpdated(qr) => HandleItem(QRCode(qr))
    case HistorySync => Handle(EvHistorySync)
  }

  function ActivityForPair(open: bool, a: Event, b: Event): Activity
    requires PairOf(open, a, b)
  {
    match a
    case ConnectionOpen => Handle(EvConnected(Some(b.jid)))
    case LoggedOut => Handle(EvLoggedOut)
    case PairingSuccess(jid) => Handle(EvPairSuccess(jid))
    case QRExpired => HandleItem(QRTimeout)
  }

  lemma ActivityPushes(open: bool, e: Event)
    requires Alone(open, e)
    ensures FairOne(open, ActivityFor(open, e))
    ensures PushedBy(ActivityFor(open, e)) == [e] && OpsOf(ActivityFor(open, e)) == [PushOp(e)]
  {
    assert PushOps([e]) == [PushOp(e)];
  }

  lemma PairActivityPushes(open: bool, a: Event, b: Event)
    requires PairOf(open, a, b)
    ensures FairOne(open, ActivityForPair(open, a, b))
    ensures PushedBy(ActivityForPair(open, a, b)) == [a, b] && OpsOf(ActivityForPair(open, a, b)) == [PushOp(a), PushOp(b)]
  {
    assert PushOps([a, b]) == [PushOp(a), PushOp(b)];
  }

  /** The same operations in the same order, up to what is pushed. */
  ghost predicate SameShape(a: seq<Op>, b: seq<Op>) {
    |a| == |b| && forall i :: 0 <= i < |a| ==> SameKind(a[i], b[i])
  }

  predicate SameKind(a: Op, b: Op) {
    (a.PushOp? && b.PushOp?) || (a.PollOp? && b.PollOp?) || (a.ClearOp? && b.ClearOp?)
  }

  lemma RunSnoc(acts: seq<Activity>, a: Activity)
    ensures RunOps(acts + [a]) == RunOps(acts) + OpsOf(a)
    ensures HistoryOf(acts + [a]) == HistoryOf(acts) + PushedBy(a)
  {
    hide OpsOf, PushedBy;
    assert (acts + [a])[..|acts|] == acts;
  }

  lemma {:induction false} RunConcat(acts: seq<Activity>, more: seq<Activity>)
    ensures RunOps(acts + more) == RunOps(acts) + RunOps(more)
    ensures HistoryOf(acts + more) == HistoryOf(acts) + HistoryOf(more)
    decreases |more|
  {
    if more == [] {
      assert acts + more == acts;
    } else {
      var before, last := more[..|more| - 1], more[|more| - 1];
      assert more == before + [last];
      hide *;
      RunConcat(acts, before);
      RunSnoc(before, last);
      RunSnoc(acts + before, last);
      Assoc(acts, before, [last]);
      Assoc(RunOps(acts), RunOps(before), OpsOf(last));
      Assoc(HistoryOf(acts), HistoryOf(before), PushedBy(last));
    }
  }

  lemma RunFew(a: Activity, b: Activity)
    ensures RunOps([a]) == OpsOf(a) && HistoryOf([a]) == PushedBy(a)
    ensures RunOps([a, b]) == OpsOf(a) + OpsOf(b) && HistoryOf([a, b]) == PushedBy(a) + PushedBy(b)
  {
    hide OpsOf, PushedBy;
    assert [a][..0] == [] && [a, b][..1] == [a];
  }

  lemma TellAlone(open: bool, e: Event) returns (acts: seq<Activity>)
    requires Alone(open, e)
    ensures Fair(open, acts) && HistoryOf(acts) == [e] && RunOps(acts) == [PushOp(e)]
  {
    ActivityPushes(open, e);
    acts := [ActivityFor(open, e)];
    RunFew(acts[0], acts[0]);
  }

  lemma TellPair(open: bool, a: Event, b: Event, paired: bool) returns (acts: seq<Activity>)
    requires if paired then PairOf(open, a, b) else Alone(open, a) && Alone(open, b)
    ensures Fair(open, acts) && HistoryOf(acts) == [a, b] && RunOps(acts) == [PushOp(a), PushOp(b)]
  {
    if paired {
      PairActivityPushes(open, a, b);
      acts := [ActivityForPair(open, a, b)];
      RunFew(acts[0], acts[0]);
    } else {
      ActivityPushes(open, a);
      ActivityPushes(open, b);
      acts := [ActivityFor(open, a), ActivityFor(open, b)];
      RunFew(acts[0], acts[1]);
    }
  }

  lemma OpsShape(a: Activity)
    ensures |PushedBy(a)| == 1 ==> OpsOf(a) == [PushOp(PushedBy(a)[0])]
    ensures |PushedBy(a)| == 2 ==> OpsOf(a) == [PushOp(PushedBy(a)[0]), PushOp(PushedBy(a)[1])]
  {
    hide Pushed, QRPushed;
  }

  /** One activity told differently: `w` is what it shall push, `paired` whether as a pair. */
  lemma RetellOne(open: bool, a: Activity, w: seq<Event>, paired: bool) returns (acts: seq<Activity>)
    requires FairOne(open, a) && |w| == |PushedBy(a)|
    requires if paired then |w| == 2 && PairOf(open, w[0], w[1]) else forall i :: 0 <= i < |w| ==> Alone(open, w[i])
    ensures Fair(open, acts) && HistoryOf(acts) == w && SameShape(RunOps(acts), OpsOf(a))
  {
    PushedShape(open, a);
    OpsShape(a);
    RunFew(a, a);
    if w == [] {
      acts := [a];
      assert OpsOf(a) == RunOps(acts);
      SameAsItself(RunOps(acts));
      hide Alone, PairOf, PushedBy, OpsOf, HistoryOf, RunOps;
    } else {
      hide *;
      if |w| == 1 {
        acts := TellAlone(open, w[0]);
        OnePush(w[0], PushedBy(a)[0]);
        assert w == [w[0]];
      } else {
        acts := TellPair(open, w[0], w[1], paired);
        TwoPushes(w[0], w[1], PushedBy(a)[0], PushedBy(a)[1]);
        assert w == [w[0], w[1]];
      }
    }
  }

  lemma SameAsItself(ops: seq<Op>)
    ensures SameShape(ops, ops)
  {
  }

  lemma OnePush(e: Event, e': Event)
    ensures SameShape([PushOp(e)], [PushOp(e')])
  {
  }

  lemma TwoPushes(a: Event, b: Event, a': Event, b': Event)
    ensures SameShape([PushOp(a), PushOp(b)], [PushOp(a'), PushOp(b')])
  {
  }

  lemma {:induction false} PairsInside(acts: seq<Activity>)
    ensures forall p :: p in PairsOf(acts) ==> 0 <= p && p + 1 < |HistoryOf(acts)|
    decreases |acts|
  {
    if acts != [] {
      PairsInside(acts[..|acts| - 1]);
    }
  }

  /** What a tiling without pairs of its own says about the last activity. */
  lemma LastTiled(open: bool, acts: seq<Activity>, w: seq<Event>, pairs: set<int>)
    requires acts != [] && Fair(open, acts)
    requires |w| == |HistoryOf(acts)| && Tiled(open, w, pairs) && pairs <= PairsOf(acts)
    ensures
      var before := acts[..|acts| - 1];
      var n := |HistoryOf(before)|;
      && n <= |w| && n - 1 !in pairs && Below(pairs, n) <= PairsOf(before)
      && |w[n..]| == |PushedBy(acts[|acts| - 1])|
      && (if n in pairs then |w[n..]| == 2 && PairOf(open, w[n..][0], w[n..][1])
          else forall i :: 0 <= i < |w[n..]| ==> Alone(open, w[n..][i]))
  {
    var before, a := acts[..|acts| - 1], acts[|acts| - 1];
    var n := |HistoryOf(before)|;
    hide Alone, PairOf, PushedBy;
    PairsInside(before);
    PushedShape(open, a);
    assert n - 1 !in PairsOf(acts) && n + 1 !in PairsOf(acts);
    if n in pairs {
      assert PairOf(open, w[n], w[n + 1]);
    } else {
      forall i | 0 <= i < |w[n..]|
        ensures Alone(open, w[n..][i])
      {
        assert n + i !in pairs && n + i - 1 !in pairs;
        assert Alone(open, w[n + i]);
      }
    }
  }

  lemma ShapeConcat(a: seq<Op>, b: seq<Op>, a': seq<Op>, b': seq<Op>)
    requires SameShape(a, a') && SameShape(b, b')
    ensures SameShape(a + b, a' + b')
  {
    hide SameKind;
  }

  lemma LastFair(open: bool, acts: seq<Activity>)
    requires acts != [] && Fair(open, acts)
    ensures
      var before, a := acts[..|acts| - 1], acts[|acts| - 1];
      acts == before + [a] && Fair(open, before) && FairOne(open, a)
  {
  }

  /** Activities of the same shape that push `w`, if `w` has no pairs but where they have. */
  lemma {:induction false} Retell(open: bool, acts: seq<Activity>, w: seq<Event>, pairs: set<int>) returns (told: seq<Activity>)
    requires Fair(open, acts) && |w| == |HistoryOf(acts)| && Tiled(open, w, pairs) && pairs <= PairsOf(acts)
    ensures Fair(open, told) && HistoryOf(told) == w && SameShape(RunOps(told), RunOps(acts))
    decreases |acts|
  {
    if acts == [] {
      told := [];
    } else {
      var before, a := acts[..|acts| - 1], acts[|acts| - 1];
      var n := |HistoryOf(before)|;
      hide *;
      LastTiled(open, acts, w, pairs);
      LastFair(open, acts);
      CutAt(w, n, |w|);
      TiledPrefix(open, w, pairs, n);
      told := Retell(open, before, w[..n], Below(pairs, n));
      var one := RetellOne(open, a, w[n..], n in pairs);
      RunConcat(told, one);
      RunSnoc(before, a);
      ShapeConcat(RunOps(told), RunOps(one), RunOps(before), OpsOf(a));
      FairConcat(open, told, one);
      told := told + one;
    }
  }

  // ---------- The same answers ----------

  /** Two runs that a consumer has not told apart so far; `w` is what the second one pushes. */
  ghost predicate Alike(r: Run, r': Run) {
    && r'.seen == r.seen && |r'.history| == |r.history|
    && |r'.q.events| == |r.q.events| && r'.q.dropCount == r.q.dropCount && r'.q.maxSize == r.q.maxSize
  }

  /** The head of the second queue, and the type it would report, are read off `w`. */
  lemma NextIs(q: Queue, r: Run, r': Run, w: seq<Event>)
    requires Placed(r) && Placed(r') && PendingRight(r') && Alike(r, r') && r'.history <= w
    ensures
      var from := Cursor(r.seen);
      && (r'.q.dropCount == 0 && r'.q.events != [] ==> from < |w| && r'.q.events[0] == w[from])
      && (0 < r'.q.dropCount ==>
            from + r'.q.dropCount <= |w| && r'.q.lastDropType == TypeOf(w[from + r'.q.dropCount - 1]))
  {
    hide TypeOf, Holes, Cursor;
    var at := |r'.history| - |r'.q.events|;
    assert Cursor(r.seen) + r.q.dropCount == at;
    assert r'.q.events != [] ==> r'.q.events[0] == r'.history[at] == w[at];
    assert 0 < r'.q.dropCount ==> r'.history[at - 1] == w[at - 1];
  }

  lemma PollAlike(q: Queue, r: Run, r': Run, w: seq<Event>)
    requires Placed(r) && Placed(r') && PendingRight(r') && Alike(r, r')
    requires r'.history <= w && Confirms(q, false, w, r.seen, r.q.Poll().1)
    ensures Alike(Step(r, PollOp), Step(r', PollOp))
  {
    NextIs(q, r, r', w);
    hide TypeOf, Holes, Cursor, LastType, PendingRight;
  }

  lemma PushAlike(r: Run, r': Run, e: Event, e': Event)
    requires Alike(r, r') && 0 < r.q.maxSize
    ensures Alike(Step(r, PushOp(e)), Step(r', PushOp(e')))
  {
    hide TypeOf;
  }

  lemma HistoryGrows(r: Run, op: Op)
    requires 0 < r.q.maxSize
    ensures r.history <= Step(r, op).history
  {
    hide Queue.Push, Queue.Poll, Queue.Clear;
  }

  /** Operations of the same shape whose history the answers confirm give the same answers. */
  lemma {:induction false} SameAnswers(q: Queue, a: seq<Op>, b: seq<Op>, w: seq<Event>)
    requires Drained(q) && SameShape(b, a) && ClearOp !in a && ClearOp !in b
    requires Exec(q, b).history <= w && AllConfirm(q, false, w, Exec(q, a).seen)
    ensures Alike(Exec(q, a), Exec(q, b))
    decreases |a|
  {
    if a != [] {
      var n := |a| - 1;
      var r, r' := Exec(q, a[..n]), Exec(q, b[..n]);
      assert SameKind(b[n], a[n]) && a[n] in a && b[n] in b;
      PrefixShape(a, b, n);
      HistoryGrows(r', b[n]);
      ExactGapReconstruction(q, a[..n]);
      ExactGapReconstruction(q, b[..n]);
      RunConfirms(q, false, b[..n]);
      hide Placed, AllConfirm, Confirms, SameShape, Queue.Push, Queue.Poll, Queue.Clear, Interval, Alike;
      if a[n].PollOp? {
        assert Exec(q, a).seen[..|r.seen|] == r.seen;
        AllConfirmSnoc(q, false, w, Exec(q, a).seen);
        SameAnswers(q, a[..n], b[..n], w);
        PollAlike(q, r, r', w);
      } else {
        SameAnswers(q, a[..n], b[..n], w);
        PushAlike(r, r', a[n].event, b[n].event);
      }
    } else {
      assert b == [];
    }
  }

  lemma PrefixShape(a: seq<Op>, b: seq<Op>, n: nat)
    requires SameShape(b, a) && n <= |a| && ClearOp !in a && ClearOp !in b
    ensures SameShape(b[..n], a[..n]) && ClearOp !in a[..n] && ClearOp !in b[..n]
  {
    hide SameKind;
    forall i | 0 <= i < n
      ensures SameKind(b[..n][i], a[..n][i])
    {
      assert SameKind(b[i], a[i]);
    }
  }

  // ---------- What the consumer can know ----------

  ghost predicate EndsDrained(q: Queue, acts: seq<Activity>)
    requires 0 < q.maxSize
  {
    Exec(q, RunOps(acts)).q.Poll().1.Nothing?
  }

  /** What the answers of a run tell about the client of engine `e`: with `clears`, without relying on
      there being no clears. */
  ghost function Knows(q: Queue, clears: bool, e: EngineView, acts: seq<Activity>): set<ClientState>
    requires 0 < q.maxSize
  {
    Possible(e.client.socket, e.client.state, Slots(q, clears, Exec(q, RunOps(acts)).seen))
  }

  lemma ClearsAreOps(acts: seq<Activity>)
    ensures ClearAll in acts <==> ClearOp in RunOps(acts)
    decreases |acts|
  {
    if acts != [] {
      var before, a := acts[..|acts| - 1], acts[|acts| - 1];
      ClearsAreOps(before);
      assert acts == before + [a];
      hide PushedBy;
    }
  }

  lemma RunMatches(q: Queue, clears: bool, acts: seq<Activity>)
    requires Drained(q) && EndsDrained(q, acts) && (!clears ==> ClearAll !in acts)
    ensures Matches(HistoryOf(acts), Slots(q, clears, Exec(q, RunOps(acts)).seen))
    ensures |HistoryOf(acts)| == Cursor(Exec(q, RunOps(acts)).seen)
  {
    var r := Exec(q, RunOps(acts));
    ClearsAreOps(acts);
    RunConfirms(q, clears, RunOps(acts));
    EmptyPollMeansCaughtUp(q, RunOps(acts));
    HistoryIs(q, acts);
    MatchesIff(q, clears, r.history, r.seen);
    assert r.history[..Cursor(r.seen)] == r.history;
  }

  /** KNOWLEDGE IS SOUND.  After any run that ends drained, clears included, the client is in one of
      the states that the answers allow. */
  lemma KnowledgeIsSound(q: Queue, clears: bool, e: EngineView, acts: seq<Activity>)
    requires Drained(q) && EndsDrained(q, acts) && Happens(e, acts) && (!clears ==> ClearAll !in acts)
    ensures RunClient(e.client, acts).state in Knows(q, clears, e, acts)
  {
    var open, slots := e.client.socket, Slots(q, clears, Exec(q, RunOps(acts)).seen);
    HappensIff(e, acts);
    hide Exec, RunOps, Happens, Fair, Possible, Slots, Fold, RunClient, Tiled, Matches;
    RunMatches(q, clears, acts);
    HistoryIs(q, acts);
    HistoryTellsState(q, e.client, acts);
    ActsTile(open, acts);
    PossibleSound(open, e.client.state, HistoryOf(acts), PairsOf(acts), slots);
  }

  /** Another run without clears that can happen, gives the same answers and ends drained as well. */
  ghost predicate Indistinguishable(q: Queue, e: EngineView, acts: seq<Activity>, others: seq<Activity>)
    requires 0 < q.maxSize
  {
    && Happens(e, others) && ClearAll !in others && EndsDrained(q, others)
    && Exec(q, RunOps(others)).seen == Exec(q, RunOps(acts)).seen
  }

  /** Every state that the answers allow is that of some run the consumer cannot tell apart. */
  lemma KnowledgeIsComplete(q: Queue, e: EngineView, acts: seq<Activity>, s: ClientState) returns (told: seq<Activity>)
    requires Drained(q) && EndsDrained(q, acts) && Happens(e, acts) && ClearAll !in acts
    requires s in Knows(q, false, e, acts)
    ensures Indistinguishable(q, e, acts, told) && RunClient(e.client, told).state == s
  {
    var open, slots, own := e.client.socket, Slots(q, false, Exec(q, RunOps(acts)).seen), PairsOf(acts);
    HappensIff(e, acts);
    hide Exec, RunOps, Happens, Fair, Possible, Slots, Fold, RunClient, Tiled, Matches, Split, PairsOf, HistoryOf;
    hide SameShape;
    var w, pairs := PossibleComplete(open, e.client.state, slots, s);
    RunMatches(q, false, acts);
    ActsTile(open, acts);
    SplitMatches(open, HistoryOf(acts), own, w, pairs, slots);
    SplitTiled(open, own, w, pairs);
    SplitFold(open, e.client.state, w, pairs, pairs - own);
    told := Retell(open, acts, Split(open, w, pairs - own), pairs * own) by {
      SameLength(open, w, pairs - own, slots, HistoryOf(acts));
    }
    SameShapeSameAnswers(q, acts, told);
    HistoryIs(q, told);
    HistoryTellsState(q, e.client, told);
    HappensIff(e, told);
  }

  lemma SameLength(open: bool, w: seq<Event>, extra: set<int>, slots: seq<Slot>, h: seq<Event>)
    requires Matches(Split(open, w, extra), slots) && Matches(h, slots)
    ensures |Split(open, w, extra)| == |h|
  {
  }

  lemma SameShapeSameAnswers(q: Queue, acts: seq<Activity>, told: seq<Activity>)
    requires Drained(q) && EndsDrained(q, acts) && ClearAll !in acts
    requires SameShape(RunOps(told), RunOps(acts))
    requires Matches(HistoryOf(told), Slots(q, false, Exec(q, RunOps(acts)).seen))
    ensures ClearAll !in told && EndsDrained(q, told)
    ensures Exec(q, RunOps(told)).seen == Exec(q, RunOps(acts)).seen
  {
    var a, b, w := RunOps(acts), RunOps(told), HistoryOf(told);
    var seen := Exec(q, a).seen;
    ClearsAreOps(acts);
    ClearsAreOps(told);
    forall i | 0 <= i < |b|
      ensures b[i] != ClearOp
    {
      assert SameKind(b[i], a[i]) && a[i] in a;
    }
    SlotsReachCursor(q, false, seen);
    assert w[..Cursor(seen)] == w;
    MatchesIff(q, false, w, seen);
    HistoryIs(q, told);
    hide AllConfirm, Matches, Slots, Cursor;
    SameAnswers(q, a, b, w);
  }

  /** KNOWLEDGE IS EXACT.  Without clears, the states that the answers allow are precisely those of
      the runs that can happen and give these answers. */
  lemma KnowledgeIsExact(q: Queue, e: EngineView, acts: seq<Activity>, s: ClientState)
    requires Drained(q) && EndsDrained(q, acts) && Happens(e, acts) && ClearAll !in acts
    ensures s in Knows(q, false, e, acts) <==>
            exists others :: Indistinguishable(q, e, acts, others) && RunClient(e.client, others).state == s
  {
    hide Possible, Slots, RunClient, Exec, RunOps, Happens;
    if s in Knows(q, false, e, acts) {
      var told := KnowledgeIsComplete(q, e, acts, s);
    }
    forall others | Indistinguishable(q, e, acts, others)
      ensures RunClient(e.client, others).state in Knows(q, false, e, acts)
    {
      KnowledgeIsSound(q, false, e, others);
    }
  }

  ghost predicate AllAgree(q: Queue, e: EngineView, acts: seq<Activity>)
    requires 0 < q.maxSize
  {
    forall others ::
      Indistinguishable(q, e, acts, others) ==> RunClient(e.client, others).state == RunClient(e.client, acts).state
  }

  /** WHEN THE ANSWERS DECIDE THE STATE.  Without clears, all runs with these answers leave the client
      in the same state exactly if the knowledge computed from the answers is a single state. */
  lemma AnswersDecideStateIff(q: Queue, e: EngineView, acts: seq<Activity>)
    requires Drained(q) && EndsDrained(q, acts) && Happens(e, acts) && ClearAll !in acts
    ensures AllAgree(q, e, acts) <==> |Knows(q, false, e, acts)| == 1
  {
    var state, known := RunClient(e.client, acts).state, Knows(q, false, e, acts);
    assert Indistinguishable(q, e, acts, acts);
    hide Possible, Slots, RunClient, Exec, RunOps, Knows, Happens;
    KnowledgeIsExact(q, e, acts, state);
    if AllAgree(q, e, acts) {
      forall s | s in known
        ensures s == state
      {
        KnowledgeIsExact(q, e, acts, s);
      }
      assert known == {state};
    }
    if |known| == 1 {
      assert known == {state} by {
        assert |known - {state}| == 0;
      }
      forall others | Indistinguishable(q, e, acts, others)
        ensures RunClient(e.client, others).state == state
      {
        KnowledgeIsExact(q, e, acts, RunClient(e.client, others).state);
      }
    }
  }

  /** A CLEARED EVENT CANNOT BE RECOVERED.  Every run with an open socket extends in two ways that can
      happen, give the same answers and end drained, but leave the client in different states. */
  lemma ClearHidesState(q: Queue, e: EngineView, acts: seq<Activity>)
    requires Drained(q) && Happens(e, acts) && e.client.socket
    ensures
      var a1 := acts + [Handle(EvKeepAliveRestored), ClearAll, PollOne];
      var a2 := acts + [Handle(EvStreamReplaced), ClearAll, PollOne];
      && Happens(e, a1) && Happens(e, a2)
      && Exec(q, RunOps(a1)).seen == Exec(q, RunOps(a2)).seen
      && EndsDrained(q, a1) && EndsDrained(q, a2)
      && RunClient(e.client, a1).state != RunClient(e.client, a2).state
  {
    var a1 := acts + [Handle(EvKeepAliveRestored), ClearAll, PollOne];
    var a2 := acts + [Handle(EvStreamReplaced), ClearAll, PollOne];
    HappensIff(e, acts);
    HappensIff(e, a1);
    HappensIff(e, a2);
    assert Fair(true, a1) && Fair(true, a2);
    hide Happens, Exec, RunOps, RunClient;
    ClearedEventsLookAlike(q, e.client, acts);
  }
}

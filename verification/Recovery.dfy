/** Recovering the client's state from the polled events alone, across losses. */
module Recovery {
  import opened States
  import opened Events
  import opened EventQueues
  import opened Clients

  // ---------- The consumer ----------

  /** An event after which the consumer knows the state, whatever it believed before. */
  predicate SetsState(e: Event) {
    e.ConnectionOpen? || e.PairingSuccess? || e.ConnectionReconnecting? || e.PairingFailed? ||
    (e.ConnectionClosed? && !e.reason.ByDisconnection?)
  }

  function Interpret(s: ClientState, e: Event): ClientState {
    match e
    case ConnectionOpen => Connected
    case PairingSuccess(_) => Connected
    case ConnectionReconnecting => Reconnecting
    case PairingFailed(_) => Disconnected
    case ConnectionClosed(reason) => if reason.ByDisconnection? then s else Disconnected
    case _ => s
  }

  function Fold(s: ClientState, es: seq<Event>): ClientState
    decreases |es|
  {
    if es == [] then s else Interpret(Fold(s, es[..|es| - 1]), es[|es| - 1])
  }

  /** The events in a sequence of answers; drop reports and empty polls carry none. */
  function Delivered(seen: seq<Polled>): seq<Event>
    decreases |seen|
  {
    if seen == [] then [] else
      var last := seen[|seen| - 1];
      Delivered(seen[..|seen| - 1]) + if last.Delivered? then [last.event] else []
  }

  predicate HasReport(seen: seq<Polled>) {
    exists k :: 0 <= k < |seen| && seen[k].DropReport?
  }

  /** The consumer can trust its belief: nothing was ever reported lost, or a state-setting event
      came after the last report.  It decides this from the answers alone. */
  predicate Trustworthy(seen: seq<Polled>)
    decreases |seen|
  {
    if seen == [] then true else
      var last := seen[|seen| - 1];
      match last
      case DropReport(_, _) => false
      case Delivered(e) => SetsState(e) || Trustworthy(seen[..|seen| - 1])
      case Nothing => Trustworthy(seen[..|seen| - 1])
  }

  // ---------- The producer ----------

  /** What can happen between two lifecycle calls: handled library events, items on the QR channel
      and its closing, the outcome of a send, a poll, a clear. */
  datatype Activity =
    | Handle(ev: WAEvent)
    | HandleItem(item: QRItem)
    | CloseQR
    | SendSucceeded(message: string)
    | SendFailed(message: string)
    | PollOne
    | ClearAll

  function PushedBy(a: Activity): seq<Event> {
    match a
    case Handle(ev) => Pushed(ev)
    case HandleItem(item) => QRPushed(item)
    case SendSucceeded(m) => [MessageSent(m)]
    case SendFailed(m) => [MessageFailed(m)]
    case _ => []
  }

  function PushOps(es: seq<Event>): seq<Op> {
    seq(|es|, i requires 0 <= i < |es| => PushOp(es[i]))
  }

  function OpsOf(a: Activity): seq<Op> {
    match a
    case PollOne => [PollOp]
    case ClearAll => [ClearOp]
    case _ => PushOps(PushedBy(a))
  }

  function After(c: ClientView, a: Activity): ClientView {
    match a
    case Handle(ev) => c.Handle(ev)
    case HandleItem(item) => c.HandleQR(item)
    case CloseQR => c.QRChannelClosed()
    case _ => c
  }

  function RunClient(c: ClientView, acts: seq<Activity>): ClientView
    decreases |acts|
  {
    if acts == [] then c else After(RunClient(c, acts[..|acts| - 1]), acts[|acts| - 1])
  }

  function RunOps(acts: seq<Activity>): seq<Op>
    decreases |acts|
  {
    if acts == [] then [] else RunOps(acts[..|acts| - 1]) + OpsOf(acts[|acts| - 1])
  }

  // ---------- The producer's events tell its state ----------

  lemma FoldTwo(s: ClientState, a: Event, b: Event)
    ensures Fold(s, [a]) == Interpret(s, a)
    ensures Fold(s, [a, b]) == Interpret(Interpret(s, a), b)
  {
    assert [a, b][..1] == [a] && [a][..0] == [];
  }

  lemma ReadOneOrTwo(s: ClientState, es: seq<Event>)
    requires |es| <= 2
    ensures es == [] ==> Fold(s, es) == s
    ensures |es| == 1 ==> Fold(s, es) == Interpret(s, es[0])
    ensures |es| == 2 ==> Fold(s, es) == Interpret(Interpret(s, es[0]), es[1])
  {
    if |es| == 1 {
      assert es == [es[0]];
      FoldTwo(s, es[0], es[0]);
    } else if |es| == 2 {
      assert es == [es[0], es[1]];
      FoldTwo(s, es[0], es[1]);
    }
  }

  /** Each handler pushes events whose reading is exactly the state it sets. */
  lemma ActivityTellsState(c: ClientView, a: Activity)
    ensures Fold(c.state, PushedBy(a)) == After(c, a).state
  {
    hide Fold, Pushed, QRPushed, ClientView.Handle, ClientView.HandleQR, Interpret;
    match a
    case Handle(ev) => HandlerTellsState(c, ev);
    case HandleItem(item) => ItemTellsState(c, item);
    case SendSucceeded(m) => SendTellsNothing(c.state, MessageSent(m));
    case SendFailed(m) => SendTellsNothing(c.state, MessageFailed(m));
    case _ => ReadOneOrTwo(c.state, []);
  }

  lemma SendTellsNothing(s: ClientState, e: Event)
    requires e.MessageSent? || e.MessageFailed?
    ensures Fold(s, [e]) == s
  {
    FoldTwo(s, e, e);
  }

  lemma HandlerTellsState(c: ClientView, ev: WAEvent)
    ensures Fold(c.state, Pushed(ev)) == c.Handle(ev).state
  {
    hide Fold;
    ReadOneOrTwo(c.state, Pushed(ev));
  }

  lemma ItemTellsState(c: ClientView, item: QRItem)
    ensures Fold(c.state, QRPushed(item)) == c.HandleQR(item).state
  {
    hide Fold;
    ReadOneOrTwo(c.state, QRPushed(item));
  }

  lemma {:induction false} FoldConcat(s: ClientState, a: seq<Event>, b: seq<Event>)
    ensures Fold(s, a + b) == Fold(Fold(s, a), b)
    decreases |b|
  {
    if b == [] {
      assert a + b == a;
    } else {
      FoldConcat(s, a, b[..|b| - 1]);
      assert (a + b)[..|a + b| - 1] == a + b[..|b| - 1];
    }
  }

  lemma PushOpsSnoc(ops: seq<Op>, es: seq<Event>, e: Event)
    ensures ops + PushOps(es + [e]) == ops + PushOps(es) + [PushOp(e)]
  {
  }

  lemma HistorySnoc(q: Queue, ops: seq<Op>, op: Op)
    requires 0 < q.maxSize
    ensures Exec(q, ops + [op]).history == Exec(q, ops).history + if op.PushOp? then [op.event] else []
  {
    assert (ops + [op])[..|ops|] == ops;
    hide Queue.Push, Queue.Poll, Queue.Clear, Interval;
  }

  lemma Assoc<T>(a: seq<T>, b: seq<T>, c: seq<T>)
    ensures a + b + c == a + (b + c)
  {
  }

  lemma {:induction false} PushesExtendHistory(q: Queue, ops: seq<Op>, es: seq<Event>)
    requires 0 < q.maxSize
    ensures Exec(q, ops + PushOps(es)).history == Exec(q, ops).history + es
    decreases |es|
  {
    if es == [] {
      assert ops + PushOps(es) == ops;
    } else {
      var before, e := es[..|es| - 1], es[|es| - 1];
      assert es == before + [e];
      hide *;
      PushesExtendHistory(q, ops, before);
      PushOpsSnoc(ops, before, e);
      HistorySnoc(q, ops + PushOps(before), PushOp(e));
      Assoc(Exec(q, ops).history, before, [e]);
    }
  }

  /** What one activity adds to the push history. */
  lemma ActivityExtendsHistory(q: Queue, ops: seq<Op>, a: Activity)
    requires 0 < q.maxSize
    ensures Exec(q, ops + OpsOf(a)).history == Exec(q, ops).history + PushedBy(a)
  {
    if a.PollOne? {
      HistorySnoc(q, ops, PollOp);
    } else if a.ClearAll? {
      HistorySnoc(q, ops, ClearOp);
    } else {
      PushesExtendHistory(q, ops, PushedBy(a));
    }
    hide Pushed, QRPushed, Exec;
  }

  /** The client's state is always what a lossless reader of the push history would believe. */
  lemma {:induction false} HistoryTellsState(q: Queue, c: ClientView, acts: seq<Activity>)
    requires 0 < q.maxSize
    ensures RunClient(c, acts).state == Fold(c.state, Exec(q, RunOps(acts)).history)
    decreases |acts|
  {
    if acts != [] {
      var before, a := acts[..|acts| - 1], acts[|acts| - 1];
      assert RunOps(acts) == RunOps(before) + OpsOf(a);
      assert RunClient(c, acts) == After(RunClient(c, before), a);
      hide *;
      HistoryTellsState(q, c, before);
      ActivityTellsState(RunClient(c, before), a);
      ActivityExtendsHistory(q, RunOps(before), a);
      FoldConcat(c.state, Exec(q, RunOps(before)).history, PushedBy(a));
    }
  }

  // ---------- The consumer catches up ----------

  lemma ReadOne(s: ClientState, es: seq<Event>, history: seq<Event>, c: nat)
    requires c < |history|
    requires SetsState(history[c]) || Fold(s, es) == Fold(s, history[..c])
    ensures Fold(s, es + [history[c]]) == Fold(s, history[..c + 1])
  {
    assert history[..c + 1] == history[..c] + [history[c]];
    FoldConcat(s, es, [history[c]]);
    FoldConcat(s, history[..c], [history[c]]);
    FoldTwo(Fold(s, es), history[c], history[c]);
    FoldTwo(Fold(s, history[..c]), history[c], history[c]);
  }

  ghost predicate AllPlaced(history: seq<Event>, seen: seq<Polled>) {
    forall k :: 0 <= k < |seen| && seen[k].Delivered? ==>
      Cursor(seen[..k]) < |history| && history[Cursor(seen[..k])] == seen[k].event
  }

  lemma AllPlacedPrefix(history: seq<Event>, seen: seq<Polled>)
    requires AllPlaced(history, seen) && seen != []
    ensures AllPlaced(history, seen[..|seen| - 1])
  {
    var before := seen[..|seen| - 1];
    forall k | 0 <= k < |before| && before[k].Delivered?
      ensures Cursor(before[..k]) < |history| && history[Cursor(before[..k])] == before[k].event
    {
      assert before[..k] == seen[..k] && before[k] == seen[k];
    }
  }

  /** A belief that is trustworthy is the reading of everything up to the cursor. */
  lemma {:induction false} TrustworthyBelief(s: ClientState, history: seq<Event>, seen: seq<Polled>)
    requires Trustworthy(seen) && Cursor(seen) <= |history| && AllPlaced(history, seen)
    ensures Fold(s, Delivered(seen)) == Fold(s, history[..Cursor(seen)])
    decreases |seen|
  {
    if seen != [] {
      var n := |seen| - 1;
      var before, last := seen[..n], seen[n];
      AllPlacedPrefix(history, seen);
      assert last.Delivered? ==> history[Cursor(before)] == last.event;
      hide AllPlaced, Fold, Interpret;
      if last.Delivered? {
        if !SetsState(last.event) {
          TrustworthyBelief(s, history, before);
        }
        ReadOne(s, Delivered(before), history, Cursor(before));
      } else {
        TrustworthyBelief(s, history, before);
        assert Delivered(before) + [] == Delivered(before);
      }
    }
  }

  lemma {:induction false} LosslessIsTrustworthy(seen: seq<Polled>)
    requires !HasReport(seen)
    ensures Trustworthy(seen)
    decreases |seen|
  {
    if seen != [] {
      assert !HasReport(seen[..|seen| - 1]);
      LosslessIsTrustworthy(seen[..|seen| - 1]);
    }
  }

  /** END-TO-END STATE RECOVERY.  Starting drained and in agreement, after anything that can happen
      between lifecycle calls: whenever the next poll would find nothing, and nothing was reported lost
      or a state-setting event came after the last report, the consumer's belief is the client's state. */
  lemma StateRecovery(q: Queue, c: ClientView, acts: seq<Activity>)
    requires Drained(q)
    requires
      var r := Exec(q, RunOps(acts));
      r.q.Poll().1.Nothing? && (!HasReport(r.seen) || Trustworthy(r.seen))
    ensures Fold(c.state, Delivered(Exec(q, RunOps(acts)).seen)) == RunClient(c, acts).state
  {
    hide Exec, Step, RunOps, RunClient, Fold, Delivered, Trustworthy, Holes, Interval, Cursor, HasReport;
    var r := Exec(q, RunOps(acts));
    if !HasReport(r.seen) {
      LosslessIsTrustworthy(r.seen);
    }
    ExactGapReconstruction(q, RunOps(acts));
    HistoryTellsState(q, c, acts);
    TrustworthyBelief(c.state, r.history, r.seen);
    assert r.history[..Cursor(r.seen)] == r.history;
  }

  // ---------- What a clear hides ----------

  lemma {:induction false} PushClearPoll(q: Queue, ops: seq<Op>, e: Event)
    requires Drained(q)
    ensures
      var before, r := Exec(q, ops), Exec(q, ops + [PushOp(e), ClearOp, PollOp]);
      var q' := before.q.Push(e).Clear();
      r.seen == before.seen + [q'.Poll().1] && q'.Poll().1.DropReport? && r.q.Poll().1.Nothing?
  {
    hide Interval, Queue.Push, TypeOf;
    var all := ops + [PushOp(e), ClearOp, PollOp];
    assert all[..|all| - 1] == ops + [PushOp(e), ClearOp];
    assert (ops + [PushOp(e), ClearOp])[..|ops| + 1] == ops + [PushOp(e)];
    assert (ops + [PushOp(e)])[..|ops|] == ops;
    ExactGapReconstruction(q, ops + [PushOp(e)]);
    PushLeavesOne(Exec(q, ops).q, e);
  }

  lemma PushLeavesOne(q: Queue, e: Event)
    requires 0 < q.maxSize
    ensures q.Push(e).events != []
  {
  }

  /** What a clear throws away leaves no trace of what it was. */
  lemma ClearForgets(q: Queue, a: Event, b: Event)
    requires 0 < q.maxSize
    ensures q.Push(a).Clear() == q.Push(b).Clear()
  {
  }

  lemma OneLostEvent(q: Queue, c: ClientView, acts: seq<Activity>, ev: WAEvent)
    requires |Pushed(ev)| == 1
    ensures RunOps(acts + [Handle(ev), ClearAll, PollOne]) == RunOps(acts) + [PushOp(Pushed(ev)[0]), ClearOp, PollOp]
    ensures RunClient(c, acts + [Handle(ev), ClearAll, PollOne]) == RunClient(c, acts).Handle(ev)
  {
    var pushed := PushOp(Pushed(ev)[0]);
    assert PushOps(Pushed(ev)) == [pushed];
    hide Pushed, ClientView.Handle;
    var all := acts + [Handle(ev), ClearAll, PollOne];
    assert all[..|acts| + 2] == acts + [Handle(ev), ClearAll];
    assert (acts + [Handle(ev), ClearAll])[..|acts| + 1] == acts + [Handle(ev)];
    assert (acts + [Handle(ev)])[..|acts|] == acts;
    assert RunOps(acts + [Handle(ev)]) == RunOps(acts) + [pushed];
    assert RunOps(acts + [Handle(ev), ClearAll]) == RunOps(acts) + [pushed, ClearOp];
    assert RunClient(c, acts + [Handle(ev)]) == RunClient(c, acts).Handle(ev);
    assert RunClient(c, acts + [Handle(ev), ClearAll]) == RunClient(c, acts).Handle(ev);
  }

  /** Every run extends in two ways that give the same answers and end drained, but leave the client in
      different states. */
  lemma ClearedEventsLookAlike(q: Queue, c: ClientView, acts: seq<Activity>)
    requires Drained(q)
    ensures
      var a1 := acts + [Handle(EvKeepAliveRestored), ClearAll, PollOne];
      var a2 := acts + [Handle(EvStreamReplaced), ClearAll, PollOne];
      var r1, r2 := Exec(q, RunOps(a1)), Exec(q, RunOps(a2));
      && r1.seen == r2.seen && !Trustworthy(r1.seen)
      && r1.q.Poll().1.Nothing? && r2.q.Poll().1.Nothing?
      && RunClient(c, a1).state != RunClient(c, a2).state
  {
    var connected, replaced := EvKeepAliveRestored, EvStreamReplaced;
    var open, closed := ConnectionOpen, ConnectionClosed(ByStreamReplacement);
    assert Pushed(connected) == [open] && Pushed(replaced) == [closed];
    OneLostEvent(q, c, acts, connected);
    OneLostEvent(q, c, acts, replaced);
    assert RunClient(c, acts).Handle(connected).state != RunClient(c, acts).Handle(replaced).state;
    var before := Exec(q, RunOps(acts));
    LastReportIsNotTrusted(before.seen, before.q.Push(open).Clear().Poll().1);
    hide *;
    PushClearPoll(q, RunOps(acts), open);
    PushClearPoll(q, RunOps(acts), closed);
    ClearForgets(before.q, open, closed);
  }

  lemma LastReportIsNotTrusted(seen: seq<Polled>, p: Polled)
    ensures p.DropReport? ==> !Trustworthy(seen + [p])
  {
  }
}

/** The bounded, lossy event queue: its value-level specification, the class that implements it
    over a re-sliced buffer, and what a polling consumer can deduce from the answers alone. */
module EventQueues {
  import opened Events

  const DEFAULT_MAX_SIZE := 1000

  /** The abstract queue. */
  datatype Queue = Queue(
    maxSize: nat,
    events: seq<Event>,
    dropCount: nat,
    lastDropType: EventType,
    totalPushed: nat,
    totalPolled: nat,
    totalDropped: nat)
  {
    predicate Bounded() {
      |events| <= maxSize && 0 < maxSize
    }

    predicate Overflows() {
      |events| >= maxSize
    }

    function Push(e: Event): Queue
      requires 0 < maxSize
    {
      var q := this.(totalPushed := totalPushed + 1);
      var q := if Overflows() then
                 q.(events := events[1..],
                 lastDropType := TypeOf(events[0]),
                 dropCount := dropCount + 1,
                 totalDropped := totalDropped + 1)
               else q;
      q.(events := q.events + [e])
    }

    function PushAll(es: seq<Event>): (q: Queue)
      requires 0 < maxSize
      ensures q.maxSize == maxSize
      decreases |es|
    {
      if es == [] then this else PushAll(es[..|es| - 1]).Push(es[|es| - 1])
    }

    function Poll(): (Queue, Polled) {
      if dropCount > 0 then
        (this.(dropCount := 0, totalPolled := totalPolled + 1), DropReport(dropCount, lastDropType))
      else if events == [] then
        (this, Nothing)
      else
        (this.(events := events[1..], totalPolled := totalPolled + 1), Delivered(events[0]))
    }

    function Clear(): Queue {
      this.(events := [], dropCount := dropCount + |events|, totalDropped := totalDropped + |events|)
    }
  }

  function NewQueue(maxSize: int): (q: Queue)
    ensures q.Bounded()
  {
    Queue(if maxSize <= 0 then DEFAULT_MAX_SIZE else maxSize, [], 0, Unset, 0, 0, 0)
  }

  /** The queue over a Go slice: `data` is the backing array, `off` and `len` are the slice.
      Popping moves `off`; clearing resets `len` only; appending writes in place while the backing
      array has room and otherwise moves the live part to a larger array. */
  class EventQueue {
    var data: array<Event>
    var off: nat
    var len: nat
    const maxSize: nat
    var dropCount: nat
    var lastDropType: EventType
    var totalPushed: nat
    var totalPolled: nat
    var totalDropped: nat

    ghost predicate Valid()
      reads this
    {
      && off + len <= data.Length
      && len <= maxSize
      && 0 < maxSize
    }

    /** The slice. */
    ghost function Live(): (s: seq<Event>)
      requires off + len <= data.Length
      reads this`off, this`len, this`data, data
      ensures |s| == len
    {
      data[off..off + len]
    }

    ghost function View(): (q: Queue)
      requires Valid()
      reads this, data
      ensures q.Bounded()
    {
      Queue(maxSize, Live(), dropCount, lastDropType, totalPushed, totalPolled, totalDropped)
    }

    constructor (maxSize: int)
      ensures Valid() && fresh(data)
      ensures View() == NewQueue(maxSize)
    {
      var size := if maxSize <= 0 then DEFAULT_MAX_SIZE else maxSize;
      this.maxSize := size;
      data := new Event[size](_ => QRExpired);
      off, len := 0, 0;
      dropCount, lastDropType, totalPushed, totalPolled, totalDropped := 0, Unset, 0, 0, 0;
    }

    /** Reads the head of the slice and re-slices past it. */
    method PopFront() returns (e: Event)
      requires off + len <= data.Length && 0 < len
      modifies this`off, this`len
      ensures off + len <= data.Length
      ensures e == old(Live())[0] && Live() == old(Live())[1..]
    {
      e := data[off];
      off, len := off + 1, len - 1;
    }

    /** The append of Go: `grown` is whatever capacity the runtime picks when it must reallocate. */
    method Append(e: Event, grown: nat)
      requires off + len <= data.Length && len < grown
      modifies this`data, this`off, this`len, data
      ensures off + len <= data.Length
      ensures Live() == old(Live()) + [e]
      ensures data == old(data) || fresh(data)
    {
      if off + len == data.Length {
        var bigger := new Event[grown](_ => QRExpired);
        for i := 0 to len
          invariant unchanged(this) && unchanged(data)
          invariant bigger[..i] == data[off..off + i]
        {
          bigger[i] := data[off + i];
        }
        data, off := bigger, 0;
      }
      data[off + len] := e;
      len := len + 1;
    }

    method Push(e: Event)
      requires Valid()
      modifies this, data
      ensures Valid() && (data == old(data) || fresh(data))
      ensures View() == old(View()).Push(e)
    {
      hide Live;
      totalPushed := totalPushed + 1;
      if len >= maxSize {
        var dropped := PopFront();
        lastDropType := TypeOf(dropped);
        dropCount := dropCount + 1;
        totalDropped := totalDropped + 1;
      }
      var grown: nat :| len < grown;
      Append(e, grown);
    }

    method Poll() returns (answer: Polled)
      requires Valid()
      modifies this
      ensures Valid() && data == old(data)
      ensures (View(), answer) == old(View()).Poll()
    {
      hide Live;
      var drops := dropCount;
      dropCount := 0;
      if drops > 0 {
        totalPolled := totalPolled + 1;
        return DropReport(drops, lastDropType);
      }
      if len == 0 {
        return Nothing;
      }
      var event := PopFront();
      totalPolled := totalPolled + 1;
      return Delivered(event);
    }

    method Size() returns (n: nat)
      requires Valid()
      ensures n == |View().events|
    {
      n := len;
    }

    method Clear()
      requires Valid()
      modifies this
      ensures Valid() && data == old(data)
      ensures View() == old(View()).Clear()
    {
      var cleared := len;
      if cleared > 0 {
        dropCount := dropCount + cleared;
        totalDropped := totalDropped + cleared;
      }
      len := 0;
    }
  }

  // ---------- Runs ----------

  datatype Op = PushOp(event: Event) | PollOp | ClearOp

  /** A queue together with its observable past: every event pushed, every answer given, and the
      positions in `history` of the events that were thrown away. */
  datatype Run = Run(q: Queue, history: seq<Event>, seen: seq<Polled>, lost: set<int>)

  predicate Between(lo: int, i: int, hi: int) {
    lo <= i < hi
  }

  ghost function Interval(lo: int, hi: int): set<int> {
    set i | lo <= i < hi && Between(lo, i, hi)
  }

  ghost function Step(r: Run, op: Op): Run
    requires 0 < r.q.maxSize
  {
    match op
    case PushOp(e) =>
      Run(r.q.Push(e), r.history + [e], r.seen,
          if r.q.Overflows() then r.lost + {|r.history| - |r.q.events|} else r.lost)
    case PollOp =>
      Run(r.q.Poll().0, r.history, r.seen + [r.q.Poll().1], r.lost)
    case ClearOp =>
      Run(r.q.Clear(), r.history, r.seen, r.lost + Interval(|r.history| - |r.q.events|, |r.history|))
  }

  ghost function Exec(q: Queue, ops: seq<Op>): (r: Run)
    requires 0 < q.maxSize
    ensures r.q.maxSize == q.maxSize
    decreases |ops|
  {
    if ops == [] then Run(q, [], [], {}) else Step(Exec(q, ops[..|ops| - 1]), ops[|ops| - 1])
  }

  // ---------- What a consumer computes from the answers ----------

  /** How far one answer moves the consumer's position in the push order. */
  function Advance(p: Polled): nat {
    match p
    case Nothing => 0
    case Delivered(_) => 1
    case DropReport(n, _) => n
  }

  /** The push position just past everything delivered or reported lost in `seen`. */
  function Cursor(seen: seq<Polled>): nat {
    if seen == [] then 0 else Cursor(seen[..|seen| - 1]) + Advance(seen[|seen| - 1])
  }

  /** The positions that the drop reports in `seen` say were lost. */
  ghost function Holes(seen: seq<Polled>): set<int> {
    if seen == [] then {} else
      var before := seen[..|seen| - 1];
      var last := seen[|seen| - 1];
      if last.DropReport? then Holes(before) + Interval(Cursor(before), Cursor(before) + last.count)
      else Holes(before)
  }

  function Reported(seen: seq<Polled>): nat {
    if seen == [] then 0 else
      var last := seen[|seen| - 1];
      Reported(seen[..|seen| - 1]) + if last.DropReport? then last.count else 0
  }

  function Answers(seen: seq<Polled>): nat {
    if seen == [] then 0 else Answers(seen[..|seen| - 1]) + if seen[|seen| - 1].Nothing? then 0 else 1
  }

  function Reports(seen: seq<Polled>): nat {
    if seen == [] then 0 else Reports(seen[..|seen| - 1]) + if seen[|seen| - 1].DropReport? then 1 else 0
  }

  lemma {:induction false} CursorSnoc(seen: seq<Polled>, p: Polled)
    ensures Cursor(seen + [p]) == Cursor(seen) + Advance(p)
  {
    assert (seen + [p])[..|seen|] == seen;
  }

  /** What holds in every state of a run that starts drained. */
  ghost predicate Placed(r: Run) {
    && r.q.Bounded()
    && Cursor(r.seen) + r.q.dropCount + |r.q.events| == |r.history|
    && r.q.events == r.history[|r.history| - |r.q.events|..]
    && r.lost == Holes(r.seen) + Interval(Cursor(r.seen), Cursor(r.seen) + r.q.dropCount)
    && (forall k :: 0 <= k < |r.seen| && r.seen[k].Delivered? ==>
          Cursor(r.seen[..k]) < |r.history| && r.history[Cursor(r.seen[..k])] == r.seen[k].event)
  }

  predicate Drained(q: Queue) {
    q.Bounded() && q.events == [] && q.dropCount == 0
  }

  lemma PollKeepsPlaced(r: Run)
    requires Placed(r)
    ensures Placed(Step(r, PollOp))
  {
    var answer := r.q.Poll().1;
    var s := Step(r, PollOp);
    CursorSnoc(r.seen, answer);
    assert s.seen[..|r.seen|] == r.seen;
    if answer.Delivered? {
      assert s.q.events == r.history[|r.history| - |r.q.events|..][1..];
    }
    forall k | 0 <= k < |s.seen| && s.seen[k].Delivered?
      ensures Cursor(s.seen[..k]) < |s.history| && s.history[Cursor(s.seen[..k])] == s.seen[k].event
    {
      if k < |r.seen| {
        assert s.seen[..k] == r.seen[..k];
        assert r.seen[k] == s.seen[k];
      }
    }
  }

  lemma StepKeepsPlaced(r: Run, op: Op)
    requires Placed(r)
    ensures Placed(Step(r, op))
  {
    match op
    case PollOp => PollKeepsPlaced(r);
    case PushOp(e) => PushKeepsPlaced(r, e);
    case ClearOp => ClearKeepsPlaced(r);
  }

  lemma PushKeepsPlaced(r: Run, e: Event)
    requires Placed(r)
    ensures Placed(Step(r, PushOp(e)))
  {
    hide TypeOf, Cursor, Holes;
    var h := r.history + [e];
    assert r.q.events + [e] == h[|r.history| - |r.q.events|..];
  }

  lemma ClearKeepsPlaced(r: Run)
    requires Placed(r)
    ensures Placed(Step(r, ClearOp))
  {
    hide TypeOf, Cursor, Holes;
  }

  lemma StartPlaced(q: Queue)
    requires Drained(q)
    ensures Placed(Run(q, [], [], {}))
  {
  }

  /** EXACT GAP RECONSTRUCTION.  After any operations on a drained queue: the queue is a suffix of
      the push history; every delivered event sits in the push order exactly where the consumer's
      own count puts it; and the events lost are exactly the reported holes plus the ones still
      waiting to be reported. */
  lemma {:induction false} ExactGapReconstruction(q: Queue, ops: seq<Op>)
    requires Drained(q)
    ensures Placed(Exec(q, ops))
    decreases |ops|
  {
    hide Step, Placed;
    if ops == [] {
      StartPlaced(q);
    } else {
      ExactGapReconstruction(q, ops[..|ops| - 1]);
      StepKeepsPlaced(Exec(q, ops[..|ops| - 1]), ops[|ops| - 1]);
    }
  }

  /** Later answers lie at later positions, and no answer lies in a hole reported before or after it. */
  lemma {:induction false} DeliveryPreservesOrder(seen: seq<Polled>, i: nat, j: nat)
    requires i < j < |seen| && seen[i].Delivered?
    ensures Cursor(seen[..i]) < Cursor(seen[..j]) <= Cursor(seen)
    decreases |seen|
  {
    var before := seen[..|seen| - 1];
    if j == |seen| - 1 {
      CursorMonotone(before, i + 1);
      assert before[..i + 1] == seen[..i] + [seen[i]];
      CursorSnoc(seen[..i], seen[i]);
    } else {
      DeliveryPreservesOrder(before, i, j);
      assert before[..i] == seen[..i] && before[..j] == seen[..j];
    }
  }

  lemma {:induction false} CursorMonotone(seen: seq<Polled>, k: nat)
    requires k <= |seen|
    ensures Cursor(seen[..k]) <= Cursor(seen)
    decreases |seen|
  {
    if k == |seen| {
      assert seen[..k] == seen;
    } else {
      CursorMonotone(seen[..|seen| - 1], k);
      assert seen[..|seen| - 1][..k] == seen[..k];
    }
  }

  lemma {:induction false} HolesBelowCursor(seen: seq<Polled>)
    ensures forall i :: i in Holes(seen) ==> i < Cursor(seen)
    decreases |seen|
  {
    if seen != [] {
      HolesBelowCursor(seen[..|seen| - 1]);
    }
  }

  lemma {:induction false} DeliveredIsNoHole(seen: seq<Polled>, k: nat)
    requires k < |seen| && seen[k].Delivered?
    ensures Cursor(seen[..k]) !in Holes(seen)
    decreases |seen|
  {
    var before := seen[..|seen| - 1];
    if k == |seen| - 1 {
      HolesBelowCursor(before);
    } else {
      DeliveredIsNoHole(before, k);
      assert before[..k] == seen[..k];
      DeliveryPreservesOrder(seen, k, |seen| - 1);
    }
  }

  /** The delivered events and the lost events never overlap. */
  lemma DeliveredWasNotLost(q: Queue, ops: seq<Op>, k: nat)
    requires Drained(q)
    requires k < |Exec(q, ops).seen| && Exec(q, ops).seen[k].Delivered?
    ensures Cursor(Exec(q, ops).seen[..k]) !in Exec(q, ops).lost
  {
    hide Exec, Step;
    var r := Exec(q, ops);
    ExactGapReconstruction(q, ops);
    DeliveredIsNoHole(r.seen, k);
    CursorMonotone(r.seen, k + 1);
    assert r.seen[..k + 1] == r.seen[..k] + [r.seen[k]];
    CursorSnoc(r.seen[..k], r.seen[k]);
  }

  /** A poll that answers "nothing" tells the consumer exactly how many events were ever pushed. */
  lemma EmptyPollMeansCaughtUp(q: Queue, ops: seq<Op>)
    requires Drained(q)
    ensures Exec(q, ops).q.Poll().1.Nothing? <==>
            Cursor(Exec(q, ops).seen) == |Exec(q, ops).history|
  {
    hide Exec, Step;
    ExactGapReconstruction(q, ops);
  }

  ghost predicate Conserved(r: Run) {
    && r.q.Bounded()
    && r.q.totalPushed == |r.history|
    && r.q.totalPolled == Answers(r.seen)
    && r.q.totalDropped == Reported(r.seen) + r.q.dropCount
    && r.q.totalPushed + Reports(r.seen) == |r.q.events| + r.q.totalDropped + r.q.totalPolled
  }

  /** CONSERVATION.  Every event pushed into a new queue is still queued, was dropped, or was polled
      by an answer that is not a drop notification; and every drop is reported or pending. */
  lemma {:induction false} Conservation(maxSize: int, ops: seq<Op>)
    ensures Conserved(Exec(NewQueue(maxSize), ops))
    decreases |ops|
  {
    if ops != [] {
      var r := Exec(NewQueue(maxSize), ops[..|ops| - 1]);
      Conservation(maxSize, ops[..|ops| - 1]);
      var answer := r.q.Poll().1;
      assert (r.seen + [answer])[..|r.seen|] == r.seen;
    }
  }

  /** The queue holds the latest of the events pushed, and counts the others as dropped. */
  ghost predicate Latest(q: Queue, kept: nat, es: seq<Event>) {
    && q.maxSize == kept && q.totalPushed == |es|
    && q.events == (if |es| <= kept then es else es[|es| - kept..])
    && q.dropCount == q.totalDropped == |es| - |q.events|
  }

  lemma PushKeepsLatest(q: Queue, kept: nat, es: seq<Event>, e: Event)
    requires 0 < kept && Latest(q, kept, es)
    ensures Latest(q.Push(e), kept, es + [e])
  {
    hide TypeOf;
    var q', all := q.Push(e), es + [e];
    if |es| < kept {
      assert q'.events == all;
    } else {
      assert q.events[1..] + [e] == all[|all| - kept..];
    }
  }

  /** A new queue keeps the latest events, as many as it was made for, or a thousand if that is no
      number of events. */
  lemma {:induction false} KeepsLatest(maxSize: int, es: seq<Event>)
    ensures Latest(NewQueue(maxSize).PushAll(es), if maxSize <= 0 then 1000 else maxSize, es)
    decreases |es|
  {
    if es != [] {
      var before, last := es[..|es| - 1], es[|es| - 1];
      assert es == before + [last];
      hide Latest, Queue.Push;
      KeepsLatest(maxSize, before);
      PushKeepsLatest(NewQueue(maxSize).PushAll(before), if maxSize <= 0 then 1000 else maxSize, before, last);
    }
  }

  // ---------- The type named in a drop report ----------

  /** The answer `seen[k]`, if a drop report, names the type of the last event of its hole. */
  ghost predicate ReportRight(history: seq<Event>, seen: seq<Polled>, k: nat)
    requires k < |seen|
  {
    seen[k].DropReport? ==>
      var last := Cursor(seen[..k]) + seen[k].count - 1;
      0 <= last < |history| && seen[k].oldestType == TypeOf(history[last])
  }

  ghost predicate PendingRight(r: Run) {
    r.q.dropCount > 0 ==>
      var last := |r.history| - |r.q.events| - 1;
      0 <= last < |r.history| && r.q.lastDropType == TypeOf(r.history[last])
  }

  ghost predicate NamesLastLost(r: Run) {
    && PendingRight(r)
    && (forall k :: 0 <= k < |r.seen| ==> ReportRight(r.history, r.seen, k))
  }

  lemma PollNamesLastLost(r: Run)
    requires r.q.Bounded()
    requires Cursor(r.seen) + r.q.dropCount + |r.q.events| == |r.history| && NamesLastLost(r)
    ensures NamesLastLost(Step(r, PollOp))
  {
    var s := Step(r, PollOp);
    forall k | 0 <= k < |s.seen|
      ensures ReportRight(s.history, s.seen, k)
    {
      if k < |r.seen| {
        assert ReportRight(r.history, r.seen, k);
        assert s.seen[..k] == r.seen[..k];
      } else {
        assert s.seen[..k] == r.seen;
      }
    }
  }

  lemma PushNamesLastLost(r: Run, e: Event)
    requires r.q.Bounded() && |r.q.events| <= |r.history|
    requires r.q.events == r.history[|r.history| - |r.q.events|..]
    requires NamesLastLost(r)
    ensures NamesLastLost(Step(r, PushOp(e)))
  {
    var s := Step(r, PushOp(e));
    assert PendingRight(s);
    forall k | 0 <= k < |s.seen|
      ensures ReportRight(s.history, s.seen, k)
    {
      assert ReportRight(r.history, r.seen, k);
    }
  }

  /** A clear leaves the recorded type right iff it throws nothing away, or the last event it throws
      away happens to have the recorded type. */
  predicate HarmlessClear(q: Queue) {
    q.events == [] || TypeOf(q.events[|q.events| - 1]) == q.lastDropType
  }

  lemma ClearNamesLastLostIff(r: Run)
    requires Placed(r) && NamesLastLost(r)
    ensures NamesLastLost(Step(r, ClearOp)) <==> HarmlessClear(r.q)
  {
    hide TypeOf;
    var s := Step(r, ClearOp);
    assert r.q.events != [] ==> r.q.events[|r.q.events| - 1] == r.history[|r.history| - 1];
    forall k | 0 <= k < |s.seen|
      ensures ReportRight(s.history, s.seen, k)
    {
      assert ReportRight(r.history, r.seen, k);
    }
    assert PendingRight(s) <==> HarmlessClear(r.q);
  }

  /** Every clear in the run is harmless where it happens. */
  ghost predicate ClearsHarmless(q: Queue, ops: seq<Op>)
    requires 0 < q.maxSize
    decreases |ops|
  {
    ops == [] ||
    var before := ops[..|ops| - 1];
    ClearsHarmless(q, before) && (ops[|ops| - 1].ClearOp? ==> HarmlessClear(Exec(q, before).q))
  }

  ghost predicate AlwaysNamesLastLost(q: Queue, ops: seq<Op>)
    requires 0 < q.maxSize
    decreases |ops|
  {
    && NamesLastLost(Exec(q, ops))
    && (ops == [] || AlwaysNamesLastLost(q, ops[..|ops| - 1]))
  }

  /** THE TYPE IN A DROP REPORT.  Throughout a run, every report (and the one still pending) names the
      type of the last event of its hole, exactly if every clear in the run is harmless. */
  lemma {:induction false} ReportsNameLastLostIff(q: Queue, ops: seq<Op>)
    requires Drained(q)
    ensures AlwaysNamesLastLost(q, ops) <==> ClearsHarmless(q, ops)
    decreases |ops|
  {
    if ops != [] {
      var before, op := ops[..|ops| - 1], ops[|ops| - 1];
      var r := Exec(q, before);
      ReportsNameLastLostIff(q, before);
      ExactGapReconstruction(q, before);
      if AlwaysNamesLastLost(q, before) {
        hide NamesLastLost, HarmlessClear;
        match op
        case PollOp => PollNamesLastLost(r);
        case PushOp(e) => PushNamesLastLost(r, e);
        case ClearOp => ClearNamesLastLostIff(r);
      }
    }
  }

  /** Without clears, in particular, a report is never wrong. */
  lemma {:induction false} NoClearsHarmless(q: Queue, ops: seq<Op>)
    requires Drained(q) && ClearOp !in ops
    ensures ClearsHarmless(q, ops) && NamesLastLost(Exec(q, ops))
    decreases |ops|
  {
    ReportsNameLastLostIff(q, ops);
    if ops != [] {
      assert ops[|ops| - 1] in ops;
      NoClearsHarmless(q, ops[..|ops| - 1]);
    }
  }
}

/** Any number of threads racing through Engine.Start, one atomic access at a time.  No other
    operation touches the engine state meanwhile. */
module StartRace {
  import opened States
  import opened Engines

  /** Where a thread is: about to load the state, holding a loaded value, between the winning
      compare-and-swap and the final store, or done (`winner` if it went through that interval). */
  datatype Pc = Ready | Loaded(seen: EngineState) | Won | Returned(winner: bool)

  /** `seenAt` is the number of state changes the thread is known to have observed. */
  datatype Thread = Thread(pc: Pc, seenAt: nat, failures: nat, steps: nat)

  datatype Race = Race(state: EngineState, threads: map<nat, Thread>, changes: nat)

  datatype Outcome = Unpaired | ConnectFailed | ConnectSucceeded

  datatype Op = Load(t: nat) | Cas(t: nat) | Finish(t: nat, outcome: Outcome)

  predicate ReturnsEarly(s: EngineState) {
    s.Running? || s.Starting? || s.EnginePairing?
  }

  predicate Enabled(r: Race, op: Op) {
    op.t in r.threads &&
    match op
    case Load(t) => r.threads[t].pc.Ready?
    case Cas(t) => r.threads[t].pc.Loaded?
    case Finish(t, _) => r.threads[t].pc.Won?
  }

  function Step(r: Race, op: Op): Race {
    if !Enabled(r, op) then r else
      var th := r.threads[op.t].(steps := r.threads[op.t].steps + 1);
      match op
      case Load(t) =>
        var pc := if ReturnsEarly(r.state) then Returned(false) else Loaded(r.state);
        r.(threads := r.threads[t := th.(pc := pc, seenAt := r.changes)])
      case Cas(t) =>
        if r.state == th.pc.seen then
          Race(Starting, r.threads[t := th.(pc := Won)], r.changes + 1)
        else
          r.(threads := r.threads[t := th.(pc := Ready, seenAt := th.seenAt + 1, failures := th.failures + 1)])
      case Finish(t, outcome) =>
        var final := if outcome.ConnectSucceeded? then Running else Stopped;
        Race(final, r.threads[t := th.(pc := Returned(true))], r.changes + 1)
  }

  function Exec(r: Race, ops: seq<Op>): Race
    decreases |ops|
  {
    if ops == [] then r else Step(Exec(r, ops[..|ops| - 1]), ops[|ops| - 1])
  }

  /** Nobody is starting, and all threads are about to call Start. */
  ghost predicate Initial(r: Race) {
    && !r.state.Starting? && r.changes == 0
    && forall t :: t in r.threads ==> r.threads[t] == Thread(Ready, 0, 0, 0)
  }

  ghost predicate InCritical(r: Race, t: nat) {
    t in r.threads && r.threads[t].pc.Won?
  }

  ghost function Winners(r: Race): set<nat> {
    set t | t in r.threads && (r.threads[t].pc.Won? || r.threads[t].pc == Returned(true))
  }

  function Phase(pc: Pc): nat {
    match pc
    case Ready => 0
    case Loaded(_) => 1
    case Won => 2
    case Returned(winner) => if winner then 3 else 1
  }

  /** Each failed swap of a thread is paid for by a state change made since its load. */
  ghost predicate ThreadInv(r: Race, th: Thread) {
    && th.failures <= th.seenAt <= r.changes
    && th.steps <= 2 * th.failures + Phase(th.pc)
    && (th.pc.Loaded? ==> !ReturnsEarly(th.pc.seen) && (th.seenAt == r.changes ==> th.pc.seen == r.state))
  }

  ghost predicate ThreadsInv(r: Race) {
    forall t :: t in r.threads ==> ThreadInv(r, r.threads[t])
  }

  ghost predicate CriticalInv(r: Race) {
    && (r.state.Starting? <==> exists t :: InCritical(r, t))
    && (forall t, u :: InCritical(r, t) && InCritical(r, u) ==> t == u)
  }

  ghost predicate CountInv(r: Race) {
    r.changes == 2 * |Winners(r)| - (if r.state.Starting? then 1 else 0)
  }

  ghost predicate RaceInv(r: Race) {
    ThreadsInv(r) && CriticalInv(r) && CountInv(r)
  }

  lemma InitialInv(r: Race)
    requires Initial(r)
    ensures RaceInv(r)
  {
    assert Winners(r) == {};
  }

  lemma StepKeepsThreads(r: Race, op: Op)
    requires ThreadsInv(r)
    ensures ThreadsInv(Step(r, op))
  {
    var s := Step(r, op);
    forall u | u in s.threads
      ensures ThreadInv(s, s.threads[u])
    {
      assert ThreadInv(r, r.threads[u]);
    }
  }

  lemma StepKeepsCritical(r: Race, op: Op)
    requires ThreadsInv(r) && CriticalInv(r) && Enabled(r, op)
    ensures CriticalInv(Step(r, op))
  {
    var s, t := Step(r, op), op.t;
    assert ThreadInv(r, r.threads[t]);
    assert forall u :: u != t ==> InCritical(s, u) == InCritical(r, u);
    match op
    case Load(_) => assert InCritical(s, t) == InCritical(r, t);
    case Cas(_) =>
      assert !InCritical(r, t);
      if r.state == r.threads[t].pc.seen {
        assert forall u :: !InCritical(r, u);
        assert InCritical(s, t);
      } else {
        assert !InCritical(s, t);
      }
    case Finish(_, _) =>
      assert InCritical(r, t);
      assert forall u :: !InCritical(s, u);
  }

  lemma StepKeepsCount(r: Race, op: Op)
    requires ThreadsInv(r) && CriticalInv(r) && CountInv(r) && Enabled(r, op)
    ensures CountInv(Step(r, op))
  {
    var s, t := Step(r, op), op.t;
    assert ThreadInv(r, r.threads[t]);
    if op.Cas? && r.state == r.threads[t].pc.seen {
      assert Winners(s) == Winners(r) + {t} && t !in Winners(r);
    } else {
      assert Winners(s) == Winners(r);
      assert op.Finish? ==> InCritical(r, t);
    }
  }

  lemma StepKeepsRaceInv(r: Race, op: Op)
    requires RaceInv(r)
    ensures RaceInv(Step(r, op))
  {
    if Enabled(r, op) {
      StepKeepsThreads(r, op);
      StepKeepsCritical(r, op);
      StepKeepsCount(r, op);
    }
  }

  lemma {:induction false} AlwaysRaceInv(r: Race, ops: seq<Op>)
    requires Initial(r)
    ensures RaceInv(Exec(r, ops)) && Exec(r, ops).threads.Keys == r.threads.Keys
    decreases |ops|
  {
    if ops == [] {
      InitialInv(r);
    } else {
      AlwaysRaceInv(r, ops[..|ops| - 1]);
      StepKeepsRaceInv(Exec(r, ops[..|ops| - 1]), ops[|ops| - 1]);
    }
  }

  /** RACING START.  At most one thread is ever between its winning swap and its final store, and
      the engine is Starting exactly while there is one: calls to the client's Connect never overlap. */
  lemma ConnectsNeverOverlap(r: Race, ops: seq<Op>)
    requires Initial(r)
    ensures
      var e := Exec(r, ops);
      && (e.state.Starting? <==> exists t :: InCritical(e, t))
      && (forall t, u :: InCritical(e, t) && InCritical(e, u) ==> t == u)
  {
    AlwaysRaceInv(r, ops);
  }

  /** The retry recursion terminates: with n threads there are at most 2n state changes, no thread
      fails more swaps than that, and no thread ever takes more than 4n + 3 steps. */
  lemma RetriesAreBounded(r: Race, ops: seq<Op>, t: nat)
    requires Initial(r) && t in r.threads
    ensures
      var e := Exec(r, ops);
      && t in e.threads
      && e.threads[t].failures <= e.changes <= 2 * |r.threads|
      && e.threads[t].steps <= 4 * |r.threads| + 3
  {
    AlwaysRaceInv(r, ops);
    var e := Exec(r, ops);
    SubsetSize(Winners(e), e.threads.Keys);
    assert ThreadInv(e, e.threads[t]);
  }

  lemma {:induction false} SubsetSize(a: set<nat>, b: set<nat>)
    requires a <= b
    ensures |a| <= |b|
  {
    assert b == a + (b - a);
  }

  /** Every thread that has not returned can take a step, so the race ends with all of them
      returned, and then nobody has left the engine in Starting. */
  lemma RaceEndsSettled(r: Race, ops: seq<Op>)
    requires Initial(r)
    requires forall op :: !Enabled(Exec(r, ops), op)
    ensures
      var e := Exec(r, ops);
      && !e.state.Starting?
      && forall t :: t in e.threads ==> e.threads[t].pc.Returned?
  {
    AlwaysRaceInv(r, ops);
    var e := Exec(r, ops);
    forall t | t in e.threads
      ensures e.threads[t].pc.Returned?
    {
      assert !Enabled(e, Load(t)) && !Enabled(e, Cas(t)) && !Enabled(e, Finish(t, ConnectFailed));
    }
  }

  /** How the winner's store comes out for engine `e`. */
  function OutcomeOf(e: EngineView, connects: bool): Outcome {
    if !e.paired then Unpaired
    else if e.client.Connect(e.paired, connects).1.Ok? then ConnectSucceeded
    else ConnectFailed
  }

  /** A thread that runs alone takes the engine where the atomic Start takes it. */
  lemma SoloRaceIsStart(e: EngineView, connects: bool)
    requires !e.state.Starting?
    ensures
      var r := Race(e.state, map[0 := Thread(Ready, 0, 0, 0)], 0);
      Exec(r, [Load(0), Cas(0), Finish(0, OutcomeOf(e, connects))]).state == e.Start(connects).0.state
  {
    var r := Race(e.state, map[0 := Thread(Ready, 0, 0, 0)], 0);
    var ops := [Load(0), Cas(0), Finish(0, OutcomeOf(e, connects))];
    assert ops[..2] == [Load(0), Cas(0)] && ops[..2][..1] == [Load(0)] && [Load(0)][..0] == [];
    assert Exec(r, [Load(0)]) == Step(r, Load(0));
    assert Exec(r, ops[..2]) == Step(Step(r, Load(0)), Cas(0));
  }
}

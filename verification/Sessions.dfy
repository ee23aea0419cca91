/** The session table: a bounded map of engines over a directory tree.

    One step is one critical section of the manager's lock (or one call on an engine, which runs
    outside it), so every interleaving of API calls is a sequence of steps. */
module Sessions {
  import opened States
  import opened Clients
  import opened Engines

  const MAX_SESSIONS := 10

  /** A session name, taken as one path segment: different names are different directories. */
  datatype Name = Name(segment: string)

  /** A file in a session directory: `wa.db`, which discovery looks for; `whatsapp.db`, which the
      storage layer opens and creates; anything else. */
  datatype File = WaDb | WhatsappDb | OtherFile(file: nat)

  /** `linked` is what the database says about the device stored in it. */
  datatype Directory = Directory(files: set<File>, linked: bool)

  /** `disk` maps each session name to its directory, if there is one. */
  datatype Manager = Manager(
    sessions: map<Name, EngineView>,
    disk: map<Name, Directory>,
    preSleep: seq<Name>,
    nextId: nat)

  function NewManager(disk: map<Name, Directory>): Manager {
    Manager(map[], disk, [], 0)
  }

  /** The environment's answers when a directory is made and an engine opened in it. */
  datatype Creation = Creation(mkdir: bool, opens: bool)

  datatype Section =
    | ResetUnpaired(name: Name, removed: bool)
    | GetOrCreate(name: Name, env: Creation)
    | Remove(name: Name, removed: bool)
    | LogoutRemove(name: Name, loggedOut: bool, removed: bool)
    | On(name: Name, call: Call)

  // ---------- Sections ----------

  function WithoutDir(disk: map<Name, Directory>, name: Name, removed: bool): map<Name, Directory> {
    if removed then disk - {name} else disk
  }

  /** The directory is there, as it was if it was there already. */
  function WithDir(disk: map<Name, Directory>, name: Name): map<Name, Directory> {
    if name in disk then disk else disk[name := Directory({}, false)]
  }

  /** The directory holds a database with a device that is linked or not. */
  function WithDb(disk: map<Name, Directory>, name: Name, linked: bool): map<Name, Directory> {
    disk[name := Directory((if name in disk then disk[name].files else {}) + {WhatsappDb}, linked)]
  }

  predicate HasDb(disk: map<Name, Directory>, name: Name) {
    name in disk && WhatsappDb in disk[name].files
  }

  predicate Linked(disk: map<Name, Directory>, name: Name) {
    HasDb(disk, name) && disk[name].linked
  }

  function Unlink(disk: map<Name, Directory>, name: Name): map<Name, Directory> {
    if name in disk then disk[name := disk[name].(linked := false)] else disk
  }

  function DoReset(m: Manager, name: Name, removed: bool): Manager {
    if name in m.sessions && !m.sessions[name].paired
    then m.(sessions := m.sessions - {name}, disk := WithoutDir(m.disk, name, removed))
    else m
  }

  function DoGetOrCreate(m: Manager, name: Name, env: Creation): (Manager, Result<()>) {
    if name in m.sessions then (m, Ok(()))
    else if |m.sessions| >= MAX_SESSIONS then (m, Err(MaxSessionsExceeded))
    else if !env.mkdir then (m, Err(StorageFailed))
    else
      if !env.opens then (m.(disk := WithDir(m.disk, name)), Err(StorageFailed))
      else
        var linked := Linked(m.disk, name);
        (m.(sessions := m.sessions[name := NewEngine(m.nextId, linked)], disk := WithDb(m.disk, name, linked),
         nextId := m.nextId + 1), Ok(()))
  }

  function DoRemove(m: Manager, name: Name, removed: bool): (Manager, Result<()>) {
    if name !in m.sessions then (m, Err(SessionNotFound))
    else (m.(sessions := m.sessions - {name}, disk := WithoutDir(m.disk, name, removed)),
          if removed then Ok(()) else Err(StorageFailed))
  }

  function DoLogoutRemove(m: Manager, name: Name, loggedOut: bool, removed: bool): (Manager, Result<()>) {
    if name !in m.sessions then (m, Err(SessionNotFound))
    else
      var unlinked := loggedOut && m.sessions[name].client.state.Connected?;
      var disk := if unlinked then Unlink(m.disk, name) else m.disk;
      DoRemove(m.(disk := disk), name, removed)
  }

  /** A call on the engine mapped to `name`; what it does to the stored device is on disk at once. */
  function DoOn(m: Manager, name: Name, call: Call): Manager {
    if name !in m.sessions then m else
      var e := m.sessions[name].Perform(call);
      m.(sessions := m.sessions[name := e], disk := WithDb(m.disk, name, e.paired))
  }

  function Step(m: Manager, s: Section): Manager {
    match s
    case ResetUnpaired(name, removed) => DoReset(m, name, removed)
    case GetOrCreate(name, env) => DoGetOrCreate(m, name, env).0
    case Remove(name, removed) => DoRemove(m, name, removed).0
    case LogoutRemove(name, loggedOut, removed) => DoLogoutRemove(m, name, loggedOut, removed).0
    case On(name, call) => DoOn(m, name, call)
  }

  function Exec(m: Manager, steps: seq<Section>): Manager
    decreases |steps|
  {
    if steps == [] then m else Step(Exec(m, steps[..|steps| - 1]), steps[|steps| - 1])
  }

  // ---------- The table invariant ----------

  ghost predicate DiskAgrees(sessions: map<Name, EngineView>, disk: map<Name, Directory>) {
    forall n :: n in sessions ==> HasDb(disk, n) && disk[n].linked == sessions[n].paired
  }

  ghost predicate IdBelow(sessions: map<Name, EngineView>, next: nat, n: Name)
    requires n in sessions
  {
    sessions[n].id < next
  }

  ghost predicate SameEngine(sessions: map<Name, EngineView>, a: Name, b: Name)
    requires a in sessions && b in sessions
  {
    sessions[a].id == sessions[b].id
  }

  ghost predicate IdsUnique(sessions: map<Name, EngineView>, next: nat) {
    && (forall n :: n in sessions ==> IdBelow(sessions, next, n))
    && (forall a, b :: a in sessions && b in sessions && SameEngine(sessions, a, b) ==> a == b)
  }

  ghost predicate TableInv(m: Manager) {
    |m.sessions| <= MAX_SESSIONS && DiskAgrees(m.sessions, m.disk) && IdsUnique(m.sessions, m.nextId)
  }

  lemma PerformKeepsId(e: EngineView, call: Call)
    ensures e.Perform(call).id == e.id
  {
  }

  lemma UnmapKeepsTable(m: Manager, name: Name, disk: map<Name, Directory>)
    requires TableInv(m)
    requires forall n :: n in m.disk && n != name ==> n in disk && disk[n] == m.disk[n]
    ensures TableInv(m.(sessions := m.sessions - {name}, disk := disk))
  {
    var sessions := m.sessions - {name};
    assert sessions.Keys == m.sessions.Keys - {name};
    forall a, b | a in sessions && b in sessions && SameEngine(sessions, a, b)
      ensures a == b
    {
      assert SameEngine(m.sessions, a, b);
    }
    assert forall n :: n in sessions ==> IdBelow(m.sessions, m.nextId, n);
  }

  lemma MapKeepsIds(sessions: map<Name, EngineView>, before: nat, name: Name, e: EngineView, next: nat)
    requires IdsUnique(sessions, before)
    requires if name in sessions then e.id == sessions[name].id && next == before
             else e.id == before && next == before + 1
    ensures IdsUnique(sessions[name := e], next)
  {
    var after := sessions[name := e];
    forall n | n in after
      ensures IdBelow(after, next, n)
      ensures n != name ==> n in sessions && IdBelow(sessions, before, n)
    {
      assert n in sessions ==> IdBelow(sessions, before, n);
    }
    forall a, b | a in after && b in after && SameEngine(after, a, b)
      ensures a == b
    {
      if a in sessions && b in sessions {
        assert SameEngine(sessions, a, b);
      }
    }
  }

  lemma MapKeepsDisk(sessions: map<Name, EngineView>, disk: map<Name, Directory>, name: Name, e: EngineView)
    requires DiskAgrees(sessions, disk)
    ensures DiskAgrees(sessions[name := e], WithDb(disk, name, e.paired))
  {
  }

  lemma MapKeepsTable(m: Manager, name: Name, e: EngineView, next: nat)
    requires TableInv(m)
    requires if name in m.sessions then e.id == m.sessions[name].id && next == m.nextId
             else |m.sessions| < MAX_SESSIONS && e.id == m.nextId && next == m.nextId + 1
    ensures TableInv(m.(sessions := m.sessions[name := e], disk := WithDb(m.disk, name, e.paired), nextId := next))
  {
    assert m.sessions[name := e].Keys == m.sessions.Keys + {name};
    MapKeepsIds(m.sessions, m.nextId, name, e, next);
    MapKeepsDisk(m.sessions, m.disk, name, e);
    hide IdsUnique, DiskAgrees, WithDb;
  }

  lemma DirKeepsTable(m: Manager, name: Name)
    requires TableInv(m)
    ensures TableInv(m.(disk := WithDir(m.disk, name)))
  {
    hide IdsUnique;
  }

  lemma CreateKeepsTable(m: Manager, name: Name, env: Creation)
    requires TableInv(m)
    ensures TableInv(DoGetOrCreate(m, name, env).0)
  {
    hide NewEngine, TableInv;
    if name !in m.sessions && |m.sessions| < MAX_SESSIONS {
      MapKeepsTable(m, name, NewEngine(m.nextId, Linked(m.disk, name)), m.nextId + 1);
      DirKeepsTable(m, name);
    }
  }

  lemma CallKeepsTable(m: Manager, name: Name, call: Call)
    requires TableInv(m)
    ensures TableInv(DoOn(m, name, call))
  {
    hide EngineView.Perform, TableInv;
    if name in m.sessions {
      PerformKeepsId(m.sessions[name], call);
      MapKeepsTable(m, name, m.sessions[name].Perform(call), m.nextId);
    }
  }

  lemma RemovalKeepsTable(m: Manager, name: Name, removed: bool, unlinked: bool)
    requires TableInv(m)
    ensures
      var disk := if unlinked then Unlink(m.disk, name) else m.disk;
      TableInv(m.(sessions := m.sessions - {name}, disk := WithoutDir(disk, name, removed)))
  {
    hide TableInv;
    var disk := if unlinked then Unlink(m.disk, name) else m.disk;
    UnmapKeepsTable(m, name, WithoutDir(disk, name, removed));
  }

  lemma StepKeepsTable(m: Manager, s: Section)
    requires TableInv(m)
    ensures TableInv(Step(m, s))
  {
    hide EngineView.Perform, TableInv, DoGetOrCreate, DoOn, WithoutDir;
    match s
    case ResetUnpaired(name, removed) => RemovalKeepsTable(m, name, removed, false);
    case GetOrCreate(name, env) => CreateKeepsTable(m, name, env);
    case Remove(name, removed) => RemovalKeepsTable(m, name, removed, false);
    case LogoutRemove(name, loggedOut, removed) =>
      if name in m.sessions {
        RemovalKeepsTable(m, name, removed, loggedOut && m.sessions[name].client.state.Connected?);
      }
    case On(name, call) => CallKeepsTable(m, name, call);
  }

  // ---------- Isolation ----------

  ghost predicate SameSession(a: Manager, b: Manager, name: Name) {
    && (name in a.sessions <==> name in b.sessions)
    && (name in a.sessions ==> a.sessions[name] == b.sessions[name])
    && (name in a.disk <==> name in b.disk)
    && (name in a.disk ==> a.disk[name] == b.disk[name])
  }

  lemma RemovalIsIsolated(m: Manager, name: Name, disk: map<Name, Directory>, removed: bool, other: Name)
    requires other != name
    requires other in disk <==> other in m.disk
    requires other in disk ==> disk[other] == m.disk[other]
    ensures SameSession(m, m.(sessions := m.sessions - {name}, disk := WithoutDir(disk, name, removed)), other)
  {
  }

  lemma CreateIsIsolated(m: Manager, name: Name, env: Creation, other: Name)
    requires other != name
    ensures SameSession(m, DoGetOrCreate(m, name, env).0, other)
  {
    hide NewEngine;
  }

  lemma CallIsIsolated(m: Manager, name: Name, call: Call, other: Name)
    requires other != name
    ensures SameSession(m, DoOn(m, name, call), other)
  {
    hide EngineView.Perform;
  }

  lemma StepIsIsolated(m: Manager, s: Section, other: Name)
    requires other != s.name
    ensures SameSession(m, Step(m, s), other)
  {
    hide DoGetOrCreate, DoOn, WithoutDir;
    match s
    case ResetUnpaired(name, removed) => RemovalIsIsolated(m, name, m.disk, removed, other);
    case GetOrCreate(name, env) => CreateIsIsolated(m, name, env, other);
    case Remove(name, removed) => RemovalIsIsolated(m, name, m.disk, removed, other);
    case LogoutRemove(name, loggedOut, removed) =>
      RemovalIsIsolated(m, name, m.disk, removed, other);
      RemovalIsIsolated(m, name, Unlink(m.disk, name), removed, other);
    case On(name, call) => CallIsIsolated(m, name, call, other);
  }

  /** SESSIONS ARE ISOLATED.  Whatever happens to other names, in any order, leaves a name's engine
      and its directory as they were. */
  lemma {:induction false} OthersLeaveSessionAlone(m: Manager, steps: seq<Section>, name: Name)
    requires forall k :: 0 <= k < |steps| ==> steps[k].name != name
    ensures SameSession(m, Exec(m, steps), name)
    decreases |steps|
  {
    if steps != [] {
      OthersLeaveSessionAlone(m, steps[..|steps| - 1], name);
      StepIsIsolated(Exec(m, steps[..|steps| - 1]), steps[|steps| - 1], name);
    }
  }

  // ---------- API calls as sequences of sections ----------

  function Start(m: Manager, name: Name, env: Creation, connects: bool): (Manager, Result<()>) {
    var (m1, r) := DoGetOrCreate(m, name, env);
    if r.Err? then (m1, r)
    else (DoOn(m1, name, CallStart(connects)), m1.sessions[name].Start(connects).1)
  }

  /** What pairing needs from the environment. */
  datatype PairEnv = PairEnv(removed: bool, creation: Creation, qrChannel: bool, connects: bool)

  function StartPairing(m: Manager, name: Name, env: PairEnv): (Manager, Result<()>) {
    var (m1, r) := DoGetOrCreate(DoReset(m, name, env.removed), name, env.creation);
    if r.Err? then (m1, r)
    else (DoOn(m1, name, CallPair(env.qrChannel, env.connects)),
          m1.sessions[name].StartPairing(env.qrChannel, env.connects).1)
  }

  function StartPhonePairing(m: Manager, name: Name, removed: bool, env: Creation, outcome: PhoneOutcome)
    : (Manager, Result<string>)
  {
    var (m1, r) := DoGetOrCreate(DoReset(m, name, removed), name, env);
    if r.Err? then (m1, Err(r.error))
    else (DoOn(m1, name, CallPhone(outcome)), m1.sessions[name].StartPhonePairing(outcome).1)
  }

  function StopAll(m: Manager): Manager {
    m.(sessions := map n | n in m.sessions :: m.sessions[n].Stop())
  }

  // ---------- Runs of API calls ----------

  /** What can happen to a manager as a whole: one section by itself, an API call of several, or an
      operation on every session. */
  datatype Api =
    | One(section: Section)
    | ApiStart(name: Name, env: Creation, connects: bool)
    | ApiPair(name: Name, pairing: PairEnv)
    | ApiPhone(name: Name, removed: bool, env: Creation, outcome: PhoneOutcome)
    | ApiStopAll
    | ApiSleep(names: seq<Name>)
    | ApiWake(env: Creation, answers: Name -> bool)

  function Apply(m: Manager, api: Api): Manager {
    match api
    case One(s) => Step(m, s)
    case ApiStart(name, env, connects) => Start(m, name, env, connects).0
    case ApiPair(name, env) => StartPairing(m, name, env).0
    case ApiPhone(name, removed, env, outcome) => StartPhonePairing(m, name, removed, env, outcome).0
    case ApiStopAll => StopAll(m)
    case ApiSleep(names) => Sleep(m, names)
    case ApiWake(env, answers) => Wake(m, env, answers)
  }

  function ApplyAll(m: Manager, apis: seq<Api>): Manager
    decreases |apis|
  {
    if |apis| == 0 then m else Apply(ApplyAll(m, apis[..|apis| - 1]), apis[|apis| - 1])
  }

  function StartSections(name: Name, env: Creation, connects: bool): seq<Section> {
    [GetOrCreate(name, env), On(name, CallStart(connects))]
  }

  function StartsSections(names: seq<Name>, env: Creation, connects: Name -> bool): seq<Section>
    decreases |names|
  {
    if names == [] then [] else
      var last := names[|names| - 1];
      StartsSections(names[..|names| - 1], env, connects) + StartSections(last, env, connects(last))
  }

  /** Stopping every session of a list, one after the other. */
  function StopsSections(order: seq<Name>): seq<Section>
    decreases |order|
  {
    if order == [] then [] else StopsSections(order[..|order| - 1]) + [On(order[|order| - 1], CallStop)]
  }

  /** The critical sections of a call, one after the other.  An operation on every session has one for
      each of them, in the order in which the map is walked. */
  function SectionsOf(m: Manager, api: Api, order: seq<Name>): seq<Section> {
    match api
    case One(s) => [s]
    case ApiStart(name, env, connects) => StartSections(name, env, connects)
    case ApiPair(name, env) =>
      [ResetUnpaired(name, env.removed), GetOrCreate(name, env.creation), On(name, CallPair(env.qrChannel, env.connects))]
    case ApiPhone(name, removed, env, outcome) =>
      [ResetUnpaired(name, removed), GetOrCreate(name, env), On(name, CallPhone(outcome))]
    case ApiStopAll => StopsSections(order)
    case ApiSleep(_) => StopsSections(order)
    case ApiWake(env, answers) => StartsSections(m.preSleep, env, answers)
  }

  /** The sessions remembered for a wake after a call; no section touches them. */
  function RememberedAfter(m: Manager, api: Api): seq<Name> {
    match api
    case ApiSleep(names) => names
    case ApiWake(_, _) => []
    case _ => m.preSleep
  }

  lemma {:induction false} ExecConcat(m: Manager, a: seq<Section>, b: seq<Section>)
    ensures Exec(m, a + b) == Exec(Exec(m, a), b)
    decreases |b|
  {
    if b == [] {
      assert a + b == a;
    } else {
      ExecConcat(m, a, b[..|b| - 1]);
      assert (a + b)[..|a + b| - 1] == a + b[..|b| - 1];
    }
  }

  lemma ExecFew(m: Manager, a: Section, b: Section, c: Section)
    ensures Exec(m, [a]) == Step(m, a)
    ensures Exec(m, [a, b]) == Step(Step(m, a), b)
    ensures Exec(m, [a, b, c]) == Step(Step(Step(m, a), b), c)
  {
    hide Step;
    assert [a][..0] == [] && [a, b][..1] == [a] && [a, b, c][..2] == [a, b];
  }

  lemma CreatedOrNot(m: Manager, name: Name, env: Creation)
    ensures DoGetOrCreate(m, name, env).1.Ok? <==> name in DoGetOrCreate(m, name, env).0.sessions
  {
  }

  lemma StartIsSections(m: Manager, name: Name, env: Creation, connects: bool)
    ensures Start(m, name, env, connects).0 == Exec(m, StartSections(name, env, connects))
  {
    ExecFew(m, GetOrCreate(name, env), On(name, CallStart(connects)), On(name, CallStop));
    CreatedOrNot(m, name, env);
    hide EngineView.Perform, DoGetOrCreate;
  }

  lemma {:induction false} StartAllIsSections(m: Manager, names: seq<Name>, env: Creation, connects: Name -> bool)
    ensures StartAll(m, names, env, connects) == Exec(m, StartsSections(names, env, connects))
    decreases |names|
  {
    if names != [] {
      var before, last := names[..|names| - 1], names[|names| - 1];
      StartAllIsSections(m, before, env, connects);
      hide Start, StartSections;
      StartIsSections(StartAll(m, before, env, connects), last, env, connects(last));
      ExecConcat(m, StartsSections(before, env, connects), StartSections(last, env, connects(last)));
    }
  }

  /** The table in which the sessions of a list have been stopped. */
  function WithStopped(sessions: map<Name, EngineView>, order: seq<Name>): map<Name, EngineView> {
    map n | n in sessions :: if n in order then sessions[n].Stop() else sessions[n]
  }

  lemma StopOneMore(sessions: map<Name, EngineView>, before: seq<Name>, n: Name)
    requires n in sessions
    ensures WithStopped(sessions, before)[n := WithStopped(sessions, before)[n].Stop()] == WithStopped(sessions, before + [n])
  {
    assert sessions[n].Stop().Stop() == sessions[n].Stop();
    hide EngineView.Stop;
    var a, b := WithStopped(sessions, before)[n := WithStopped(sessions, before)[n].Stop()], WithStopped(sessions, before + [n]);
    assert a.Keys == b.Keys;
    forall o | o in a.Keys
      ensures a[o] == b[o]
    {
      assert o in before + [n] <==> o in before || o == n;
    }
  }

  lemma SameDb(disk: map<Name, Directory>, n: Name)
    requires HasDb(disk, n)
    ensures WithDb(disk, n, disk[n].linked) == disk
  {
    assert disk[n].files + {WhatsappDb} == disk[n].files;
  }

  lemma StopStep(m: Manager, before: seq<Name>, n: Name)
    requires DiskAgrees(m.sessions, m.disk) && n in m.sessions
    ensures Step(m.(sessions := WithStopped(m.sessions, before)), On(n, CallStop))
            == m.(sessions := WithStopped(m.sessions, before + [n]))
  {
    StopOneMore(m.sessions, before, n);
    SameDb(m.disk, n);
    assert WithStopped(m.sessions, before)[n].Stop().paired == m.sessions[n].paired;
    hide EngineView.Stop, WithDb;
  }

  lemma {:induction false} StopsAre(m: Manager, order: seq<Name>)
    requires DiskAgrees(m.sessions, m.disk) && forall n :: n in order ==> n in m.sessions
    ensures Exec(m, StopsSections(order)) == m.(sessions := WithStopped(m.sessions, order))
    decreases |order|
  {
    if order == [] {
      assert WithStopped(m.sessions, []) == m.sessions;
    } else {
      var before, last := order[..|order| - 1], order[|order| - 1];
      assert order == before + [last] && last in order;
      StopsAre(m, before);
      var steps := StopsSections(before);
      assert (steps + [On(last, CallStop)])[..|steps|] == steps;
      hide Step;
      StopStep(m, before, last);
    }
  }

  /** A walk over the table: every session, in any order. */
  ghost predicate Walks(order: seq<Name>, sessions: map<Name, EngineView>) {
    forall n :: n in order <==> n in sessions
  }

  lemma StopAllIsSections(m: Manager, order: seq<Name>)
    requires DiskAgrees(m.sessions, m.disk) && Walks(order, m.sessions)
    ensures StopAll(m) == Exec(m, StopsSections(order))
  {
    StopsAre(m, order);
    assert StopAll(m).sessions == WithStopped(m.sessions, order);
  }

  /** Every API call, sleep and wake is the run of its sections, up to the sessions remembered for a
      wake; the sections of a stop of everything may come in any order. */
  lemma ApplyIsSections(m: Manager, api: Api, order: seq<Name>)
    requires api.ApiStopAll? || api.ApiSleep? ==> DiskAgrees(m.sessions, m.disk) && Walks(order, m.sessions)
    ensures Apply(m, api) == Exec(m, SectionsOf(m, api, order)).(preSleep := RememberedAfter(m, api))
  {
    ApplyKeepsRemembered(m, api, order);
    hide DoGetOrCreate, DoReset, EngineView.Perform, Exec;
    match api
    case One(s) => ExecFew(m, s, s, s);
    case ApiStart(name, env, connects) => StartIsSections(m, name, env, connects);
    case ApiPair(name, env) =>
      ExecFew(m, ResetUnpaired(name, env.removed), GetOrCreate(name, env.creation),
              On(name, CallPair(env.qrChannel, env.connects)));
      CreatedOrNot(DoReset(m, name, env.removed), name, env.creation);
    case ApiPhone(name, removed, env, outcome) =>
      ExecFew(m, ResetUnpaired(name, removed), GetOrCreate(name, env), On(name, CallPhone(outcome)));
      CreatedOrNot(DoReset(m, name, removed), name, env);
    case ApiStopAll => StopAllIsSections(m, order);
    case ApiSleep(names) => StopAllIsSections(m, order);
    case ApiWake(env, answers) => StartAllIsSections(m, m.preSleep, env, answers);
  }

  lemma ApplyKeepsRemembered(m: Manager, api: Api, order: seq<Name>)
    ensures Exec(m, SectionsOf(m, api, order)).preSleep == m.preSleep
  {
    ExecRemembers(m, SectionsOf(m, api, order));
  }

  lemma StepRemembers(m: Manager, s: Section)
    ensures Step(m, s).preSleep == m.preSleep
  {
    hide EngineView.Perform, NewEngine;
  }

  lemma {:induction false} ExecRemembers(m: Manager, steps: seq<Section>)
    ensures Exec(m, steps).preSleep == m.preSleep
    decreases |steps|
  {
    if steps != [] {
      ExecRemembers(m, steps[..|steps| - 1]);
      hide Step;
      StepRemembers(Exec(m, steps[..|steps| - 1]), steps[|steps| - 1]);
    }
  }

  // ---------- The table invariant over runs ----------

  lemma {:induction false} ExecKeepsTable(m: Manager, steps: seq<Section>)
    requires TableInv(m)
    ensures TableInv(Exec(m, steps))
    decreases |steps|
  {
    if steps != [] {
      ExecKeepsTable(m, steps[..|steps| - 1]);
      hide Step, TableInv;
      StepKeepsTable(Exec(m, steps[..|steps| - 1]), steps[|steps| - 1]);
    }
  }

  lemma StopAllKeepsTable(m: Manager)
    requires TableInv(m)
    ensures TableInv(StopAll(m))
  {
    var sessions := StopAll(m).sessions;
    assert sessions.Keys == m.sessions.Keys;
    forall n | n in sessions
      ensures sessions[n].id == m.sessions[n].id && sessions[n].paired == m.sessions[n].paired
    {
    }
    hide EngineView.Stop;
    forall n | n in sessions
      ensures IdBelow(sessions, m.nextId, n)
    {
      assert IdBelow(m.sessions, m.nextId, n);
    }
    forall a, b | a in sessions && b in sessions && SameEngine(sessions, a, b)
      ensures a == b
    {
      assert SameEngine(m.sessions, a, b);
    }
  }

  lemma ApplyKeepsTable(m: Manager, api: Api)
    requires TableInv(m)
    ensures TableInv(Apply(m, api))
  {
    hide Step, StopAll;
    StopAllKeepsTable(m);
    if api.ApiSleep? {
      StopAllKeepsTable(m.(preSleep := api.names));
    } else if !api.ApiStopAll? {
      ApplyIsSections(m, api, []);
      ExecKeepsTable(m, SectionsOf(m, api, []));
    }
  }

  /** THE TABLE INVARIANT, for every interleaving of sections and every run of API calls, sleeps and
      wakes included: never more than the maximum number of sessions, every session has its directory
      (and agrees with it on being linked), and no engine serves two names. */
  lemma {:induction false} AlwaysTableInv(disk: map<Name, Directory>, apis: seq<Api>)
    ensures TableInv(ApplyAll(NewManager(disk), apis))
    decreases |apis|
  {
    if |apis| != 0 {
      AlwaysTableInv(disk, apis[..|apis| - 1]);
      hide Apply, TableInv;
      ApplyKeepsTable(ApplyAll(NewManager(disk), apis[..|apis| - 1]), apis[|apis| - 1]);
    }
  }

  // ---------- Paired sessions are never lost ----------

  /** The steps that may unlink or remove session `name`. */
  predicate MayUnlink(s: Section, name: Name) {
    s.name == name &&
    match s
    case Remove(_, _) => true
    case LogoutRemove(_, _, _) => true
    case On(_, CallLogout(_, _)) => true
    case On(_, Env(Deliver(ev, _, _))) => ev.EvLoggedOut?
    case _ => false
  }

  ghost predicate PairedAs(m: Manager, name: Name, id: nat) {
    name in m.sessions && m.sessions[name].id == id && m.sessions[name].paired && Linked(m.disk, name)
  }

  ghost predicate NoneUnlinks(steps: seq<Section>, name: Name) {
    forall k :: 0 <= k < |steps| ==> !MayUnlink(steps[k], name)
  }

  lemma StepKeepsPaired(m: Manager, s: Section, name: Name, id: nat)
    requires PairedAs(m, name, id) && !MayUnlink(s, name)
    ensures PairedAs(Step(m, s), name, id)
  {
    if s.name != name {
      StepIsIsolated(m, s, name);
    }
  }

  lemma {:induction false} ExecKeepsPaired(m: Manager, steps: seq<Section>, name: Name, id: nat)
    requires PairedAs(m, name, id) && NoneUnlinks(steps, name)
    ensures PairedAs(Exec(m, steps), name, id)
    decreases |steps|
  {
    if steps != [] {
      ExecKeepsPaired(m, steps[..|steps| - 1], name, id);
      hide Step, PairedAs;
      StepKeepsPaired(Exec(m, steps[..|steps| - 1]), steps[|steps| - 1], name, id);
    }
  }

  lemma {:induction false} StartsUnlinkNothing(names: seq<Name>, env: Creation, connects: Name -> bool, name: Name)
    ensures NoneUnlinks(StartsSections(names, env, connects), name)
    decreases |names|
  {
    if names != [] {
      StartsUnlinkNothing(names[..|names| - 1], env, connects, name);
    }
  }

  lemma ApplyKeepsPaired(m: Manager, api: Api, name: Name, id: nat)
    requires PairedAs(m, name, id)
    requires api.One? ==> !MayUnlink(api.section, name)
    ensures PairedAs(Apply(m, api), name, id)
  {
    if !api.ApiStopAll? && !api.ApiSleep? {
      if api.ApiWake? {
        StartsUnlinkNothing(m.preSleep, api.env, api.answers, name);
      }
      ExecKeepsPaired(m, SectionsOf(m, api, []), name, id);
      ApplyIsSections(m, api, []);
      hide Apply, SectionsOf, Exec;
    }
  }

  /** PAIRED SESSIONS ARE NEVER LOST.  Through any interleaving of resets and creations, starts,
      pairings, stops, sleeps and wakes, on any names, a paired session keeps its engine, its link
      and its directory, unless it is itself removed or logged out. */
  lemma {:induction false} PairedNeverLost(m: Manager, apis: seq<Api>, name: Name, id: nat)
    requires PairedAs(m, name, id)
    requires forall k :: 0 <= k < |apis| && apis[k].One? ==> !MayUnlink(apis[k].section, name)
    ensures PairedAs(ApplyAll(m, apis), name, id)
    decreases |apis|
  {
    if |apis| != 0 {
      PairedNeverLost(m, apis[..|apis| - 1], name, id);
      hide Apply, PairedAs, MayUnlink;
      ApplyKeepsPaired(ApplyAll(m, apis[..|apis| - 1]), apis[|apis| - 1], name, id);
    }
  }

  // ---------- Coupling, session by session ----------

  ghost predicate AllSound(m: Manager) {
    forall n :: n in m.sessions ==> Sound(m.sessions[n])
  }

  predicate StepBreaks(m: Manager, s: Section) {
    s.On? && s.name in m.sessions && Breaks(m.sessions[s.name], s.call)
  }

  lemma StepKeepsSoundIff(m: Manager, s: Section)
    requires AllSound(m)
    ensures AllSound(Step(m, s)) <==> !StepBreaks(m, s)
  {
    var m' := Step(m, s);
    if s.On? && s.name in m.sessions {
      PerformKeepsSoundIff(m.sessions[s.name], s.call);
      hide EngineView.Perform, Sound, Breaks;
      assert m'.sessions[s.name] == m.sessions[s.name].Perform(s.call);
      assert forall n :: n in m.sessions && n != s.name ==> m'.sessions[n] == m.sessions[n];
    } else {
      assert Sound(NewEngine(m.nextId, true)) && Sound(NewEngine(m.nextId, false));
      hide Sound, NewEngine;
    }
  }

  /** Which API calls break the coupling: one of the engine calls that do, by itself or at the end of
      a phone pairing. */
  predicate ApiBreaks(m: Manager, api: Api) {
    match api
    case One(s) => StepBreaks(m, s)
    case ApiPhone(name, removed, env, outcome) =>
      StepBreaks(DoGetOrCreate(DoReset(m, name, removed), name, env).0, On(name, CallPhone(outcome)))
    case _ => false
  }

  lemma {:induction false} StartsBreakNothing(m: Manager, names: seq<Name>, env: Creation, connects: Name -> bool)
    requires AllSound(m)
    ensures AllSound(StartAll(m, names, env, connects))
    decreases |names|
  {
    if names != [] {
      var last := names[|names| - 1];
      StartsBreakNothing(m, names[..|names| - 1], env, connects);
      hide AllSound, Start;
      StartBreaksNothing(StartAll(m, names[..|names| - 1], env, connects), last, env, connects(last));
    }
  }

  lemma StartBreaksNothing(m: Manager, name: Name, env: Creation, connects: bool)
    requires AllSound(m)
    ensures AllSound(Start(m, name, env, connects).0)
  {
    StartIsSections(m, name, env, connects);
    TwoStepsBreak(m, GetOrCreate(name, env), On(name, CallStart(connects)));
    hide Start;
  }

  lemma TwoStepsBreak(m: Manager, a: Section, b: Section)
    requires AllSound(m) && !a.On?
    ensures Exec(m, [a, b]) == Step(Step(m, a), b)
    ensures AllSound(Exec(m, [a, b])) <==> !StepBreaks(Step(m, a), b)
  {
    ExecFew(m, a, b, b);
    hide AllSound, Step, Exec;
    StepKeepsSoundIff(m, a);
    StepKeepsSoundIff(Step(m, a), b);
  }

  lemma ThreeStepsBreak(m: Manager, a: Section, b: Section, c: Section)
    requires AllSound(m) && !a.On? && !b.On?
    ensures AllSound(Exec(m, [a, b, c])) <==> !StepBreaks(Step(Step(m, a), b), c)
  {
    ExecFew(m, a, b, c);
    hide AllSound, Step, Exec;
    StepKeepsSoundIff(m, a);
    StepKeepsSoundIff(Step(m, a), b);
    StepKeepsSoundIff(Step(Step(m, a), b), c);
  }

  lemma StopAllKeepsSound(m: Manager)
    requires AllSound(m)
    ensures AllSound(StopAll(m))
  {
    forall n | n in m.sessions
      ensures Sound(m.sessions[n].Stop())
    {
      StopSettles(m.sessions[n]);
    }
    hide EngineView.Stop, Sound;
  }

  lemma ApplyKeepsSoundIff(m: Manager, api: Api)
    requires AllSound(m)
    ensures AllSound(Apply(m, api)) <==> !ApiBreaks(m, api)
  {
    match api
    case One(s) =>
      StepKeepsSoundIff(m, s);
      hide Step;
    case ApiStart(name, env, connects) =>
      StartBreaksNothing(m, name, env, connects);
      hide Start;
    case ApiPair(name, env) =>
      ApplyIsSections(m, api, []);
      ThreeStepsBreak(m, ResetUnpaired(name, env.removed), GetOrCreate(name, env.creation),
                      On(name, CallPair(env.qrChannel, env.connects)));
      hide Apply, Exec, Step;
    case ApiPhone(name, removed, env, outcome) =>
      ApplyIsSections(m, api, []);
      ThreeStepsBreak(m, ResetUnpaired(name, removed), GetOrCreate(name, env), On(name, CallPhone(outcome)));
      hide Apply, Exec, DoGetOrCreate, DoReset, Breaks, DoOn;
    case ApiStopAll =>
      StopAllKeepsSound(m);
      hide StopAll;
    case ApiSleep(names) =>
      StopAllKeepsSound(m.(preSleep := names));
      hide StopAll;
    case ApiWake(env, answers) =>
      StartsBreakNothing(m, m.preSleep, env, answers);
      hide StartAll;
  }

  ghost predicate AlwaysAllSound(m: Manager, apis: seq<Api>)
    decreases |apis|
  {
    AllSound(ApplyAll(m, apis)) && (|apis| == 0 || AlwaysAllSound(m, apis[..|apis| - 1]))
  }

  ghost predicate NoneBreaks(m: Manager, apis: seq<Api>)
    decreases |apis|
  {
    |apis| == 0 ||
    var before := apis[..|apis| - 1];
    NoneBreaks(m, before) && !ApiBreaks(ApplyAll(m, before), apis[|apis| - 1])
  }

  /** Throughout a run of the whole manager every engine has its two state machines coupled and no
      stray socket, exactly if no call of the run breaks it. */
  lemma {:induction false} AlwaysAllSoundIff(disk: map<Name, Directory>, apis: seq<Api>)
    ensures AlwaysAllSound(NewManager(disk), apis) <==> NoneBreaks(NewManager(disk), apis)
    decreases |apis|
  {
    if |apis| != 0 {
      var before := apis[..|apis| - 1];
      AlwaysAllSoundIff(disk, before);
      hide Apply, ApiBreaks, AllSound;
      if AlwaysAllSound(NewManager(disk), before) {
        ApplyKeepsSoundIff(ApplyAll(NewManager(disk), before), apis[|apis| - 1]);
      }
    } else {
      assert NewManager(disk).sessions == map[];
    }
  }

  // ---------- Stale pairings ----------

  /** After the reset there is room, and creation starts from an unlinked directory. */
  lemma FreshSession(m: Manager, name: Name, removed: bool, env: Creation)
    requires TableInv(m) && name in m.sessions && !m.sessions[name].paired
    ensures
      var (m1, r) := DoGetOrCreate(DoReset(m, name, removed), name, env);
      && r == (if env.mkdir && env.opens then Ok(()) else Err(StorageFailed))
      && (name in m1.sessions <==> env.mkdir && env.opens)
      && (name in m1.sessions ==> m1.sessions[name] == NewEngine(m.nextId, false))
  {
    hide NewEngine;
    var m1 := DoReset(m, name, removed);
    assert m1.sessions.Keys == m.sessions.Keys - {name};
    assert |m1.sessions| < MAX_SESSIONS;
  }

  function FilesIn(disk: map<Name, Directory>, name: Name): set<File> {
    if name in disk then disk[name].files else {}
  }

  /** The directory `name` now holds these files; what else there was is as it was. */
  ghost predicate OnlyDirectory(before: map<Name, Directory>, after: map<Name, Directory>, name: Name, files: set<File>) {
    && after.Keys == before.Keys + {name}
    && after[name].files == files
    && (forall n :: n in before && n != name ==> after[n] == before[n])
  }

  lemma DirectoryMade(disk: map<Name, Directory>, name: Name, linked: bool)
    ensures OnlyDirectory(disk, WithDir(disk, name), name, FilesIn(disk, name))
    ensures OnlyDirectory(disk, WithDb(disk, name, linked), name, FilesIn(disk, name) + {WhatsappDb})
  {
  }

  /** A creation fails at ten sessions, and for storage reasons. */
  lemma CreationResult(m: Manager, name: Name, env: Creation)
    ensures
      var (m', r) := DoGetOrCreate(m, name, env);
      && r == (if name in m.sessions then Ok(()) else if |m.sessions| >= 10 then Err(MaxSessionsExceeded)
               else if env.mkdir && env.opens then Ok(()) else Err(StorageFailed))
      && m'.sessions.Keys == m.sessions.Keys + (if r.Ok? then {name} else {})
  {
    hide NewEngine, WithDb, WithDir, Linked;
  }

  /** What a creation does to the disk: the directory as soon as it can be made, the database as soon as
      an engine opens; what was in the directory stays, and so does every other directory. */
  lemma CreationOnDisk(m: Manager, name: Name, env: Creation)
    ensures
      var m' := DoGetOrCreate(m, name, env).0;
      var tried := name !in m.sessions && |m.sessions| < MAX_SESSIONS && env.mkdir;
      && (!tried ==> m' == m)
      && (tried ==> OnlyDirectory(m.disk, m'.disk, name,
                                  FilesIn(m.disk, name) + if env.opens then {WhatsappDb} else {}))
  {
    DirectoryMade(m.disk, name, Linked(m.disk, name));
    assert FilesIn(m.disk, name) + {} == FilesIn(m.disk, name);
    hide NewEngine, WithDb, WithDir, Linked, OnlyDirectory, FilesIn;
  }

  /** What a removal does: the session goes in any case, its directory if it can be removed. */
  lemma RemovalOutcome(m: Manager, name: Name, removed: bool)
    ensures
      var (m', r) := DoRemove(m, name, removed);
      && (name !in m.sessions ==> m' == m && r == Err(SessionNotFound))
      && (name in m.sessions ==>
            && name !in m'.sessions && r == (if removed then Ok(()) else Err(StorageFailed))
            && (removed ==> name !in m'.disk) && (!removed ==> m'.disk == m.disk))
  {
  }

  /** The directory that a pairing of a stale session leaves: as new if the old one could be removed,
      and the old one with all its files otherwise. */
  ghost predicate PairingDisk(before: map<Name, Directory>, after: map<Name, Directory>, name: Name, removed: bool, env: Creation)
    requires name in before
  {
    if removed then
      && (name in after <==> env.mkdir)
      && (env.mkdir ==> after[name] == if env.opens then Directory({WhatsappDb}, false) else Directory({}, false))
    else
      && name in after
      && after[name] == if env.mkdir && env.opens then Directory(before[name].files + {WhatsappDb}, false) else before[name]
  }

  lemma CreationDisk(m: Manager, name: Name, removed: bool, env: Creation)
    requires TableInv(m) && name in m.sessions && !m.sessions[name].paired
    ensures PairingDisk(m.disk, DoGetOrCreate(DoReset(m, name, removed), name, env).0.disk, name, removed, env)
  {
    hide NewEngine;
    assert HasDb(m.disk, name) && !m.disk[name].linked;
    var m1 := DoReset(m, name, removed);
    assert m1.sessions.Keys == m.sessions.Keys - {name};
    assert |m1.sessions| < MAX_SESSIONS;
    assert {} + {WhatsappDb} == {WhatsappDb};
  }

  lemma CallOnDisk(m: Manager, name: Name, call: Call)
    requires name in m.sessions && name in m.disk && HasDb(m.disk, name)
    requires m.sessions[name].Perform(call).paired == m.disk[name].linked
    ensures DoOn(m, name, call).disk == m.disk
  {
    hide EngineView.Perform;
    SameDb(m.disk, name);
  }

  /** A PAIRING STARTS FROM A CLEAN DIRECTORY. */
  lemma PairingOnDisk(m: Manager, name: Name, env: PairEnv)
    requires TableInv(m) && name in m.sessions && !m.sessions[name].paired
    ensures PairingDisk(m.disk, StartPairing(m, name, env).0.disk, name, env.removed, env.creation)
  {
    CreationDisk(m, name, env.removed, env.creation);
    FreshSession(m, name, env.removed, env.creation);
    var m1 := DoGetOrCreate(DoReset(m, name, env.removed), name, env.creation).0;
    if name in m1.sessions {
      UnpairedStays(m.nextId, CallPair(env.qrChannel, env.connects));
      CallOnDisk(m1, name, CallPair(env.qrChannel, env.connects));
    }
    hide EngineView.StartPairing, DoGetOrCreate, DoReset, DoOn, NewEngine;
  }

  lemma PhonePairingOnDisk(m: Manager, name: Name, removed: bool, env: Creation, outcome: PhoneOutcome)
    requires TableInv(m) && name in m.sessions && !m.sessions[name].paired
    ensures PairingDisk(m.disk, StartPhonePairing(m, name, removed, env, outcome).0.disk, name, removed, env)
  {
    CreationDisk(m, name, removed, env);
    FreshSession(m, name, removed, env);
    var m1 := DoGetOrCreate(DoReset(m, name, removed), name, env).0;
    if name in m1.sessions {
      UnpairedStays(m.nextId, CallPhone(outcome));
      CallOnDisk(m1, name, CallPhone(outcome));
    }
    hide EngineView.StartPhonePairing, DoGetOrCreate, DoReset, DoOn, NewEngine;
  }

  lemma UnpairedStays(id: nat, call: Call)
    requires call.CallPair? || call.CallPhone?
    ensures !NewEngine(id, false).Perform(call).paired
  {
  }

  lemma FreshEnginePairs(id: nat, qrChannel: bool, connects: bool)
    ensures
      var (e, r) := NewEngine(id, false).StartPairing(qrChannel, connects);
      && r == (if qrChannel && connects then Ok(()) else Err(ConnectionFailed))
      && e.id == id
      && (if r.Ok? then e.state.EnginePairing? && e.client.state.Pairing?
          else e.state.Stopped? && e.client.state.Disconnected?)
  {
  }

  /** STALE PAIRING ALWAYS RECOVERS.  If the name exists unpaired, whatever its engine and client
      are doing, pairing it again either fails for storage or connection reasons or leaves a freshly
      created engine and client in pairing.  It never hits the session limit and never falls into
      the silent "already pairing" return of the old engine. */
  lemma StalePairingRecovers(m: Manager, name: Name, env: PairEnv)
    requires TableInv(m) && name in m.sessions && !m.sessions[name].paired
    ensures
      var (m', r) := StartPairing(m, name, env);
      var created := env.creation.mkdir && env.creation.opens;
      && (r.Ok? <==> created && env.qrChannel && env.connects)
      && (!created ==> r == Err(StorageFailed) && name !in m'.sessions)
      && (created && r.Err? ==> r == Err(ConnectionFailed))
      && (created ==>
            && name in m'.sessions && m'.sessions[name].id == m.nextId
            && (forall n :: n in m.sessions ==> m.sessions[n].id != m'.sessions[name].id)
            && (if r.Ok? then m'.sessions[name].state.EnginePairing? && m'.sessions[name].client.state.Pairing?
                else m'.sessions[name].state.Stopped? && m'.sessions[name].client.state.Disconnected?))
  {
    hide ClientView.StartPairing;
    FreshSession(m, name, env.removed, env.creation);
    FreshEnginePairs(m.nextId, env.qrChannel, env.connects);
  }

  /** The same for phone pairing, up to the engine's own outcome. */
  lemma StalePhonePairingRecovers(m: Manager, name: Name, removed: bool, env: Creation, outcome: PhoneOutcome)
    requires TableInv(m) && name in m.sessions && !m.sessions[name].paired
    ensures
      var (m', r) := StartPhonePairing(m, name, removed, env, outcome);
      && (r.Ok? <==> env.mkdir && env.opens && outcome.CodeIssued?)
      && (r.Ok? ==>
            && name in m'.sessions && m'.sessions[name].id == m.nextId
            && m'.sessions[name].state.EnginePairing?
            && m'.sessions[name].client.currentPairingCode == r.value)
      && r != Err(MaxSessionsExceeded) && r != Err(AlreadyRunning)
  {
    FreshSession(m, name, removed, env);
  }

  /** The reset is needed: the old engine would return success and do nothing, for example after its
      QR code has timed out. */
  lemma EngineAloneStaysStale(id: nat, qrChannel: bool, connects: bool)
    ensures
      var e := NewEngine(id, false).PerformAll([CallPair(true, true), Env(DeliverQR(QRTimeout, false))]);
      && e.state.EnginePairing? && e.client.state.Disconnected?
      && e.StartPairing(qrChannel, connects) == (e, Ok(()))
  {
    var calls := [CallPair(true, true), Env(DeliverQR(QRTimeout, false))];
    assert calls[..1] == [calls[0]] && calls[..1][..0] == [];
    assert NewEngine(id, false).PerformAll(calls[..1]) == NewEngine(id, false).Perform(calls[0]);
  }

  /** A LOGOUT IS FORGOTTEN EXACTLY WHEN NOTHING WAS ACHIEVED.  After logging a paired session out,
      starting the same name is refused as unpaired iff the directory went away or the server-side
      logout of a connected session succeeded; otherwise the session comes back linked. */
  lemma LogoutSticksIff(m: Manager, name: Name, loggedOut: bool, removed: bool, connects: bool)
    requires TableInv(m) && name in m.sessions && m.sessions[name].paired
    ensures
      var m1 := DoLogoutRemove(m, name, loggedOut, removed).0;
      Start(m1, name, Creation(true, true), connects).1 == Err(NotPaired)
      <==> removed || (loggedOut && m.sessions[name].client.state.Connected?)
  {
    var m1 := DoLogoutRemove(m, name, loggedOut, removed).0;
    assert m1.sessions.Keys == m.sessions.Keys - {name};
    assert |m1.sessions| < MAX_SESSIONS;
    var linked := Linked(m1.disk, name);
    FreshEngineStarts(m1.nextId, linked, connects);
    hide EngineView.Start, NewEngine;
  }

  lemma FreshEngineStarts(id: nat, linked: bool, connects: bool)
    ensures NewEngine(id, linked).Start(connects).1 ==
            if !linked then Err(NotPaired) else if connects then Ok(()) else Err(ConnectionFailed)
  {
  }

  // ---------- Sleep and wake ----------

  /** `names` lists the connected sessions, each once, in some iteration order of the map. */
  ghost predicate ListsConnected(m: Manager, names: seq<Name>) {
    && (forall i, j :: 0 <= i < j < |names| ==> names[i] != names[j])
    && (forall n :: n in names <==> n in m.sessions && m.sessions[n].client.state.Connected?)
  }

  function Sleep(m: Manager, names: seq<Name>): Manager {
    StopAll(m.(preSleep := names))
  }

  /** Starts the first names of the list, in order; `connects` answers each connection attempt. */
  function StartAll(m: Manager, names: seq<Name>, env: Creation, connects: Name -> bool): Manager
    decreases |names|
  {
    if names == [] then m else
      var last := names[|names| - 1];
      Start(StartAll(m, names[..|names| - 1], env, connects), last, env, connects(last)).0
  }

  function Wake(m: Manager, env: Creation, connects: Name -> bool): Manager {
    StartAll(m, m.preSleep, env, connects).(preSleep := [])
  }

  ghost predicate OnlyEnv(steps: seq<Section>) {
    forall k :: 0 <= k < |steps| ==> steps[k].On? && steps[k].call.Env?
  }

  /** A stopped engine whose client is connected all the same, and that a wake could start: its stop
      does nothing, and its start finds it connected. */
  predicate Stray(e: EngineView) {
    e.state.Stopped? && e.client.state.Connected? && (e.paired || e.client.socket)
  }

  /** An engine after sleep, against what it was before: stopped; and if it was connected, with nothing
      left for the library to deliver and, if it is paired, with the client down. */
  predicate Resting(e: EngineView, awake: EngineView) {
    && e.state.Stopped?
    && (awake.client.state.Connected? ==>
          !e.client.socket && e.paired == awake.paired && (e.paired ==> e.client.state.Disconnected?))
  }

  lemma StopRests(e: EngineView)
    requires e.Settled() && !Stray(e)
    ensures Resting(e.Stop(), e)
  {
  }

  lemma RestStays(e: EngineView, awake: EngineView, step: EnvStep)
    requires Resting(e, awake)
    ensures Resting(e.Perform(Env(step)), awake)
  {
  }

  lemma StartRested(e: EngineView, awake: EngineView, connects: bool)
    requires Resting(e, awake) && awake.client.state.Connected?
    ensures e.Start(connects).0.state == if awake.paired && connects then Running else Stopped
  {
  }

  ghost predicate AllSettled(m: Manager) {
    forall n :: n in m.sessions ==> m.sessions[n].Settled()
  }

  ghost predicate NoneStray(m: Manager) {
    forall n :: n in m.sessions ==> !Stray(m.sessions[n])
  }

  ghost predicate Asleep(m: Manager, awake: Manager) {
    && m.sessions.Keys == awake.sessions.Keys
    && forall n :: n in m.sessions ==> Resting(m.sessions[n], awake.sessions[n])
  }

  lemma FallsAsleep(m: Manager, names: seq<Name>)
    requires AllSettled(m) && NoneStray(m)
    ensures Asleep(Sleep(m, names), m) && Sleep(m, names).preSleep == names
  {
    forall n | n in m.sessions
      ensures Resting(m.sessions[n].Stop(), m.sessions[n])
    {
      StopRests(m.sessions[n]);
    }
    hide EngineView.Stop, Resting;
  }

  lemma {:induction false} SleepsThrough(m: Manager, names: seq<Name>, steps: seq<Section>)
    requires AllSettled(m) && NoneStray(m) && OnlyEnv(steps)
    ensures Asleep(Exec(Sleep(m, names), steps), m) && Exec(Sleep(m, names), steps).preSleep == names
    decreases |steps|
  {
    if steps == [] {
      FallsAsleep(m, names);
    } else {
      hide Sleep;
      var before := steps[..|steps| - 1];
      SleepsThrough(m, names, before);
      var s, step := Exec(Sleep(m, names), before), steps[|steps| - 1];
      if step.name in s.sessions {
        RestStays(s.sessions[step.name], m.sessions[step.name], step.call.step);
      }
      hide EngineView.Perform, Resting, WithDb;
    }
  }

  lemma StartOne(m: Manager, name: Name, env: Creation, connects: bool)
    requires name in m.sessions
    ensures Start(m, name, env, connects).0.sessions == m.sessions[name := m.sessions[name].Start(connects).0]
  {
    hide EngineView.Start, WithDb;
  }

  ghost predicate Started(w: map<Name, EngineView>, s: map<Name, EngineView>, names: seq<Name>, connects: Name -> bool) {
    && w.Keys == s.Keys
    && (forall n :: n in s ==> w[n] == if n in names then s[n].Start(connects(n)).0 else s[n])
  }

  lemma StartedSnoc(w: map<Name, EngineView>, s: map<Name, EngineView>, before: seq<Name>, last: Name,
                    connects: Name -> bool)
    requires Started(w, s, before, connects) && last !in before && last in s
    ensures Started(w[last := w[last].Start(connects(last)).0], s, before + [last], connects)
  {
    hide EngineView.Start;
  }

  /** Starting a list of sessions starts each of them once, in place, and nothing else. */
  lemma {:induction false} StartAllStartsEach(s: Manager, names: seq<Name>, env: Creation, connects: Name -> bool)
    requires forall i, j :: 0 <= i < j < |names| ==> names[i] != names[j]
    requires forall n :: n in names ==> n in s.sessions
    ensures Started(StartAll(s, names, env, connects).sessions, s.sessions, names, connects)
    decreases |names|
  {
    if names != [] {
      var before, last := names[..|names| - 1], names[|names| - 1];
      var w := StartAll(s, before, env, connects);
      StartAllStartsEach(s, before, env, connects);
      assert names == before + [last] && last in names;
      assert last in w.sessions;
      hide EngineView.Start, Start, Started;
      StartOne(w, last, env, connects(last));
      StartedSnoc(w.sessions, s.sessions, before, last, connects);
    }
  }

  /** What a wake should make of the sessions `m` that slept: an engine runs iff its client was
      connected at sleep, it is paired and its connection succeeds; every other one is stopped. */
  ghost predicate RestoresLiveSet(m: Manager, w: Manager, connects: Name -> bool) {
    && w.sessions.Keys == m.sessions.Keys
    && (forall n :: n in m.sessions ==>
          w.sessions[n].state ==
          if m.sessions[n].client.state.Connected? && m.sessions[n].paired && connects(n) then Running
          else Stopped)
    && w.preSleep == []
  }

  lemma RestoresUnlessStray(m: Manager, names: seq<Name>, steps: seq<Section>, env: Creation, connects: Name -> bool)
    requires ListsConnected(m, names) && AllSettled(m) && NoneStray(m) && OnlyEnv(steps)
    ensures RestoresLiveSet(m, Wake(Exec(Sleep(m, names), steps), env, connects), connects)
  {
    SleepsThrough(m, names, steps);
    var s := Exec(Sleep(m, names), steps);
    hide Exec, Sleep;
    StartAllStartsEach(s, names, env, connects);
    forall n | n in s.sessions
      ensures s.sessions[n].state == Stopped
      ensures m.sessions[n].client.state.Connected? ==>
                s.sessions[n].Start(connects(n)).0.state
                == if m.sessions[n].paired && connects(n) then Running else Stopped
    {
      if m.sessions[n].client.state.Connected? {
        StartRested(s.sessions[n], m.sessions[n], connects(n));
      }
    }
    hide StartAll, Resting, EngineView.Start;
  }

  /** What the library may do to a stray engine while the others sleep: link it, if it is not paired. */
  function StraySteps(m: Manager, n: Name): seq<Section>
    requires n in m.sessions
  {
    if m.sessions[n].paired then [] else [On(n, Env(LinkDevice))]
  }

  lemma StrayAsleep(m: Manager, names: seq<Name>, n: Name)
    requires n in m.sessions && Stray(m.sessions[n])
    ensures
      var s := Exec(Sleep(m, names), StraySteps(m, n));
      && s.sessions.Keys == m.sessions.Keys && s.preSleep == names
      && s.sessions[n] == m.sessions[n].(paired := true)
  {
    var s, step := Sleep(m, names), On(n, Env(LinkDevice));
    assert s.sessions[n] == m.sessions[n];
    assert s.sessions.Keys == m.sessions.Keys;
    ExecFew(s, step, step, step);
    hide EngineView.Stop, WithDb;
  }

  lemma StrayStarts(e: EngineView)
    requires Stray(e)
    ensures e.(paired := true).Start(false).0.state == Running
  {
  }

  lemma StrayIsStarted(m: Manager, names: seq<Name>, n: Name)
    requires ListsConnected(m, names) && n in m.sessions && Stray(m.sessions[n])
    ensures !RestoresLiveSet(m, Wake(Exec(Sleep(m, names), StraySteps(m, n)), Creation(true, true), _ => false), _ => false)
    ensures OnlyEnv(StraySteps(m, n))
  {
    var s, connects := Exec(Sleep(m, names), StraySteps(m, n)), (_: Name) => false;
    StrayAsleep(m, names, n);
    StrayStarts(m.sessions[n]);
    hide Exec, Sleep;
    StartAllStartsEach(s, names, Creation(true, true), connects);
    hide StartAll, EngineView.Start;
    assert n in names;
    assert Wake(s, Creation(true, true), connects).sessions[n].state == Running;
  }

  /** Whatever the library does in between, and whichever connections succeed. */
  ghost predicate AlwaysRestores(m: Manager, names: seq<Name>) {
    forall steps, env, connects :: OnlyEnv(steps) ==>
      RestoresLiveSet(m, Wake(Exec(Sleep(m, names), steps), env, connects), connects)
  }

  /** SLEEP AND WAKE RESTORE EXACTLY THE LIVE SET, for every iteration order, exactly for the tables in
      which no engine is stopped while its client is connected, and paired or with a socket. */
  lemma SleepWakeRestoresIff(m: Manager, names: seq<Name>)
    requires ListsConnected(m, names) && AllSettled(m)
    ensures AlwaysRestores(m, names) <==> NoneStray(m)
  {
    if NoneStray(m) {
      forall steps, env, connects | OnlyEnv(steps)
        ensures RestoresLiveSet(m, Wake(Exec(Sleep(m, names), steps), env, connects), connects)
      {
        RestoresUnlessStray(m, names, steps, env, connects);
      }
    } else {
      var n :| n in m.sessions && Stray(m.sessions[n]);
      hide Stray, RestoresLiveSet, Wake, Exec, Sleep;
      StrayIsStarted(m, names, n);
    }
  }

  lemma StepSettles(m: Manager, s: Section)
    requires AllSettled(m)
    ensures AllSettled(Step(m, s))
  {
    if s.On? && s.name in m.sessions {
      PerformSettles(m.sessions[s.name], s.call);
    }
    assert NewEngine(m.nextId, true).Settled() && NewEngine(m.nextId, false).Settled();
    hide EngineView.Perform, EngineView.Settled, NewEngine, WithDb;
  }

  lemma PerformSettles(e: EngineView, call: Call)
    requires e.Settled()
    ensures e.Perform(call).Settled()
  {
  }

  lemma {:induction false} ExecSettles(m: Manager, steps: seq<Section>)
    requires AllSettled(m)
    ensures AllSettled(Exec(m, steps))
    decreases |steps|
  {
    if steps != [] {
      ExecSettles(m, steps[..|steps| - 1]);
      hide Step, AllSettled;
      StepSettles(Exec(m, steps[..|steps| - 1]), steps[|steps| - 1]);
    }
  }

  /** Between operations every table is settled, so the theorem applies to all of them. */
  lemma {:induction false} AlwaysAllSettled(disk: map<Name, Directory>, apis: seq<Api>)
    ensures AllSettled(ApplyAll(NewManager(disk), apis))
    decreases |apis|
  {
    if |apis| != 0 {
      var before, api := ApplyAll(NewManager(disk), apis[..|apis| - 1]), apis[|apis| - 1];
      AlwaysAllSettled(disk, apis[..|apis| - 1]);
      if !api.ApiStopAll? && !api.ApiSleep? {
        ApplyIsSections(before, api, []);
        ExecSettles(before, SectionsOf(before, api, []));
        hide Apply, SectionsOf, Exec;
      } else {
        assert forall n :: n in before.sessions ==> before.sessions[n].Stop().Settled();
        hide EngineView.Stop;
      }
    } else {
      assert NewManager(disk).sessions == map[];
    }
  }

  /** A wake with nothing remembered changes nothing: a second wake, or one without a sleep. */
  lemma {:induction false} IdleWake(m: Manager, apis: seq<Api>, env: Creation, connects: Name -> bool)
    requires m.preSleep == [] && forall k :: 0 <= k < |apis| ==> !apis[k].ApiSleep?
    ensures Wake(ApplyAll(m, apis), env, connects) == ApplyAll(m, apis)
    decreases |apis|
  {
    if |apis| != 0 {
      var before, api := ApplyAll(m, apis[..|apis| - 1]), apis[|apis| - 1];
      IdleWake(m, apis[..|apis| - 1], env, connects);
      if !api.ApiStopAll? {
        ApplyIsSections(before, api, []);
        ExecRemembers(before, SectionsOf(before, api, []));
        hide Apply, SectionsOf, Exec;
      }
    }
  }
}

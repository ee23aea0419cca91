/** The session manager as an object: a map it edits in place and loops over, proved against the
    table of module Sessions, and the discovery of sessions on disk. */
module SessionManagers {
  import opened States
  import opened Engines
  import opened Sessions

  /** One entry of the data directory: a directory or not, and whether an engine can be opened on it. */
  datatype DirEntry = DirEntry(name: Name, isDir: bool, opens: bool)

  /** The listing names every directory on the disk, and no name twice. */
  ghost predicate Listing(disk: map<Name, Directory>, entries: seq<DirEntry>) {
    && (forall i, j :: 0 <= i < j < |entries| ==> entries[i].name != entries[j].name)
    && (forall i :: 0 <= i < |entries| ==> (entries[i].isDir <==> entries[i].name in disk))
    && (forall n :: n in disk ==> exists i :: 0 <= i < |entries| && entries[i].name == n)
  }

  /** What discovery takes for a session: a directory with a `wa.db`. */
  predicate LooksLikeSession(disk: map<Name, Directory>, name: Name) {
    name in disk && WaDb in disk[name].files
  }

  /** Discovery is a series of creations, one for each directory that looks like a session. */
  function Discovery(disk: map<Name, Directory>, entries: seq<DirEntry>): seq<Section>
    decreases |entries|
  {
    if entries == [] then [] else
      var before, last := Discovery(disk, entries[..|entries| - 1]), entries[|entries| - 1];
      if last.isDir && LooksLikeSession(disk, last.name)
      then before + [GetOrCreate(last.name, Creation(true, last.opens))] else before
  }

  lemma DiscoverOne(m: Manager, entries: seq<DirEntry>, k: nat)
    requires k < |entries|
    ensures
      var entry, before := entries[k], Exec(m, Discovery(m.disk, entries[..k]));
      Exec(m, Discovery(m.disk, entries[..k + 1])) ==
      if entry.isDir && LooksLikeSession(m.disk, entry.name)
      then DoGetOrCreate(before, entry.name, Creation(true, entry.opens)).0 else before
  {
    assert entries[..k + 1][..k] == entries[..k];
    var steps := Discovery(m.disk, entries[..k]);
    var step := GetOrCreate(entries[k].name, Creation(true, entries[k].opens));
    assert (steps + [step])[..|steps|] == steps;
  }

  /** Once the table is full, the rest of the listing changes nothing. */
  lemma {:induction false} FullStaysFull(m: Manager, entries: seq<DirEntry>, k: nat)
    requires k <= |entries| && |Exec(m, Discovery(m.disk, entries[..k])).sessions| >= MAX_SESSIONS
    ensures Exec(m, Discovery(m.disk, entries)) == Exec(m, Discovery(m.disk, entries[..k]))
    decreases |entries| - k
  {
    if k < |entries| {
      DiscoverOne(m, entries, k);
      FullStaysFull(m, entries, k + 1);
    } else {
      assert entries[..k] == entries;
    }
  }

  class SessionManager {
    var sessions: map<Name, EngineView>
    var disk: map<Name, Directory>
    var preSleepSessions: seq<Name>
    var nextId: nat

    ghost function View(): Manager
      reads this
    {
      Manager(sessions, disk, preSleepSessions, nextId)
    }

    constructor (disk: map<Name, Directory>)
      ensures View() == NewManager(disk)
    {
      sessions, this.disk, preSleepSessions, nextId := map[], disk, [], 0;
    }

    /** Scans the data directory of a new manager: skips what does not look like a session, stops at
        the session limit. */
    method DiscoverSessions(entries: seq<DirEntry>)
      requires View() == NewManager(disk) && Listing(disk, entries)
      modifies this
      ensures View() == Exec(old(View()), Discovery(old(disk), entries))
    {
      hide NewEngine, Exec, Discovery, WithDb, Linked;
      ghost var m := View();
      ExecNothing(m);
      assert entries[..0] == [];
      for k := 0 to |entries|
        invariant View() == Exec(m, Discovery(m.disk, entries[..k]))
        invariant forall i :: k <= i < |entries| ==>
                    entries[i].name !in sessions
                    && (entries[i].isDir ==> entries[i].name in disk && disk[entries[i].name] == m.disk[entries[i].name])
      {
        var entry := entries[k];
        DiscoverOne(m, entries, k);
        if !entry.isDir {
          continue;
        }
        if WaDb !in disk[entry.name].files {
          continue;
        }
        if |sessions| >= MAX_SESSIONS {
          FullStaysFull(m, entries, k);
          return;
        }
        if !entry.opens {
          continue;
        }
        var linked := Linked(disk, entry.name);
        KeepsOthers(disk, entry.name, linked);
        sessions := sessions[entry.name := NewEngine(nextId, linked)];
        disk := WithDb(disk, entry.name, linked);
        nextId := nextId + 1;
      }
      assert entries[..|entries|] == entries;
    }

    method GetOrCreateSession(name: Name, env: Creation) returns (r: Result<()>)
      modifies this
      ensures (View(), r) == DoGetOrCreate(old(View()), name, env)
    {
      if name in sessions {
        return Ok(());
      }
      if |sessions| >= MAX_SESSIONS {
        return Err(MaxSessionsExceeded);
      }
      if !env.mkdir {
        return Err(StorageFailed);
      }
      disk := WithDir(disk, name);
      if !env.opens {
        return Err(StorageFailed);
      }
      DbInNewDir(old(disk), name);
      var linked := Linked(disk, name);
      disk := WithDb(disk, name, linked);
      sessions := sessions[name := NewEngine(nextId, linked)];
      nextId := nextId + 1;
      return Ok(());
    }

    /** Puts the engine of `name` back after a call on it, with what it has stored on disk. */
    method Update(name: Name, e: EngineView)
      modifies this`sessions, this`disk
      ensures sessions == old(sessions)[name := e] && disk == WithDb(old(disk), name, e.paired)
    {
      sessions := sessions[name := e];
      disk := WithDb(disk, name, e.paired);
    }

    method StartSession(name: Name, env: Creation, connects: bool) returns (r: Result<()>)
      modifies this
      ensures (View(), r) == Sessions.Start(old(View()), name, env, connects)
    {
      hide EngineView.Start, NewEngine;
      r := GetOrCreateSession(name, env);
      if r.Ok? {
        var (e, result) := sessions[name].Start(connects);
        Update(name, e);
        r := result;
      }
    }

    /** Drops an unpaired session so that pairing starts from nothing. */
    method ResetIfUnpaired(name: Name, removed: bool)
      modifies this
      ensures View() == DoReset(old(View()), name, removed)
    {
      if name in sessions && !sessions[name].paired {
        sessions := sessions - {name};
        if removed {
          disk := disk - {name};
        }
      }
    }

    method StartPairing(name: Name, env: PairEnv) returns (r: Result<()>)
      modifies this
      ensures (View(), r) == Sessions.StartPairing(old(View()), name, env)
    {
      hide EngineView.StartPairing, NewEngine, DoReset, DoGetOrCreate;
      ResetIfUnpaired(name, env.removed);
      r := GetOrCreateSession(name, env.creation);
      if r.Ok? {
        CreatedOrNot(DoReset(old(View()), name, env.removed), name, env.creation);
        var (e, result) := sessions[name].StartPairing(env.qrChannel, env.connects);
        Update(name, e);
        r := result;
      }
    }

    method Stop(name: Name) returns (r: Result<()>)
      modifies this
      ensures View() == DoOn(old(View()), name, CallStop)
      ensures r == if name in old(sessions) then Ok(()) else Err(SessionNotFound)
    {
      if name !in sessions {
        return Err(SessionNotFound);
      }
      Update(name, sessions[name].Stop());
      return Ok(());
    }

    method StopAll()
      modifies this`sessions
      ensures View() == Sessions.StopAll(old(View()))
    {
      var todo := sessions.Keys;
      while todo != {}
        invariant todo <= sessions.Keys == old(sessions).Keys
        invariant forall n :: n in todo ==> sessions[n] == old(sessions)[n]
        invariant forall n :: n in sessions && n !in todo ==> sessions[n] == old(sessions)[n].Stop()
        decreases todo
      {
        hide EngineView.Stop;
        var n :| n in todo;
        sessions := sessions[n := sessions[n].Stop()];
        todo := todo - {n};
      }
    }

    method RemoveSession(name: Name, removed: bool) returns (r: Result<()>)
      modifies this
      ensures (View(), r) == DoRemove(old(View()), name, removed)
    {
      if name !in sessions {
        return Err(SessionNotFound);
      }
      sessions := sessions - {name};
      if !removed {
        return Err(StorageFailed);
      }
      disk := disk - {name};
      return Ok(());
    }

    /** `loggedOut` is whether the server-side logout of a connected session succeeds. */
    method LogoutSession(name: Name, loggedOut: bool, removed: bool) returns (r: Result<()>)
      modifies this
      ensures (View(), r) == DoLogoutRemove(old(View()), name, loggedOut, removed)
    {
      if name !in sessions {
        return Err(SessionNotFound);
      }
      if sessions[name].client.state == Connected && loggedOut {
        disk := Unlink(disk, name);
      }
      r := RemoveSession(name, removed);
    }

    /** Remembers the connected sessions, in whatever order the map is walked, and stops everything. */
    method OnSleep()
      modifies this
      ensures ListsConnected(old(View()), preSleepSessions)
      ensures View() == Sleep(old(View()), preSleepSessions)
    {
      var names := [];
      var todo := sessions.Keys;
      while todo != {}
        invariant todo <= sessions.Keys
        invariant forall i, j :: 0 <= i < j < |names| ==> names[i] != names[j]
        invariant forall n :: n in names <==> n in sessions && n !in todo && sessions[n].client.state.Connected?
        decreases todo
      {
        var n :| n in todo;
        if sessions[n].client.state == Connected {
          names := names + [n];
        }
        todo := todo - {n};
      }
      preSleepSessions := names;
      StopAll();
    }

    method OnWake(env: Creation, connects: Name -> bool)
      modifies this
      ensures View() == Wake(old(View()), env, connects)
    {
      hide Sessions.Start;
      var names := preSleepSessions;
      for i := 0 to |names|
        invariant View() == StartAll(old(View()), names[..i], env, connects)
      {
        assert names[..i + 1][..i] == names[..i];
        var r := StartSession(names[i], env, connects(names[i]));
      }
      assert names[..|names|] == names;
      preSleepSessions := [];
    }
  }

  lemma ExecNothing(m: Manager)
    ensures Exec(m, Discovery(m.disk, [])) == m
  {
  }

  lemma DbInNewDir(disk: map<Name, Directory>, name: Name)
    ensures Linked(WithDir(disk, name), name) == Linked(disk, name)
    ensures forall linked :: WithDb(WithDir(disk, name), name, linked) == WithDb(disk, name, linked)
  {
    forall linked
      ensures WithDb(WithDir(disk, name), name, linked) == WithDb(disk, name, linked)
    {
      assert WithDb(WithDir(disk, name), name, linked)[name].files == WithDb(disk, name, linked)[name].files;
    }
  }

  lemma KeepsOthers(disk: map<Name, Directory>, name: Name, linked: bool)
    ensures forall n :: n in disk && n != name ==> n in WithDb(disk, name, linked) && WithDb(disk, name, linked)[n] == disk[n]
  {
  }

  // ---------- Restart ----------

  /** The manager of a new process over the same disk. */
  function Restart(disk: map<Name, Directory>, entries: seq<DirEntry>): Manager {
    Exec(NewManager(disk), Discovery(disk, entries))
  }

  ghost predicate Discoverable(disk: map<Name, Directory>, entry: DirEntry) {
    LooksLikeSession(disk, entry.name) && entry.opens
  }

  ghost predicate DiscoveredSoFar(m: Manager, disk: map<Name, Directory>, entries: seq<DirEntry>, k: nat)
    requires k <= |entries|
  {
    && (forall n :: n in m.sessions ==> exists i :: 0 <= i < k && entries[i].name == n && Discoverable(disk, entries[i]))
    && (|m.sessions| < MAX_SESSIONS ==>
          forall i :: 0 <= i < k && Discoverable(disk, entries[i]) ==> entries[i].name in m.sessions)
  }

  lemma InDisk(disk: map<Name, Directory>, entry: DirEntry)
    requires entry.isDir <==> entry.name in disk
    ensures LooksLikeSession(disk, entry.name) ==> entry.isDir
  {
  }

  lemma CreateGrows(m: Manager, name: Name, env: Creation)
    requires env.mkdir
    ensures
      var m' := DoGetOrCreate(m, name, env).0;
      && |m.sessions| <= |m'.sessions|
      && m'.sessions.Keys == m.sessions.Keys + (if |m.sessions| < MAX_SESSIONS && env.opens then {name} else {})
  {
    hide NewEngine, WithDb;
    var m' := DoGetOrCreate(m, name, env).0;
    if name !in m.sessions && |m.sessions| < MAX_SESSIONS && env.opens {
      assert m'.sessions.Keys == m.sessions.Keys + {name};
      assert |m'.sessions.Keys| == |m.sessions.Keys| + 1;
    } else if name in m.sessions {
      assert m.sessions.Keys + {name} == m.sessions.Keys;
    }
  }

  lemma DiscoveredOneMore(m: Manager, m': Manager, disk: map<Name, Directory>, entries: seq<DirEntry>, k: nat)
    requires k < |entries| && DiscoveredSoFar(m, disk, entries, k)
    requires |m.sessions| <= |m'.sessions|
    requires m'.sessions.Keys == m.sessions.Keys
             + if |m.sessions| < MAX_SESSIONS && Discoverable(disk, entries[k]) then {entries[k].name} else {}
    ensures DiscoveredSoFar(m', disk, entries, k + 1)
  {
    hide Discoverable;
    forall n | n in m'.sessions
      ensures exists i :: 0 <= i < k + 1 && entries[i].name == n && Discoverable(disk, entries[i])
    {
      if n in m.sessions {
        var i :| 0 <= i < k && entries[i].name == n && Discoverable(disk, entries[i]);
        assert i < k + 1;
      } else {
        assert entries[k].name == n;
      }
    }
    if |m'.sessions| < MAX_SESSIONS {
      forall i | 0 <= i < k + 1 && Discoverable(disk, entries[i])
        ensures entries[i].name in m'.sessions.Keys
      {
        assert i < k ==> entries[i].name in m.sessions.Keys;
      }
    }
  }

  lemma RestartGrows(disk: map<Name, Directory>, entries: seq<DirEntry>, k: nat)
    requires Listing(disk, entries) && k < |entries|
    ensures
      var m, m' := Restart(disk, entries[..k]), Restart(disk, entries[..k + 1]);
      && |m.sessions| <= |m'.sessions|
      && m'.sessions.Keys == m.sessions.Keys
         + if |m.sessions| < MAX_SESSIONS && Discoverable(disk, entries[k]) then {entries[k].name} else {}
  {
    DiscoverOne(NewManager(disk), entries, k);
    InDisk(disk, entries[k]);
    hide Exec, Discovery, DoGetOrCreate, LooksLikeSession, Listing;
    CreateGrows(Restart(disk, entries[..k]), entries[k].name, Creation(true, entries[k].opens));
  }

  lemma NothingDiscoveredYet(disk: map<Name, Directory>, entries: seq<DirEntry>)
    ensures DiscoveredSoFar(Restart(disk, entries[..0]), disk, entries, 0)
  {
    assert entries[..0] == [];
    ExecNothing(NewManager(disk));
    hide Exec;
  }

  lemma {:induction false} DiscoveredAfter(disk: map<Name, Directory>, entries: seq<DirEntry>, k: nat)
    requires Listing(disk, entries) && k <= |entries|
    ensures DiscoveredSoFar(Restart(disk, entries[..k]), disk, entries, k)
    decreases k
  {
    hide Restart, DiscoveredSoFar, Discoverable, Listing;
    if k != 0 {
      DiscoveredAfter(disk, entries, k - 1);
      RestartGrows(disk, entries, k - 1);
      DiscoveredOneMore(Restart(disk, entries[..k - 1]), Restart(disk, entries[..k]), disk, entries, k - 1);
    } else {
      NothingDiscoveredYet(disk, entries);
    }
  }

  /** WHAT IS DISCOVERED.  After a restart a directory is a session only if it holds a `wa.db`; and
      unless the table is full, exactly those on which an engine opens are. */
  lemma DiscoveredIff(disk: map<Name, Directory>, entries: seq<DirEntry>, i: nat)
    requires Listing(disk, entries) && i < |entries|
    ensures
      var m := Restart(disk, entries);
      && (entries[i].name in m.sessions ==> LooksLikeSession(disk, entries[i].name))
      && (|m.sessions| < MAX_SESSIONS ==>
            (entries[i].name in m.sessions <==> LooksLikeSession(disk, entries[i].name) && entries[i].opens))
  {
    DiscoveredAfter(disk, entries, |entries|);
    assert entries[..|entries|] == entries;
  }

  /** Every `wa.db` now on disk was there in the beginning. */
  ghost predicate OnlyForeign(now: map<Name, Directory>, before: map<Name, Directory>) {
    forall n :: LooksLikeSession(now, n) ==> LooksLikeSession(before, n)
  }

  lemma DirectoriesWriteNoWaDb(disk: map<Name, Directory>, name: Name, removed: bool)
    ensures OnlyForeign(WithDir(disk, name), disk)
    ensures forall linked :: OnlyForeign(WithDb(disk, name, linked), disk)
    ensures OnlyForeign(WithoutDir(disk, name, removed), disk)
    ensures OnlyForeign(WithoutDir(Unlink(disk, name), name, removed), disk)
  {
  }

  lemma StepWritesNoWaDb(m: Manager, s: Section)
    ensures OnlyForeign(Step(m, s).disk, m.disk)
  {
    var removed := if s.ResetUnpaired? || s.Remove? || s.LogoutRemove? then s.removed else false;
    DirectoriesWriteNoWaDb(m.disk, s.name, removed);
    assert OnlyForeign(m.disk, m.disk);
    hide EngineView.Perform, NewEngine, WithDir, WithDb, WithoutDir, Unlink, OnlyForeign;
  }

  lemma {:induction false} ExecWritesNoWaDb(m: Manager, steps: seq<Section>)
    ensures OnlyForeign(Exec(m, steps).disk, m.disk)
    decreases |steps|
  {
    if steps != [] {
      ExecWritesNoWaDb(m, steps[..|steps| - 1]);
      hide Step;
      StepWritesNoWaDb(Exec(m, steps[..|steps| - 1]), steps[|steps| - 1]);
    }
  }

  /** The engine never writes the file that discovery looks for. */
  lemma {:induction false} RunWritesNoWaDb(m: Manager, apis: seq<Api>)
    ensures OnlyForeign(ApplyAll(m, apis).disk, m.disk)
    decreases |apis|
  {
    if |apis| != 0 {
      var before, api := ApplyAll(m, apis[..|apis| - 1]), apis[|apis| - 1];
      RunWritesNoWaDb(m, apis[..|apis| - 1]);
      if !api.ApiStopAll? && !api.ApiSleep? {
        ApplyIsSections(before, api, []);
        ExecWritesNoWaDb(before, SectionsOf(before, api, []));
        hide Apply, SectionsOf, Exec;
      }
    }
  }

  lemma {:induction false} NothingToDiscover(disk: map<Name, Directory>, entries: seq<DirEntry>)
    requires forall n :: !LooksLikeSession(disk, n)
    ensures Discovery(disk, entries) == []
    decreases |entries|
  {
    if entries != [] {
      NothingToDiscover(disk, entries[..|entries| - 1]);
    }
  }

  /** DISCOVERY FINDS NONE OF THE ENGINE'S OWN SESSIONS.  A restart after any run discovers only
      directories that held a foreign `wa.db` before the run; after a run that began on an empty disk
      (or on one without such a file) it discovers nothing, however many sessions there were. */
  lemma RestartDiscoversOnlyForeign(disk: map<Name, Directory>, apis: seq<Api>, entries: seq<DirEntry>)
    requires Listing(ApplyAll(NewManager(disk), apis).disk, entries)
    ensures
      var m := ApplyAll(NewManager(disk), apis);
      && (forall n :: n in Restart(m.disk, entries).sessions ==> LooksLikeSession(disk, n))
      && ((forall n :: !LooksLikeSession(disk, n)) ==> Restart(m.disk, entries) == NewManager(m.disk))
  {
    var m := ApplyAll(NewManager(disk), apis);
    RunWritesNoWaDb(NewManager(disk), apis);
    DiscoveredAfter(m.disk, entries, |entries|);
    assert entries[..|entries|] == entries;
    if forall n :: !LooksLikeSession(disk, n) {
      NothingToDiscover(m.disk, entries);
    }
  }

  /** After a restart every session found is new and knows whether its device is linked, and so does
      the disk. */
  ghost predicate FreshFrom(m: Manager, disk: map<Name, Directory>) {
    && (forall n :: n in m.sessions ==> m.sessions[n] == NewEngine(m.sessions[n].id, Linked(disk, n)))
    && (forall n :: Linked(m.disk, n) == Linked(disk, n))
  }

  lemma CreateKeepsFresh(m: Manager, disk: map<Name, Directory>, name: Name, env: Creation)
    requires FreshFrom(m, disk)
    ensures FreshFrom(DoGetOrCreate(m, name, env).0, disk)
  {
    LinkStays(m.disk, name);
    hide WithDb, WithDir, Linked, NewEngine;
  }

  lemma LinkStays(disk: map<Name, Directory>, name: Name)
    ensures forall n :: Linked(WithDir(disk, name), n) == Linked(disk, n)
    ensures forall n :: Linked(WithDb(disk, name, Linked(disk, name)), n) == Linked(disk, n)
  {
  }

  lemma {:induction false} RestartIsFresh(disk: map<Name, Directory>, entries: seq<DirEntry>, k: nat)
    requires k <= |entries|
    ensures FreshFrom(Restart(disk, entries[..k]), disk)
    decreases k
  {
    if k != 0 {
      RestartIsFresh(disk, entries, k - 1);
      DiscoverOne(NewManager(disk), entries, k - 1);
      hide Exec, Discovery, DoGetOrCreate, FreshFrom;
      CreateKeepsFresh(Restart(disk, entries[..k - 1]), disk, entries[k - 1].name,
                       Creation(true, entries[k - 1].opens));
    } else {
      assert entries[..0] == [];
      ExecNothing(NewManager(disk));
      hide Exec;
    }
  }

  /** How a session whose device is linked starts in a table of new sessions: not at all if the table
      is full of others, and paired otherwise. */
  lemma StartsLinked(m: Manager, disk: map<Name, Directory>, name: Name, connects: bool)
    requires FreshFrom(m, disk) && Linked(disk, name)
    ensures
      var (m', r) := Sessions.Start(m, name, Creation(true, true), connects);
      var full := name !in m.sessions && |m.sessions| >= MAX_SESSIONS;
      && (r == Err(MaxSessionsExceeded) <==> full)
      && (!full ==>
            && name in m'.sessions && m'.sessions[name].paired && Linked(m'.disk, name)
            && (r.Ok? <==> connects)
            && m'.sessions[name].state == if connects then Running else Stopped)
  {
    assert Linked(m.disk, name);
    if name in m.sessions || |m.sessions| < MAX_SESSIONS {
      var id := if name in m.sessions then m.sessions[name].id else m.nextId;
      LinkedStarts(id, connects);
    }
    hide EngineView.Start, NewEngine;
  }

  lemma LinkedStarts(id: nat, connects: bool)
    ensures
      var (e, r) := NewEngine(id, true).Start(connects);
      && e.paired && (r.Ok? <==> connects) && r != Err(MaxSessionsExceeded)
      && e.state == if connects then Running else Stopped
  {
  }

  /** THE LINK SURVIVES A RESTART all the same.  After any run on any disk, starting a session that was
      paired by its name fails with the session limit iff it was not discovered and the table is full
      of directories that were; otherwise it comes back paired, running exactly if its connection
      succeeds. */
  lemma RestartKeepsLink(disk: map<Name, Directory>, apis: seq<Api>, entries: seq<DirEntry>, name: Name, connects: bool)
    requires
      var m := ApplyAll(NewManager(disk), apis);
      Listing(m.disk, entries) && name in m.sessions && m.sessions[name].paired
    ensures
      var restart := Restart(ApplyAll(NewManager(disk), apis).disk, entries);
      var (m', r) := Sessions.Start(restart, name, Creation(true, true), connects);
      var full := name !in restart.sessions && |restart.sessions| >= MAX_SESSIONS;
      && (r == Err(MaxSessionsExceeded) <==> full)
      && (!full ==>
            && name in m'.sessions && m'.sessions[name].paired && Linked(m'.disk, name)
            && (r.Ok? <==> connects)
            && m'.sessions[name].state == if connects then Running else Stopped)
  {
    var m := ApplyAll(NewManager(disk), apis);
    AlwaysTableInv(disk, apis);
    RestartIsFresh(m.disk, entries, |entries|);
    assert entries[..|entries|] == entries;
    assert Linked(m.disk, name);
    hide Sessions.Start, Restart, ApplyAll, FreshFrom;
    StartsLinked(Restart(m.disk, entries), m.disk, name, connects);
  }
}

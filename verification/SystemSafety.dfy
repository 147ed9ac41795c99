/** The whole system: what holds after every history of registrations, releases, deployments, requests, crashes,
    restarts and cleanups, interleaved in any way. */
module SystemSafety {
  import opened Options
  import opened Planning
  import opened Waves
  import opened Tables
  import opened Invariants
  import opened DeploySafety
  import opened RunTables
  import A = ReleaseSafety
  import M = Manifests
  import R = Runs
  import S = RunSafety
  import H = RunHistories

  // ---------------------------------------------------------------- every event keeps the invariant

  lemma RegistersKeep(db: DB, unit: int, version: string, checksum: string)
    requires Inv(db)
    ensures Inv(Register(db, unit, version, checksum).0)
  {
    hide Inv, AddArtifact;
    if unit in db.units && !Registered(db, unit, version) { A.RegisterKeeps(db, unit, version, checksum); }
  }

  lemma ArchivesKeep(db: DB, app: int, release: int, held: bool)
    requires Inv(db)
    ensures Inv(ArchiveRelease(db, app, release, held).0)
  {
    hide Inv, CurrentSomewhere, DeployedNow;
    if ArchiveRelease(db, app, release, held).1.Ok? { ArchiveKeeps(db, release); }
  }

  lemma DeletesKeep(db: DB, app: int, release: int, held: bool)
    requires Inv(db)
    ensures Inv(DeleteRelease(db, app, release, held).0)
  {
    hide Inv, CurrentSomewhere, DeployedEver, BaseOfSome;
    if DeleteRelease(db, app, release, held).1.Ok? { DeleteReleaseKeeps(db, release); }
  }

  lemma SnapshotsKeep(db: DB, r: int)
    requires Inv(db)
    ensures Inv(DeleteSnapshot(db, r).0)
  {
    hide Inv, PutFlow, R.EraseSnapshot;
    if DeleteSnapshot(db, r).1.Ok? {
      OtherStepKeeps(db, r, R.DoEraseSnapshot);
      assert R.Step(db.flows[r], R.DoEraseSnapshot) == R.EraseSnapshot(db.flows[r]);
    }
  }

  lemma HistoriesKeep(db: DB, app: int, r: int, held: bool)
    requires Inv(db)
    ensures Inv(DeleteHistory(db, app, r, held).0)
  {
    hide Inv;
    if DeleteHistory(db, app, r, held).1.Ok? { DeleteHistoryKeeps(db, r); }
  }

  lemma NextKeeps(db: DB, e: Event)
    requires Inv(db)
    ensures Inv(Next(db, e))
  {
    hide Inv, Register, CreateRelease, ArchiveRelease, DeleteRelease, BeginCleanup, EndCleanup, DeleteSnapshot,
         DeleteHistory, CreateRun, RunStep, CrashAll, RecoverAll, SetUnit, SetEnv, AddRevision;
    match e
    case DoRegister(unit, version, checksum) => RegistersKeep(db, unit, version, checksum);
    case DoCreateRelease(app, version, base, changes, selections) => M.CreateReleaseKeeps(db, app, version, base, changes, selections);
    case DoArchive(app, release, held) => ArchivesKeep(db, app, release, held);
    case DoDeleteRelease(app, release, held) => DeletesKeep(db, app, release, held);
    case DoBeginCleanup(a) => CleanupKeeps(db, a, true);
    case DoEndCleanup(a, removed) => CleanupKeeps(db, a, removed);
    case DoDeleteSnapshot(r) => SnapshotsKeep(db, r);
    case DoDeleteHistory(app, r, held) => HistoriesKeep(db, app, r, held);
    case DoCreateRun(env, release, mode, expected) => CreateRunKeeps(db, env, release, mode, expected);
    case DoRunStep(r, step) => if r in db.flows { RunStepKeeps(db, r, step); }
    case DoCrashAll => CrashAllKeeps(db);
    case DoRecoverAll => RecoverAllKeeps(db);
    case DoSetUnit(u, v) => A.SetUnitKeeps(db, u, v);
    case DoSetEnv(env, v) => A.SetEnvKeeps(db, env, v);
    case DoAddRevision(v) => A.AddRevisionKeeps(db, v);
  }

  lemma {:induction false} HistoryKeeps(db: DB, es: seq<Event>)
    requires Inv(db)
    ensures Inv(History(db, es))
    decreases |es|
  {
    hide Inv, Next;
    if es != [] {
      NextKeeps(db, es[0]);
      HistoryKeeps(Next(db, es[0]), es[1..]);
    }
  }

  /** ... from an empty database on. */
  lemma Always(es: seq<Event>)
    ensures Inv(History(Fresh(), es))
  {
    hide Inv, Next, History;
    FreshInv();
    HistoryKeeps(Fresh(), es);
  }

  // ---------------------------------------------------------------- artifacts

  /** Whatever happens, in whatever order: the artifact of every live manifest entry, of every runtime state and of
      every run with its snapshot is there. */
  lemma ArtifactSafety(es: seq<Event>, a: int)
    ensures Referenced(History(Fresh(), es), a) ==> PresentAt(History(Fresh(), es).artifacts, a)
  {
    hide Inv, Next, History, Referenced, PresentAt;
    Always(es);
    var db := History(Fresh(), es);
    if Referenced(db, a) { ReferencedIsPresent(db, a); }
  }

  /** The package of every unit under way can be loaded: it is there, and belongs to the unit. */
  lemma ReleaseLoads(es: seq<Event>, r: int, x: Item)
    requires var db := History(Fresh(), es);
             r in db.flows && x in db.flows[r].run.plan.items && R.StatusOf(db.flows[r].run.rows, x.unitId) == R.InProgress
    ensures var db := History(Fresh(), es);
            if x.release.Some? then Selectable(db, x.unitId, x.release.value) else x.action == Stop
  {
    hide Next, History;
    Always(es);
    hide History;
    UnderwayLoads(History(Fresh(), es), r, x);
  }

  lemma UnderwayLoads(db: DB, r: int, x: Item)
    requires Inv(db) && r in db.flows && x in db.flows[r].run.plan.items
    requires R.StatusOf(db.flows[r].run.rows, x.unitId) == R.InProgress
    ensures if x.release.Some? then Selectable(db, x.unitId, x.release.value) else x.action == Stop
  {
    var run := db.flows[r].run;
    UnderwayRow(db, r, x);
    assert Made(run) && Rooted(db, run.plan, run.targets);
    ItemTargets(run, x);
    var index := IndexStates(Enumerate(StatesIn(run.observed)));
    var entry := db.releases[run.plan.releaseId].entries[x.unitId];
    assert EntryOk(db, run.plan.appId, x.unitId, entry) by {
      hide EntryOk, FlowsOk, Made, WrittenBack, Reachable;
      assert EntriesOk(db, db.releases[run.plan.releaseId].app, db.releases[run.plan.releaseId].entries);
    }
    hide Inv, Made, FlowsOk, StatesOf;
    ItemIsFor(run.plan.mode, run.plan.nodes, index, run.targets[x.unitId]);
  }

  /** A unit without a package is only ever skipped or stopped. */
  lemma ItemIsFor(mode: Mode, nodes: seq<int>, index: StateIndex, t: TargetUnit)
    ensures ItemFor(mode, nodes, index, t).release == t.release
    ensures t.desired == Disabled ==> ItemFor(mode, nodes, index, t).action == Stop || ItemFor(mode, nodes, index, t).action == Skip
  {
    hide StatesOf;
  }

  lemma UnderwayRow(db: DB, r: int, x: Item)
    requires Inv(db) && r in db.flows && x in db.flows[r].run.plan.items
    requires R.StatusOf(db.flows[r].run.rows, x.unitId) == R.InProgress
    ensures x.action != Skip && IsPresent(db.artifacts, x.release)
  {
    hide Catalogued, WrittenBack, RunsRooted, Locked, DeployedReady, CurrentReady, S.Barrier, S.StartedFirst, Sound,
         PresentAt, ExecutionWaves;
    var f := db.flows[r];
    assert S.FlowOk(f);
    assert f.run.rows[x.unitId].release == x.release;
    assert RowsPresent(db.artifacts, f.run.rows);
  }

  /** Cleanup, once begun, can always be taken up again: an artifact that is being deleted, or could not be deleted,
      has nothing that stands in the way. */
  lemma CleanupNeverBlocked(es: seq<Event>, a: int)
    requires var db := History(Fresh(), es);
             a in db.artifacts && (db.artifacts[a].status == Deleting || db.artifacts[a].status == DeleteFailed)
    ensures var db := History(Fresh(), es); Cleanable(db, a) && BeginCleanup(db, a).1 == Ok(true)
  {
    hide Next, History, Referenced;
    ArtifactSafety(es, a);
  }

  // ---------------------------------------------------------------- releases and codes

  /** The release of a run that is not over, every environment's current release and every base are there; the first
      two are ready as well. */
  lemma ReleasesInUse(es: seq<Event>)
    ensures var db := History(Fresh(), es);
            && (forall r :: r in db.flows ==> db.flows[r].run.plan.releaseId in db.releases)
            && (forall r :: r in db.flows && R.Ongoing(db.flows[r].run.status) ==> !db.releases[db.flows[r].run.plan.releaseId].archived)
            && (forall e :: e in db.envs && db.envs[e].current.Some? ==> ReadyOf(db.releases, db.envs[e].current.value, db.envs[e].app))
            && (forall r :: r in db.releases && db.releases[r].base.Some? ==> BaseOf(db.releases, db.releases[r].base.value, db.releases[r]))
  {
    hide Next, History;
    Always(es);
    var db := History(Fresh(), es);
    hide Reachable, WrittenBack, UnitCodes, AppCodes, FlowsOk, Locked, Made, EntriesOk, ConfigsOk, BaseOf, ReadyOf;
    assert forall r :: r in db.flows ==> Rooted(db, db.flows[r].run.plan, db.flows[r].run.targets);
  }

  /** Of two releases of a unit, or of an application, the later one has the greater version code; no unit and no
      application has a version twice, and no two releases have the same manifest. */
  lemma CodesGrow(es: seq<Event>, a: int, b: int)
    requires a < b
    ensures var db := History(Fresh(), es);
            && (a in db.artifacts && b in db.artifacts && db.artifacts[a].unit == db.artifacts[b].unit ==>
                  db.artifacts[a].code < db.artifacts[b].code && db.artifacts[a].version != db.artifacts[b].version)
            && (a in db.releases && b in db.releases && db.releases[a].app == db.releases[b].app ==>
                  db.releases[a].code < db.releases[b].code && db.releases[a].version != db.releases[b].version)
            && (a in db.releases && b in db.releases ==> !SameManifest(db.releases[a], db.releases[b].entries, db.releases[b].configs))
  {
    hide Next, History, Reachable, WrittenBack, RunsOk, ManifestsOk, SameManifest;
    Always(es);
  }

  // ---------------------------------------------------------------- every run

  /** Every run keeps to its schedule, and accounts for all of its units, at every point of every history. */
  lemma EveryRun(es: seq<Event>, r: int)
    requires r in History(Fresh(), es).flows
    ensures var run := History(Fresh(), es).flows[r].run;
            && H.Scheduled(run)
            && (run.status == R.Queued ==> S.Untouched(run.rows))
            && (run.status == R.Success ==> S.AllGood(run.rows))
            && (run.status == R.Reconciling || !R.Ongoing(run.status) ==>
                  && S.Closed(run.rows)
                  && |R.GoodRows(run.rows)| + |R.BadRows(run.rows)| + |R.UnknownRows(run.rows)| == |run.rows|)
  {
    hide Next, History, H.Scheduled, S.Untouched, S.Closed, S.AllGood, S.Barrier, S.StartedFirst, S.RowsOf,
         S.ReleasesOf, Sound;
    Always(es);
    var f := History(Fresh(), es).flows[r];
    assert S.FlowOk(f);
    H.SchedulerSafety(f);
    H.Accounting(f);
  }

  // ---------------------------------------------------------------- the environment lock

  /** No environment ever has two runs that are not over. */
  lemma EnvironmentLock(es: seq<Event>, q: int, r: int)
    requires var db := History(Fresh(), es);
             && q in db.flows && r in db.flows && db.flows[q].run.plan.environmentId == db.flows[r].run.plan.environmentId
             && R.Ongoing(db.flows[q].run.status) && R.Ongoing(db.flows[r].run.status)
    ensures q == r
  {
    hide Next, History, Catalogued, Reachable, WrittenBack, FlowsOk, RunsRooted, DeployedReady, CurrentReady;
    Always(es);
    assert Locked(History(Fresh(), es).flows, History(Fresh(), es).latest);
  }

  // ---------------------------------------------------------------- one run within the system

  /** The step event e takes on run r, if any. */
  function StepOn(db: DB, e: Event, r: int): Option<R.FlowEvent>
    requires r in db.flows
  {
    match e
    case DoRunStep(q, step) =>
      if q != r || step == R.DoCrash || step == R.DoRecover then None
      else if step.DoClaim? then Some(R.DoClaim(LimitOf(db, db.flows[r].run.plan.environmentId), step.signaled))
      else if step.DoJoin? && FindItem(db.flows[r].run.plan.items, step.unit) == None then None
      else Some(step)
    case DoCrashAll => Some(R.DoCrash)
    case DoRecoverAll => if NoDrivers(db.flows) then Some(R.DoRecover) else None
    case DoDeleteSnapshot(q) => if q == r then Some(R.DoEraseSnapshot) else None
    case _ => None
  }

  function AfterStep(f: R.Flow, step: Option<R.FlowEvent>): R.Flow {
    if step.Some? then R.Step(f, step.value) else f
  }

  lemma PutOn(db: DB, q: int, g: R.Flow, r: int)
    requires r in db.flows && q in db.flows
    ensures PutFlow(db, q, g).flows.Keys == db.flows.Keys
    ensures PutFlow(db, q, g).flows[r] == if q == r then g else db.flows[r]
  {
  }

  lemma AdvanceOn(db: DB, q: int, r: int)
    requires r in db.flows && q in db.flows
    ensures AdvanceRun(db, q).flows == PutFlow(db, q, R.Advance(db.flows[q])).flows
  {
    hide R.Advance;
  }

  lemma JoinOn(db: DB, q: int, u: int, o: R.Outcome)
    requires q in db.flows
    ensures JoinUnit(db, q, u, o).flows
            == if FindItem(db.flows[q].run.plan.items, u) == None then db.flows else PutFlow(db, q, R.Join(db.flows[q], u, o)).flows
  {
    hide FindItem, WriteStates, R.Step;
    NotJoinable(db.flows[q], R.DoJoin(u, o));
    H.JoinIsStep(db.flows[q], u, o);
    assert db.flows[q := db.flows[q]] == db.flows;
  }

  lemma RunStepOn(db: DB, q: int, step: R.FlowEvent, r: int)
    requires r in db.flows && q in db.flows
    ensures r in RunStep(db, q, step).flows
    ensures RunStep(db, q, step).flows[r] == AfterStep(db.flows[r], StepOn(db, DoRunStep(q, step), r))
    ensures RunStep(db, q, step).flows.Keys == db.flows.Keys
  {
    hide R.Advance, R.Join, R.Claim, R.Step, FindItem, PutFlow, JoinUnit, AdvanceRun, LimitOf;
    var f := db.flows[q];
    match step
    case DoClaim(limit, signaled) =>
      var given := LimitOf(db, f.run.plan.environmentId);
      PutOn(db, q, R.Claim(f, given, signaled), r);
      H.ClaimIsStep(f, given, signaled);
    case DoAdvance =>
      AdvanceOn(db, q, r);
      PutOn(db, q, R.Advance(f), r);
      H.AdvanceIsStep(f);
    case DoJoin(u, o) =>
      JoinOn(db, q, u, o);
      PutOn(db, q, R.Join(f, u, o), r);
      H.JoinIsStep(f, u, o);
    case DoCrash =>
    case DoRecover =>
    case _ =>
      PutOn(db, q, R.Step(f, step), r);
  }

  lemma NotJoinable(f: R.Flow, step: R.FlowEvent)
    ensures step.DoJoin? && !R.Joinable(f, step.unit) ==> R.Step(f, step) == f
  {
  }

  predicate LeavesRuns(e: Event) {
    e.DoRegister? || e.DoBeginCleanup? || e.DoEndCleanup? || e.DoCreateRelease? || e.DoArchive? || e.DoDeleteRelease?
    || e.DoSetUnit? || e.DoSetEnv? || e.DoAddRevision?
  }

  predicate SameRuns(a: DB, b: DB) { a.flows == b.flows && a.nextRun == b.nextRun }

  lemma RegisterLeaves(db: DB, unit: int, version: string, checksum: string)
    ensures SameRuns(db, Register(db, unit, version, checksum).0)
  {
    hide Registered;
  }

  lemma BeginLeaves(db: DB, a: int)
    ensures SameRuns(db, BeginCleanup(db, a).0)
  {
    hide Cleanable;
    if BeginCleanup(db, a).1.Ok? {
      assert BeginCleanup(db, a).0 == MarkArtifact(db, a, Deleting);
    } else {
      assert BeginCleanup(db, a).0 == db;
    }
  }

  lemma EndLeaves(db: DB, a: int, removed: bool)
    ensures SameRuns(db, EndCleanup(db, a, removed))
  {
  }

  lemma ArchiveLeaves(db: DB, app: int, release: int, held: bool)
    ensures SameRuns(db, ArchiveRelease(db, app, release, held).0)
  {
    hide OfApp, CurrentSomewhere, DeployedNow;
    if ArchiveRelease(db, app, release, held).1.Ok? {
    } else {
      assert ArchiveRelease(db, app, release, held).0 == db;
    }
  }

  lemma DeleteLeaves(db: DB, app: int, release: int, held: bool)
    ensures SameRuns(db, DeleteRelease(db, app, release, held).0)
  {
    hide OfApp, CurrentSomewhere, DeployedEver, BaseOfSome;
    if DeleteRelease(db, app, release, held).1.Ok? {
    } else {
      assert DeleteRelease(db, app, release, held).0 == db;
    }
  }

  lemma AddReleaseLeaves(db: DB, app: int, version: string, base: Option<int>, entries: map<int, Entry>,
                         configs: map<int, int>,
                         changed: set<int>)
    ensures SameRuns(db, AddRelease(db, app, version, base, entries, configs, changed))
  {
  }

  lemma CreationLeaves(db: DB, app: int, version: string, base: Option<int>, changes: seq<Change>,
                       selections: seq<Selection>)
    ensures SameRuns(db, CreateRelease(db, app, version, base, changes, selections).0)
  {
    hide ResolveRelease, AddRelease, ChangedUnits;
    var resolved := ResolveRelease(db, app, version, base, changes, selections);
    if resolved.Ok? {
      AddReleaseLeaves(db, app, version, base, resolved.value.0, resolved.value.1, ChangedUnits(changes));
    }
  }

  lemma SetUnitLeaves(db: DB, u: int, v: Unit)
    ensures SameRuns(db, SetUnit(db, u, v))
  {
  }

  lemma SetEnvLeaves(db: DB, e: int, v: Env)
    ensures SameRuns(db, SetEnv(db, e, v))
  {
  }

  lemma AddRevisionLeaves(db: DB, v: Revision)
    ensures SameRuns(db, AddRevision(db, v))
  {
  }

  lemma FlowsUntouched(db: DB, e: Event)
    requires LeavesRuns(e)
    ensures Next(db, e).flows == db.flows && Next(db, e).nextRun == db.nextRun
  {
    hide Register, CreateRelease, ArchiveRelease, DeleteRelease, BeginCleanup, EndCleanup, DeleteSnapshot,
         DeleteHistory, CreateRun, RunStep, CrashAll, RecoverAll, SetUnit, SetEnv, AddRevision;
    match e
    case DoRegister(unit, version, checksum) => RegisterLeaves(db, unit, version, checksum);
    case DoBeginCleanup(a) => BeginLeaves(db, a);
    case DoEndCleanup(a, removed) => EndLeaves(db, a, removed);
    case DoCreateRelease(app, version, base, changes, selections) => CreationLeaves(db, app, version, base, changes, selections);
    case DoArchive(app, release, held) => ArchiveLeaves(db, app, release, held);
    case DoDeleteRelease(app, release, held) => DeleteLeaves(db, app, release, held);
    case DoSetUnit(u, v) => SetUnitLeaves(db, u, v);
    case DoSetEnv(env, v) => SetEnvLeaves(db, env, v);
    case DoAddRevision(v) => AddRevisionLeaves(db, v);
  }

  lemma SnapshotOn(db: DB, q: int, r: int)
    requires r in db.flows
    ensures DeleteSnapshot(db, q).0.flows.Keys == db.flows.Keys
    ensures DeleteSnapshot(db, q).0.flows[r] == if q == r then R.EraseSnapshot(db.flows[r]) else db.flows[r]
  {
    hide R.EraseReleases, PutFlow;
    if DeleteSnapshot(db, q).1.Ok? {
      assert DeleteSnapshot(db, q).0 == PutFlow(db, q, R.EraseSnapshot(db.flows[q]));
      hide *;
      PutOn(db, q, R.EraseSnapshot(db.flows[q]), r);
    } else {
      assert DeleteSnapshot(db, q).0 == db;
    }
  }

  lemma DeleteOn(db: DB, app: int, q: int, held: bool, r: int)
    requires r in db.flows && r in DeleteHistory(db, app, q, held).0.flows
    ensures DeleteHistory(db, app, q, held).0.flows[r] == db.flows[r]
  {
  }

  lemma CreateOn(db: DB, env: int, release: int, mode: Mode, expected: Document, r: int)
    requires r in db.flows && r < db.nextRun
    ensures r in CreateRun(db, env, release, mode, expected).0.flows
    ensures CreateRun(db, env, release, mode, expected).0.flows[r] == db.flows[r]
  {
    hide LoadPlan, Busy, R.NewFlow, TargetsFor, ObservedIn;
  }

  lemma OtherEventOn(db: DB, e: Event, r: int)
    requires r in db.flows && r < db.nextRun && r in Next(db, e).flows && !e.DoRunStep?
    ensures Next(db, e).flows[r] == AfterStep(db.flows[r], StepOn(db, e, r))
  {
    if LeavesRuns(e) {
      FlowsUntouched(db, e);
    } else {
      hide R.Crash, R.Recover, NoDrivers, DeleteSnapshot, DeleteHistory, CreateRun, R.EraseSnapshot;
      match e
      case DoDeleteSnapshot(q) => SnapshotOn(db, q, r);
      case DoDeleteHistory(app, q, held) => DeleteOn(db, app, q, held, r);
      case DoCreateRun(env, release, mode, expected) => CreateOn(db, env, release, mode, expected, r);
      case DoCrashAll =>
      case DoRecoverAll => RecoverOn(db, r);
    }
  }

  lemma RecoverOn(db: DB, r: int)
    requires r in db.flows
    ensures r in RecoverAll(db).flows
    ensures RecoverAll(db).flows[r] == if NoDrivers(db.flows) then R.Step(db.flows[r], R.DoRecover) else db.flows[r]
  {
    hide R.Recover;
  }

  /** What an event does to a run is one step of that run, or nothing, or its removal. */
  lemma NextOn(db: DB, e: Event, r: int)
    requires r in db.flows && r < db.nextRun && r in Next(db, e).flows
    ensures Next(db, e).flows[r] == AfterStep(db.flows[r], StepOn(db, e, r))
  {
    hide RunStep, StepOn, AfterStep;
    if e.DoRunStep? {
      if e.run in db.flows { RunStepOn(db, e.run, e.step, r); } else { NoSuchRun(db, e, r); }
    } else {
      OtherEventOn(db, e, r);
    }
  }

  lemma NoSuchRun(db: DB, e: Event, r: int)
    requires r in db.flows && e.DoRunStep? && e.run !in db.flows
    ensures StepOn(db, e, r) == None && AfterStep(db.flows[r], None) == db.flows[r] && Next(db, e) == db
  {
  }

  /** The steps that the events of a history take on run r. */
  ghost function StepsOn(db: DB, es: seq<Event>, r: int): seq<R.FlowEvent>
    decreases |es|
  {
    if es == [] || r !in db.flows then [] else
    (if StepOn(db, es[0], r).Some? then [StepOn(db, es[0], r).value] else []) + StepsOn(Next(db, es[0]), es[1..], r)
  }

  lemma NeverBack(db: DB, e: Event, r: int)
    requires r !in db.flows && r < db.nextRun
    ensures r !in Next(db, e).flows
  {
    hide LoadPlan, ResolveRelease, Referenced, CurrentSomewhere, DeployedNow, DeployedEver, BaseOfSome, Registered,
         Busy, R.NewFlow, TargetsFor, ObservedIn, R.Advance, R.Join, R.Claim, R.Step, FindItem, NoDrivers, R.Crash,
         R.Recover, R.EraseSnapshot;
    if LeavesRuns(e) {
      FlowsUntouched(db, e);
    } else if e.DoRunStep? {
      hide RunStep;
      if e.run in db.flows { RunStepOn(db, e.run, e.step, e.run); }
    }
  }

  lemma RunsCount(db: DB, e: Event)
    ensures Next(db, e).nextRun >= db.nextRun
  {
    hide LoadPlan, ResolveRelease, Referenced, CurrentSomewhere, DeployedNow, DeployedEver, BaseOfSome, Registered,
         Busy, R.NewFlow, TargetsFor, ObservedIn, R.Advance, R.Join, R.Claim, R.Step, FindItem, NoDrivers, R.Crash,
         R.Recover, R.EraseSnapshot, RunStep;
    if LeavesRuns(e) {
      FlowsUntouched(db, e);
    } else if e.DoRunStep? && e.run in db.flows {
      RunStepCount(db, e.run, e.step);
    }
  }

  lemma RunStepCount(db: DB, q: int, step: R.FlowEvent)
    requires q in db.flows
    ensures RunStep(db, q, step).nextRun == db.nextRun
  {
    hide R.Advance, R.Join, R.Claim, R.Step, FindItem, R.Joinable, JoinUnit, AdvanceRun;
    AdvanceCount(db, q);
    if step.DoJoin? { JoinCount(db, q, step.unit, step.outcome); }
  }

  lemma AdvanceCount(db: DB, q: int)
    requires q in db.flows
    ensures AdvanceRun(db, q).nextRun == db.nextRun
  {
    hide R.Advance;
    var put := PutFlow(db, q, R.Advance(db.flows[q]));
    assert put.nextRun == db.nextRun;
    hide PutFlow;
  }

  lemma JoinCount(db: DB, q: int, u: int, o: R.Outcome)
    requires q in db.flows
    ensures JoinUnit(db, q, u, o).nextRun == db.nextRun
  {
    hide R.Join, FindItem, WriteStates, R.Joinable;
  }

  lemma {:induction false} GoneForGood(db: DB, es: seq<Event>, r: int)
    requires r !in db.flows && r < db.nextRun
    ensures r !in History(db, es).flows
    decreases |es|
  {
    hide Next;
    if es != [] {
      NeverBack(db, es[0], r);
      RunsCount(db, es[0]);
      GoneForGood(Next(db, es[0]), es[1..], r);
    }
  }

  /** A run in the system goes through a history of its own: what was proved of every such history holds of it. */
  lemma {:induction false} HistoryProjects(db: DB, es: seq<Event>, r: int)
    requires r in db.flows && r < db.nextRun && r in History(db, es).flows
    ensures History(db, es).flows[r] == H.Replay(db.flows[r], StepsOn(db, es, r))
    decreases |es|
  {
    hide Next, StepOn, R.Step;
    if es != [] {
      var next := Next(db, es[0]);
      RunsCount(db, es[0]);
      if r !in next.flows { GoneForGood(next, es[1..], r); }
      NextOn(db, es[0], r);
      HistoryProjects(next, es[1..], r);
      var step, rest := StepOn(db, es[0], r), StepsOn(next, es[1..], r);
      if step.Some? { assert ([step.value] + rest)[1..] == rest; } else { assert [] + rest == rest; }
    }
  }

  // ---------------------------------------------------------------- lifted to the system

  /** A run that is over keeps its status. */
  lemma TerminalKept(db: DB, es: seq<Event>, r: int)
    requires Inv(db) && r in db.flows && r in History(db, es).flows && !R.Ongoing(db.flows[r].run.status)
    ensures History(db, es).flows[r].run.status == db.flows[r].run.status
  {
    assert S.FlowOk(db.flows[r]) && r < db.nextRun;
    hide *;
    HistoryProjects(db, es, r);
    H.StatusMovesOn(db.flows[r], StepsOn(db, es, r));
  }

  lemma NoConfirmation(db: DB, e: Event, r: int)
    requires r in db.flows && e != DoRunStep(r, R.DoConfirm)
    ensures StepOn(db, e, r) != Some(R.DoConfirm)
  {
  }

  lemma InterruptedAfter(f: R.Flow, step: Option<R.FlowEvent>)
    requires S.FlowOk(f) && H.Interrupted(f) && step != Some(R.DoConfirm)
    ensures H.Interrupted(AfterStep(f, step)) && AfterStep(f, step).run.plan == f.run.plan
  {
    hide S.FlowOk, R.Step, H.Interrupted;
    if step.Some? {
      H.InterruptedStep(f, step.value);
      H.StepMovesOn(f, step.value);
    }
  }

  /** An interrupted run stays in the table ... */
  lemma InterruptedNext(db: DB, e: Event, r: int)
    requires Inv(db) && r in db.flows && H.Interrupted(db.flows[r]) && e != DoRunStep(r, R.DoConfirm)
    ensures r in Next(db, e).flows && H.Interrupted(Next(db, e).flows[r])
    ensures Next(db, e).flows[r].run.plan == db.flows[r].run.plan
  {
    assert S.FlowOk(db.flows[r]) && r < db.nextRun;
    assert R.Ongoing(db.flows[r].run.status);
    hide Inv, S.FlowOk, H.Interrupted, Next, StepOn, AfterStep;
    StaysWhileOngoing(db, e, r);
    NextOn(db, e, r);
    NoConfirmation(db, e, r);
    InterruptedAfter(db.flows[r], StepOn(db, e, r));
  }

  lemma StaysWhileOngoing(db: DB, e: Event, r: int)
    requires r in db.flows && r < db.nextRun && R.Ongoing(db.flows[r].run.status)
    ensures r in Next(db, e).flows
  {
    hide LoadPlan, ResolveRelease, Referenced, CurrentSomewhere, DeployedNow, DeployedEver, BaseOfSome, Registered,
         Busy, R.NewFlow, TargetsFor, ObservedIn, R.Advance, R.Join, R.Claim, R.Step, FindItem, NoDrivers, R.Crash,
         R.Recover, R.EraseSnapshot;
    if LeavesRuns(e) {
      FlowsUntouched(db, e);
    } else if e.DoRunStep? && e.run in db.flows {
      RunStepOn(db, e.run, e.step, r);
    }
  }

  /** ... and holds the lock of its environment, through crashes and restarts, until an operator confirms that it has
      stopped: nothing else can be deployed there. */
  lemma {:induction false} InterruptedLocks(db: DB, es: seq<Event>, r: int)
    requires Inv(db) && r in db.flows && H.Interrupted(db.flows[r]) && DoRunStep(r, R.DoConfirm) !in es
    ensures var after := History(db, es);
            && r in after.flows && H.Interrupted(after.flows[r])
            && forall release, mode, expected ::
                 CreateRun(after, db.flows[r].run.plan.environmentId, release, mode, expected) == (after, Err(Conflict))
    decreases |es|
  {
    hide Inv, Next, LoadPlan;
    if es != [] {
      assert es[0] in es;
      NextKeeps(db, es[0]);
      InterruptedNext(db, es[0], r);
      InterruptedLocks(Next(db, es[0]), es[1..], r);
    }
  }

  // ---------------------------------------------------------------- from any point of any history on

  /** A run that is over at some point keeps its status at every later point at which it is still in the table. */
  lemma TerminalForever(before: seq<Event>, after: seq<Event>, r: int)
    requires var db := History(Fresh(), before);
             r in db.flows && r in History(db, after).flows && !R.Ongoing(db.flows[r].run.status)
    ensures var db := History(Fresh(), before);
            History(db, after).flows[r].run.status == db.flows[r].run.status
  {
    hide Next, History, Inv;
    Always(before);
    TerminalKept(History(Fresh(), before), after, r);
  }

  /** A run that lost its executor to a crash holds the lock of its environment, through later crashes and restarts and
      whatever else happens, until an operator confirms that it has stopped: until then no run is created there. */
  lemma InterruptedHoldsLock(before: seq<Event>, after: seq<Event>, r: int, release: int, mode: Mode,
                             expected: Document)
    requires var db := History(Fresh(), before); r in db.flows && H.Interrupted(db.flows[r])
    requires DoRunStep(r, R.DoConfirm) !in after
    ensures var db := History(Fresh(), before); var later := History(db, after);
            && r in later.flows && H.Interrupted(later.flows[r])
            && CreateRun(later, db.flows[r].run.plan.environmentId, release, mode, expected) == (later, Err(Conflict))
  {
    hide Next, History, Inv, CreateRun, H.Interrupted;
    Always(before);
    InterruptedLocks(History(Fresh(), before), after, r);
  }

  // ---------------------------------------------------------------- previews and registrations

  /** What was previewed, at whatever earlier time, is what is executed: a run created for the hash of a previewed plan
      carries that very plan. */
  lemma PreviewedIsExecuted(earlier: DB, db: DB, env: int, release: int, mode: Mode, previewed: Plan)
    requires LoadPlan(earlier, env, release, mode) == Ok(previewed)
    requires CreateRun(db, env, release, mode, previewed.hash).1.Ok?
    ensures var c := CreateRun(db, env, release, mode, previewed.hash);
            c.1.value in c.0.flows && c.0.flows[c.1.value].run.plan == previewed && c.0.flows[c.1.value].run.status == R.Queued
  {
    HashIsPlan(earlier, env, release, mode, previewed);
    var plan := LoadPlan(db, env, release, mode).value;
    HashIsPlan(db, env, release, mode, plan);
    hide LoadPlan, TargetsFor, ObservedIn, Busy;
  }

  lemma HashIsPlan(db: DB, env: int, release: int, mode: Mode, plan: Plan)
    requires LoadPlan(db, env, release, mode) == Ok(plan)
    ensures plan == Plan(plan.hash.appId, plan.hash.environmentId, plan.hash.releaseId, plan.hash.configId, plan.hash.mode,
                         plan.hash.nodes, plan.hash.items, plan.hash)
  {
    hide SortItems, SortedNodes, Items, IndexStates, DistinctStates, UnitError, TargetsFor, ObservedIn, Deployable;
  }

  /** Registering the same package of the same version again changes nothing and gives the same release; another package
      of that version is refused. */
  lemma RegisterIdempotent(db: DB, unit: int, version: string, checksum: string, other: string)
    requires Inv(db) && Register(db, unit, version, checksum).1.Ok?
    ensures var (after, r) := Register(db, unit, version, checksum);
            && r.value in after.artifacts && SameVersion(after.artifacts[r.value], unit, version)
            && after.artifacts[r.value].checksum == checksum
            && Register(after, unit, version, checksum) == (after, r)
            && (other != checksum ==> Register(after, unit, version, other) == (after, Err(Conflict)))
  {
    var (after, r) := Register(db, unit, version, checksum);
    RegistersKeep(db, unit, version, checksum);
    RegisteredAs(db, unit, version, checksum);
    OneOfVersion(after, unit, version, r.value);
    hide Inv;
  }

  lemma RegisteredAs(db: DB, unit: int, version: string, checksum: string)
    requires Register(db, unit, version, checksum).1.Ok?
    ensures var (after, r) := Register(db, unit, version, checksum);
            && unit in after.units && r.value in after.artifacts && SameVersion(after.artifacts[r.value], unit, version)
            && after.artifacts[r.value].checksum == checksum
  {
  }

  lemma OneOfVersion(db: DB, unit: int, version: string, a: int)
    requires Inv(db) && a in db.artifacts && SameVersion(db.artifacts[a], unit, version)
    ensures forall b :: b in db.artifacts && SameVersion(db.artifacts[b], unit, version) ==> b == a
  {
    hide AppCodes, ManifestsDiffer, ManifestsOk, RunsOk, Reachable, WrittenBack;
  }
}

/** What becomes of one unit release: its package is there until a cleanup, which once begun is not undone by anything
    else, and when it is deleted the version is lost for good. */
module ArtifactLives {
  import opened Options
  import opened Planning
  import opened Tables
  import opened Invariants
  import opened DeploySafety
  import opened SystemSafety
  import R = Runs

  /** The events that change artifacts. */
  predicate TouchesArtifacts(e: Event) {
    e.DoRegister? || e.DoBeginCleanup? || e.DoEndCleanup?
  }

  lemma RunStepLeaves(db: DB, r: int, e: R.FlowEvent)
    requires r in db.flows
    ensures RunStep(db, r, e).artifacts == db.artifacts
  {
    hide R.Claim, R.Advance, R.Join, R.Step, FindItem, EndsWell, WithCurrent, WriteStates, LimitOf;
  }

  lemma AddRunLeavesThem(db: DB, env: int, f: R.Flow)
    ensures AddRun(db, env, f).artifacts == db.artifacts && AddRun(db, env, f).envs == db.envs
  {
  }

  lemma CreateRunLeaves(db: DB, env: int, release: int, mode: Mode, expected: Document)
    ensures CreateRun(db, env, release, mode, expected).0.artifacts == db.artifacts
    ensures CreateRun(db, env, release, mode, expected).0.envs == db.envs
  {
    var c := CreateRun(db, env, release, mode, expected);
    if c.1.Ok? {
      var plan := LoadPlan(db, env, release, mode).value;
      var f := R.NewFlow(plan, TargetsFor(db, env, release), ObservedIn(db, env, db.envs[env].nodes));
      assert c.0 == AddRun(db, env, f);
      hide *;
      AddRunLeavesThem(db, env, f);
    } else {
      assert c.0 == db;
    }
  }

  lemma CreateReleaseLeaves(db: DB, app: int, version: string, base: Option<int>, changes: seq<Change>,
                            selections: seq<Selection>)
    ensures CreateRelease(db, app, version, base, changes, selections).0.artifacts == db.artifacts
    ensures CreateRelease(db, app, version, base, changes, selections).0.envs == db.envs
  {
    hide ResolveRelease, ChangedUnits;
  }

  lemma ArchiveLeavesThem(db: DB, app: int, release: int, held: bool)
    ensures var b := ArchiveRelease(db, app, release, held).0; b.artifacts == db.artifacts && b.envs == db.envs
  {
    hide CurrentSomewhere, DeployedNow, OfApp;
  }

  lemma DeleteLeavesThem(db: DB, app: int, release: int, held: bool)
    ensures var b := DeleteRelease(db, app, release, held).0; b.artifacts == db.artifacts && b.envs == db.envs
  {
    hide CurrentSomewhere, DeployedEver, BaseOfSome, OfApp;
  }

  lemma SnapshotLeavesThem(db: DB, r: int)
    ensures var b := DeleteSnapshot(db, r).0; b.artifacts == db.artifacts && b.envs == db.envs
  {
    hide R.EraseSnapshot, R.Ongoing;
  }

  lemma HistoryLeavesThem(db: DB, app: int, r: int, held: bool)
    ensures var b := DeleteHistory(db, app, r, held).0; b.artifacts == db.artifacts && b.envs == db.envs
  {
    hide R.Ongoing;
  }

  lemma RestartLeaves(db: DB)
    ensures CrashAll(db).artifacts == RecoverAll(db).artifacts == db.artifacts
    ensures CrashAll(db).envs == RecoverAll(db).envs == db.envs
  {
    hide NoDrivers, R.Crash, R.Recover;
  }

  lemma SetUnitLeavesThem(db: DB, u: int, v: Unit)
    ensures SetUnit(db, u, v).artifacts == db.artifacts && SetUnit(db, u, v).envs == db.envs
  {
  }

  lemma SetEnvLeavesThem(db: DB, e: int, v: Env)
    ensures SetEnv(db, e, v).artifacts == db.artifacts
  {
    var b := SetEnv(db, e, v);
    if e !in db.envs {
      assert b.artifacts == db.artifacts;
    } else if db.envs[e].app == v.app {
      assert b.artifacts == db.artifacts;
    } else {
      assert b == db;
    }
    hide SetEnv;
  }

  lemma AddRevisionLeavesThem(db: DB, v: Revision)
    ensures AddRevision(db, v).artifacts == db.artifacts && AddRevision(db, v).envs == db.envs
  {
  }

  lemma CatalogueLeaves(db: DB, e: Event)
    requires !TouchesArtifacts(e) && !e.DoRunStep? && !e.DoCreateRun?
    ensures Next(db, e).artifacts == db.artifacts && (!e.DoSetEnv? ==> Next(db, e).envs == db.envs)
  {
    hide CreateRelease, ArchiveRelease, DeleteRelease, DeleteSnapshot, DeleteHistory, CrashAll, RecoverAll, SetUnit,
         SetEnv, AddRevision;
    match e
    case DoCreateRelease(app, version, base, changes, selections) =>
      CreateReleaseLeaves(db, app, version, base, changes, selections);
    case DoArchive(app, release, held) => ArchiveLeavesThem(db, app, release, held);
    case DoDeleteRelease(app, release, held) => DeleteLeavesThem(db, app, release, held);
    case DoDeleteSnapshot(r) => SnapshotLeavesThem(db, r);
    case DoDeleteHistory(app, r, held) => HistoryLeavesThem(db, app, r, held);
    case DoSetUnit(u, v) => SetUnitLeavesThem(db, u, v);
    case DoSetEnv(env, v) => SetEnvLeavesThem(db, env, v);
    case DoAddRevision(v) => AddRevisionLeavesThem(db, v);
    case _ => RestartLeaves(db);
  }

  lemma ArtifactsUntouched(db: DB, e: Event)
    requires !TouchesArtifacts(e)
    ensures Next(db, e).artifacts == db.artifacts
  {
    if e.DoRunStep? {
      hide RunStep;
      if e.run in db.flows { RunStepLeaves(db, e.run, e.step); }
    } else if e.DoCreateRun? {
      hide CreateRun;
      CreateRunLeaves(db, e.env, e.release, e.mode, e.expected);
    } else {
      hide Next;
      CatalogueLeaves(db, e);
    }
  }

  lemma PackagesLeave(db: DB, e: Event)
    requires TouchesArtifacts(e)
    ensures Next(db, e).envs == db.envs
  {
    hide Registered, Cleanable;
  }

  /** Environments change when they are edited and when their runs take a step. */
  lemma EnvsUntouched(db: DB, e: Event)
    requires !e.DoRunStep? && !e.DoSetEnv?
    ensures Next(db, e).envs == db.envs
  {
    if TouchesArtifacts(e) {
      hide Next;
      PackagesLeave(db, e);
    } else if e.DoCreateRun? {
      hide CreateRun;
      CreateRunLeaves(db, e.env, e.release, e.mode, e.expected);
    } else {
      hide Next;
      CatalogueLeaves(db, e);
    }
  }

  /** The status of an artifact after an event. */
  function StatusAfter(db: DB, e: Event, a: int): ArtifactStatus
    requires a in db.artifacts
  {
    var status := db.artifacts[a].status;
    match e
    case DoBeginCleanup(b) => if a == b && Cleanable(db, a) then Deleting else status
    case DoEndCleanup(b, removed) => if a == b && status == Deleting then (if removed then Deleted else DeleteFailed) else status
    case _ => status
  }

  lemma RegisterNext(db: DB, unit: int, version: string, checksum: string, a: int)
    requires a in db.artifacts && a < db.nextArtifact
    ensures var b := Register(db, unit, version, checksum).0; a in b.artifacts && b.artifacts[a] == db.artifacts[a]
  {
    hide Registered;
  }

  lemma BeginNext(db: DB, b: int, a: int)
    requires a in db.artifacts
    ensures var c := BeginCleanup(db, b).0;
            && a in c.artifacts
            && c.artifacts[a] == db.artifacts[a].(status := StatusAfter(db, DoBeginCleanup(b), a))
  {
    hide Cleanable;
  }

  lemma EndNext(db: DB, b: int, removed: bool, a: int)
    requires a in db.artifacts
    ensures var c := EndCleanup(db, b, removed);
            && a in c.artifacts
            && c.artifacts[a] == db.artifacts[a].(status := StatusAfter(db, DoEndCleanup(b, removed), a))
  {
  }

  /** Nothing but its own cleanup changes an artifact. */
  lemma ArtifactNext(db: DB, e: Event, a: int)
    requires a in db.artifacts && a < db.nextArtifact
    ensures a in Next(db, e).artifacts
    ensures Next(db, e).artifacts[a] == db.artifacts[a].(status := StatusAfter(db, e, a))
  {
    if TouchesArtifacts(e) {
      hide Register, BeginCleanup, EndCleanup, Cleanable;
      match e
      case DoRegister(unit, version, checksum) => RegisterNext(db, unit, version, checksum, a);
      case DoBeginCleanup(b) => BeginNext(db, b, a);
      case DoEndCleanup(b, removed) => EndNext(db, b, removed, a);
    } else {
      hide Next;
      ArtifactsUntouched(db, e);
    }
  }

  ghost predicate EndsCleanupOf(e: Event, a: int) { e.DoEndCleanup? && e.artifact == a }

  /** A cleanup under way stays under way, whatever else happens, until it ends. */
  lemma {:induction false} StaysDeleting(db: DB, es: seq<Event>, a: int)
    requires Inv(db) && a in db.artifacts && db.artifacts[a].status == Deleting
    requires forall e :: e in es ==> !EndsCleanupOf(e, a)
    ensures a in History(db, es).artifacts && History(db, es).artifacts[a] == db.artifacts[a]
    decreases |es|
  {
    if es != [] {
      assert IdsFresh(db);
      hide Inv, Next;
      assert es[0] in es;
      ArtifactNext(db, es[0], a);
      NextKeeps(db, es[0]);
      StaysDeleting(Next(db, es[0]), es[1..], a);
    }
  }

  /** A cleanup that may begin reaches its end: whatever happens while the package is being removed, the outcome is
      then stored, and nothing refers to the artifact. */
  lemma CleanupFinishes(before: seq<Event>, a: int, others: seq<Event>, removed: bool)
    requires BeginCleanup(History(Fresh(), before), a).1.Ok?
    requires forall e :: e in others ==> !EndsCleanupOf(e, a)
    ensures var begun := BeginCleanup(History(Fresh(), before), a).0; var later := History(begun, others);
            var after := EndCleanup(later, a, removed);
            && a in later.artifacts && later.artifacts[a].status == Deleting && !Referenced(after, a)
            && after.artifacts == later.artifacts[a := later.artifacts[a].(status := if removed then Deleted else DeleteFailed)]
  {
    var db := History(Fresh(), before);
    Always(before);
    var begun := BeginCleanup(db, a).0;
    assert Next(db, DoBeginCleanup(a)) == begun && a in begun.artifacts && begun.artifacts[a].status == Deleting;
    hide Inv, Next, History, Referenced;
    NextKeeps(db, DoBeginCleanup(a));
    StaysDeleting(begun, others, a);
    var later := History(begun, others);
    HistoryKeeps(begun, others);
    NextKeeps(later, DoEndCleanup(a, removed));
    EndIsNext(later, a, removed);
    GoneUnreferenced(EndCleanup(later, a, removed), a);
  }

  lemma EndIsNext(db: DB, a: int, removed: bool)
    ensures Next(db, DoEndCleanup(a, removed)) == EndCleanup(db, a, removed)
  {
  }

  lemma GoneUnreferenced(db: DB, a: int)
    requires Inv(db) && a in db.artifacts && db.artifacts[a].status != Present
    ensures !Referenced(db, a)
  {
    hide Inv, Referenced;
    if Referenced(db, a) { ReferencedIsPresent(db, a); }
  }

  // ---------------------------------------------------------------- a version whose package is gone

  lemma {:induction false} StaysDeleted(db: DB, es: seq<Event>, a: int)
    requires Inv(db) && a in db.artifacts && db.artifacts[a].status == Deleted
    ensures a in History(db, es).artifacts && History(db, es).artifacts[a] == db.artifacts[a]
    decreases |es|
  {
    if es != [] {
      assert IdsFresh(db);
      hide Inv, Next;
      ArtifactNext(db, es[0], a);
      NextKeeps(db, es[0]);
      StaysDeleted(Next(db, es[0]), es[1..], a);
    }
  }

  lemma Reregistered(db: DB, a: int, checksum: string)
    requires Inv(db) && a in db.artifacts && db.artifacts[a].unit in db.units
    ensures Register(db, db.artifacts[a].unit, db.artifacts[a].version, checksum)
         == (db, if checksum == db.artifacts[a].checksum then Ok(a) else Err(Conflict))
  {
    OneOfVersion(db, db.artifacts[a].unit, db.artifacts[a].version, a);
    hide Inv, AddArtifact;
    assert Registered(db, db.artifacts[a].unit, db.artifacts[a].version);
  }

  /** What registering a package is worth: the release it gives can be selected for a manifest exactly when the version
      is new or its package has not been touched by a cleanup. */
  lemma RegisteredSelectable(db: DB, unit: int, version: string, checksum: string)
    requires Inv(db) && Register(db, unit, version, checksum).1.Ok?
    ensures var (after, r) := Register(db, unit, version, checksum);
            Selectable(after, unit, r.value) <==>
              forall a :: a in db.artifacts && SameVersion(db.artifacts[a], unit, version) ==> db.artifacts[a].status == Present
  {
    if Registered(db, unit, version) {
      var a :| a in db.artifacts && SameVersion(db.artifacts[a], unit, version);
      OneOfVersion(db, unit, version, a);
      Reregistered(db, a, checksum);
    }
  }

  /** A version is lost with its package: after any later history, registering the same package again reports success
      and changes nothing, and every change of a manifest that asks for the release it reports is refused. */
  lemma DeletedForGood(before: seq<Event>, after: seq<Event>, a: int, app: int)
    requires var db := History(Fresh(), before);
             a in db.artifacts && db.artifacts[a].status == Deleted && db.artifacts[a].unit in History(db, after).units
    ensures var x := History(Fresh(), before).artifacts[a]; var db := History(History(Fresh(), before), after);
            && Register(db, x.unit, x.version, x.checksum) == (db, Ok(a))
            && forall c: Change :: c.desired == Active && c.release == Some(a) ==> EntryOf(db, app, c).Err?
  {
    hide Inv, Next, History, Register, EntryOf;
    Always(before);
    var start := History(Fresh(), before);
    StaysDeleted(start, after, a);
    HistoryKeeps(start, after);
    var db := History(start, after);
    Reregistered(db, a, start.artifacts[a].checksum);
    forall c: Change | c.desired == Active && c.release == Some(a) ensures EntryOf(db, app, c).Err? {
      GoneRefused(db, app, c, a);
    }
  }

  lemma GoneRefused(db: DB, app: int, c: Change, a: int)
    requires a in db.artifacts && db.artifacts[a].status != Present && c.desired == Active && c.release == Some(a)
    ensures EntryOf(db, app, c).Err?
  {
  }

  lemma FourEvents(a: Event, b: Event, c: Event, d: Event)
    ensures History(Fresh(), [a, b, c, d]) == Next(Next(Next(Next(Fresh(), a), b), c), d)
  {
    hide Next;
    assert [a, b, c, d][1..] == [b, c, d] && [b, c, d][1..] == [c, d] && [c, d][1..] == [d] && [d][1..] == [];
    assert History(Fresh(), [a, b, c, d]) == History(Next(Fresh(), a), [b, c, d]);
    assert History(Next(Next(Fresh(), a), b), [c, d]) == History(Next(Next(Next(Fresh(), a), b), c), [d]);
  }

  /** It happens: a unit release that is registered, cleaned up and registered again. */
  lemma ReregisteringMayFail(v: Unit, version: string, checksum: string)
    ensures var db := History(Fresh(), [DoSetUnit(1, v), DoRegister(1, version, checksum), DoBeginCleanup(1), DoEndCleanup(1, true)]);
            Register(db, 1, version, checksum) == (db, Ok(1)) && !Selectable(db, 1, 1)
  {
    var es := [DoSetUnit(1, v), DoRegister(1, version, checksum), DoBeginCleanup(1), DoEndCleanup(1, true)];
    var db1 := Next(Fresh(), es[0]);
    assert db1 == Fresh().(units := map[1 := v]);
    var x := Artifact(1, version, FIRST_CODE, checksum, Present);
    var db2 := Next(db1, es[1]);
    assert db2 == AddArtifact(db1, 1, version, checksum) && db2.artifacts == map[1 := x];
    assert !Referenced(db2, 1);
    assert Next(db2, es[2]) == MarkArtifact(db2, 1, Deleting);
    var db := Next(Next(db2, es[2]), es[3]);
    assert db.artifacts == map[1 := x.(status := Deleted)] && db.units == map[1 := v];
    hide Next, History;
    FourEvents(es[0], es[1], es[2], es[3]);
    Always(es);
    Reregistered(db, 1, checksum);
  }
}

/** Which runs are created, claimed and removed, and what runs leave behind: row by row, in terms of the tables before. */
module RunDecisions {
  import opened Numbers
  import opened Options
  import opened Planning
  import opened Waves
  import opened Tables
  import opened Invariants
  import opened DeploySafety
  import L = LoadedPlans
  import V = ArtifactLives
  import Y = SystemSafety
  import R = Runs
  import S = RunSafety
  import H = RunHistories

  // ---------------------------------------------------------------- creation

  /** Some run of the environment is queued, running or being reconciled. */
  ghost predicate OpenRun(db: DB, env: int) {
    exists r :: r in db.flows && db.flows[r].run.plan.environmentId == env
                && db.flows[r].run.status in {R.Queued, R.Running, R.Reconciling}
  }

  lemma OpenIsBusy(db: DB, env: int)
    ensures OpenRun(db, env) <==> Busy(db.flows, env)
  {
  }

  /** A run that has just been created: nothing has happened to it, and each of its units has a row with its package,
      which waits unless there is nothing to do. */
  ghost predicate NewlyQueued(f: R.Flow, plan: Plan) {
    && f.driver == R.Waiting && f.run.plan == plan
    && f.run.status == R.Queued && f.run.task == R.TaskQueued && !f.run.cancelRequested && f.run.snapshot
    && (forall x :: x in plan.items ==>
          x.unitId in f.run.rows && f.run.rows[x.unitId].release == x.release
          && f.run.rows[x.unitId].status == if x.action == Skip then R.Skipped else R.Pending)
    && (forall u :: u in f.run.rows ==> exists x :: x in plan.items && x.unitId == u)
  }

  /** Creating a run: accepted exactly when the environment has no open run and the plan that the tables give has the
      hash that was confirmed; and otherwise refused, by a conflict unless there is no plan at all. */
  lemma CreateRunDecided(db: DB, env: int, release: int, mode: Mode, expected: Document)
    requires Inv(db)
    ensures var (b, r) := CreateRun(db, env, release, mode, expected); var plan := LoadPlan(db, env, release, mode);
            && (r.Ok? <==> !OpenRun(db, env) && plan.Ok? && plan.value.hash == expected)
            && (r.Err? ==> b == db && r.error == if OpenRun(db, env) || plan.Ok? then Conflict else plan.error)
            && (r.Ok? ==>
                  && r.value !in db.flows && r.value in b.flows && NewlyQueued(b.flows[r.value], plan.value)
                  && b == db.(flows := db.flows[r.value := b.flows[r.value]], nextRun := b.nextRun, latest := b.latest))
  {
    OpenIsBusy(db, env);
    assert IdsFresh(db);
    hide Inv, Busy, OpenRun, NewlyQueued;
    var c, plan := CreateRun(db, env, release, mode, expected), LoadPlan(db, env, release, mode);
    if c.1.Ok? {
      assert Planned(db, env, release, mode, plan.value);
      PlannedFacts(db, env, release, mode, plan.value);
      var f := R.NewFlow(plan.value, TargetsFor(db, env, release), ObservedIn(db, env, db.envs[env].nodes));
      assert c.0 == AddRun(db, env, f);
      NewIsQueued(plan.value, TargetsFor(db, env, release), ObservedIn(db, env, db.envs[env].nodes));
      hide LoadPlan, TargetsFor, ObservedIn, CreateRun, R.NewFlow, Sound;
    } else {
      hide LoadPlan, TargetsFor, ObservedIn;
    }
  }

  lemma NewIsQueued(plan: Plan, targets: map<int, TargetUnit>, observed: StateIndex)
    requires Sound(plan.items)
    ensures NewlyQueued(R.NewFlow(plan, targets, observed), plan)
  {
    hide Before, R.NewRows;
    H.NewRowsOf(plan.items);
  }

  /** An environment whose runs are all over can be deployed to: the plan that is previewed can be run. */
  lemma PreviewCanRun(es: seq<Event>, env: int, release: int, mode: Mode)
    requires !OpenRun(History(Fresh(), es), env) && L.Eligible(History(Fresh(), es), env, release)
    requires History(Fresh(), es).envs[env].nodes != {} && History(Fresh(), es).releases[release].entries != map[]
    ensures var db := History(Fresh(), es); var plan := LoadPlan(db, env, release, mode);
            plan.Ok? && CreateRun(db, env, release, mode, plan.value.hash).1.Ok?
  {
    hide Inv, History, OpenRun, LoadPlan, CreateRun, L.Eligible, L.Reads;
    Y.Always(es);
    var db := History(Fresh(), es);
    L.LoadPlanDecided(db, env, release, mode);
    CreateRunDecided(db, env, release, mode, LoadPlan(db, env, release, mode).value.hash);
  }

  // ---------------------------------------------------------------- claim

  /** Claiming reads the environment's parallel limit, and the cancellation that was asked for before. A run that is not
      queued with its task is not claimed, and the task that tried has failed. */
  lemma ClaimDecided(db: DB, r: int, given: int, signaled: bool)
    requires Inv(db) && r in db.flows && db.flows[r].driver == R.Waiting
    ensures var f := db.flows[r]; var b := RunStep(db, r, R.DoClaim(given, signaled)); var env := f.run.plan.environmentId;
            && env in db.envs && r in b.flows && b == db.(flows := db.flows[r := b.flows[r]])
            && var g := b.flows[r];
               if f.run.status == R.Queued && f.run.task == R.TaskQueued then
                 && g.run == f.run.(status := R.Running, task := R.TaskRunning, limit := g.run.limit)
                 && g.run.limit == (if db.envs[env].limit < 1 then 1 else db.envs[env].limit)
                 && g.driver.Live? && (g.driver.exec.signal <==> signaled || f.run.cancelRequested)
                 && g.driver.exec.running == {} && g.driver.exec.begun == 0
               else g.run == f.run && g.driver == R.Broken
  {
    RootedEnv(db, r);
    hide Inv;
  }

  lemma RootedEnv(db: DB, r: int)
    requires Inv(db) && r in db.flows
    ensures db.flows[r].run.plan.environmentId in db.envs
  {
    hide Catalogued, Reachable, WrittenBack, Made, FlowsOk, Locked, DeployedReady, CurrentReady;
    assert Rooted(db, db.flows[r].run.plan, db.flows[r].run.targets);
  }

  // ---------------------------------------------------------------- writing back

  /** What a success leaves at every node of the plan: the unit's package, fingerprint and version, healthy; or, if the
      unit was to be stopped, nothing. */
  predicate LeavesState(x: Item, s: State) {
    if x.action == Stop then s.status == Stopped && s.release == None && s.fingerprint == NoFingerprint && s.versionLabel == ""
    else
      && s.status == Healthy && s.release == x.release && s.fingerprint == x.fingerprint
      && s.versionLabel == if x.version.Some? then x.version.value else ""
  }

  /** A unit that comes back: its row takes the outcome and no other row changes; and exactly if it worked, the states of
      the unit on the plan's nodes are written, and no other state. */
  lemma JoinDecided(db: DB, r: int, x: Item, o: R.Outcome)
    requires Inv(db) && r in db.flows && R.Joinable(db.flows[r], x.unitId) && x in db.flows[r].run.plan.items
    ensures var a, b := db.flows[r].run, JoinUnit(db, r, x.unitId, o);
            && r in b.flows && b == db.(flows := db.flows[r := b.flows[r]], states := b.states)
            && x.unitId in a.rows && a.rows[x.unitId].status == R.InProgress
            && b.flows[r].run == a.(rows := a.rows[x.unitId := a.rows[x.unitId].(status := b.flows[r].run.rows[x.unitId].status)])
            && b.flows[r].run.rows[x.unitId].status
               == (match o case Worked => R.Succeeded case Broke => R.Failed case Lost => R.CanceledUnknown)
            && (o != R.Worked ==> b.states == db.states)
            && (o == R.Worked ==>
                  && (forall n :: n in a.plan.nodes ==>
                        Spot(a.plan.environmentId, x.unitId, n) in b.states
                        && LeavesState(x, b.states[Spot(a.plan.environmentId, x.unitId, n)]))
                  && (forall p: Spot :: p.env != a.plan.environmentId || p.unit != x.unitId || p.node !in a.plan.nodes ==>
                        SameAt(db.states, b.states, p)))
  {
    JoinFacts(db, r, x.unitId);
    var f := db.flows[r];
    SoundPlan(db, r);
    SameUnitSameItem(f.run.plan.items, FindItem(f.run.plan.items, x.unitId).value, x);
    hide Inv, FindItem, Sound;
    JoinedRun(f, x.unitId, o);
    assert JoinUnit(db, r, x.unitId, o) ==
             db.(flows := db.flows[r := R.Join(f, x.unitId, o)],
                 states := if o == R.Worked then JoinedStates(db, r, x) else db.states);
    WritesSpelled(db.states, f.run.plan.environmentId, x, f.run.plan.nodes);
    hide R.Join, R.Joinable, JoinUnit, WriteStates, LeavesState, SameAt;
  }

  predicate SameAt(a: map<Spot, State>, b: map<Spot, State>, p: Spot) {
    (p in a <==> p in b) && (p in a ==> a[p] == b[p])
  }

  lemma SoundPlan(db: DB, r: int)
    requires Inv(db) && r in db.flows
    ensures Sound(db.flows[r].run.plan.items)
  {
    hide Catalogued, Reachable, WrittenBack, RunsRooted, Sound, S.ExecOk, S.Barrier, S.StartedFirst, S.RowsOf;
    assert S.FlowOk(db.flows[r]);
  }

  lemma JoinedRun(f: R.Flow, u: int, o: R.Outcome)
    requires R.Joinable(f, u) && u in f.run.rows && f.run.rows[u].status == R.InProgress
    ensures R.Join(f, u, o).run == f.run.(rows := f.run.rows[u := f.run.rows[u].(status := R.Ended(o))])
  {
  }

  lemma WritesSpelled(states: map<Spot, State>, env: int, x: Item, nodes: seq<int>)
    ensures var b := WriteStates(states, env, x.unitId, nodes, Written(x));
            && (forall n :: n in nodes ==> Spot(env, x.unitId, n) in b && LeavesState(x, b[Spot(env, x.unitId, n)]))
            && (forall p: Spot :: p.env != env || p.unit != x.unitId || p.node !in nodes ==> SameAt(states, b, p))
  {
  }

  // ---------------------------------------------------------------- the current release

  /** The event by which a run of the environment ends in success. */
  ghost predicate Wins(db: DB, e: Event, env: int) {
    && e.DoRunStep? && e.run in db.flows && db.flows[e.run].run.plan.environmentId == env
    && db.flows[e.run].run.status != R.Success
    && e.run in Next(db, e).flows && Next(db, e).flows[e.run].run.status == R.Success
  }

  lemma OnlyAdvanceWins(f: R.Flow, e: R.FlowEvent)
    requires S.FlowOk(f)
    ensures f.run.status != R.Success && R.Step(f, e).run.status == R.Success <==> e == R.DoAdvance && EndsWell(f)
  {
    hide ExecutionWaves, Sound, S.RowsOf, S.Barrier, S.StartedFirst, S.ReleasesOf, R.MarkNotStarted, R.Abandon,
         R.EraseReleases, R.GoodRows, R.BadRows, R.UnknownRows;
  }

  lemma StepEnvs(db: DB, r: int, e: R.FlowEvent)
    requires r in db.flows
    ensures RunStep(db, r, e).envs ==
              if e == R.DoAdvance && EndsWell(db.flows[r])
              then WithCurrent(db.envs, db.flows[r].run.plan.environmentId, db.flows[r].run.plan.releaseId) else db.envs
  {
    hide R.Claim, R.Advance, R.Join, R.Step, FindItem, WithCurrent, WriteStates, LimitOf;
  }

  lemma WinIsEnd(db: DB, r: int, e: R.FlowEvent, env: int)
    requires Inv(db) && r in db.flows
    ensures Wins(db, DoRunStep(r, e), env) <==>
              db.flows[r].run.plan.environmentId == env && e == R.DoAdvance && EndsWell(db.flows[r])
  {
    assert S.FlowOk(db.flows[r]);
    var f, step := db.flows[r], Y.StepOn(db, DoRunStep(r, e), r);
    StepKind(db, r, e);
    Y.RunStepOn(db, r, e, r);
    NextIsStep(db, r, e);
    if step.Some? { OnlyAdvanceWins(f, step.value); }
    hide Inv, S.FlowOk, R.Step, EndsWell, RunStep, Y.StepOn, Next;
    assert Next(db, DoRunStep(r, e)).flows[r] == if step.Some? then R.Step(f, step.value) else f;
  }

  lemma StepKind(db: DB, r: int, e: R.FlowEvent)
    requires r in db.flows
    ensures var step := Y.StepOn(db, DoRunStep(r, e), r);
            if e == R.DoAdvance then step == Some(R.DoAdvance) else step != Some(R.DoAdvance)
  {
  }

  lemma NextIsStep(db: DB, r: int, e: R.FlowEvent)
    requires r in db.flows
    ensures Next(db, DoRunStep(r, e)) == RunStep(db, r, e)
  {
    hide RunStep;
  }

  /** An environment's current release changes exactly when a run of it ends in success, and then to that run's release. */
  lemma CurrentDecided(db: DB, e: Event, env: int)
    requires Inv(db) && env in db.envs
    ensures env in Next(db, e).envs
    ensures Next(db, e).envs[env].current
         == if Wins(db, e, env) then Some(db.flows[e.run].run.plan.releaseId) else db.envs[env].current
  {
    hide Inv, Wins;
    if e.DoRunStep? && e.run in db.flows {
      WinIsEnd(db, e.run, e.step, env);
      StepEnvs(db, e.run, e.step);
      hide RunStep, EndsWell;
    } else if e.DoSetEnv? {
      NoWin(db, e, env);
      hide Next;
      EditedEnv(db, e.env, e.envRow, env);
    } else {
      NoWin(db, e, env);
      hide Next;
      LeavesEnvs(db, e);
    }
  }

  lemma NoWin(db: DB, e: Event, env: int)
    ensures !e.DoRunStep? || e.run !in db.flows ==> !Wins(db, e, env)
  {
    hide Next;
  }

  lemma LeavesEnvs(db: DB, e: Event)
    requires !e.DoSetEnv? && (e.DoRunStep? ==> e.run !in db.flows)
    ensures Next(db, e).envs == db.envs
  {
    if e.DoRunStep? {
      hide RunStep;
    } else {
      hide Next;
      V.EnvsUntouched(db, e);
    }
  }

  lemma EditedEnv(db: DB, e: int, v: Env, env: int)
    ensures env in Next(db, DoSetEnv(e, v)).envs <==> env in db.envs || env == e
    ensures env in db.envs ==> Next(db, DoSetEnv(e, v)).envs[env].current == db.envs[env].current
    ensures env !in db.envs && env == e ==> Next(db, DoSetEnv(e, v)).envs[env].current == None
  {
    var b := Next(db, DoSetEnv(e, v));
    assert b == SetEnv(db, e, v);
    EditedEnvs(db, e, v);
    hide Next, SetEnv;
  }

  lemma EditedEnvs(db: DB, e: int, v: Env)
    ensures var after := SetEnv(db, e, v).envs;
            if e !in db.envs then after == db.envs[e := v.(current := None)]
            else if db.envs[e].app == v.app then after == db.envs[e := v.(current := db.envs[e].current)]
            else after == db.envs
  {
    if e !in db.envs {
    } else if db.envs[e].app == v.app {
    } else {
    }
  }

  /** The release of the last run of the environment that ended in success in a history, if one did. */
  ghost function LastWin(db: DB, es: seq<Event>, env: int): Option<int>
    decreases |es|
  {
    if es == [] then None else
    var later := LastWin(Next(db, es[0]), es[1..], env);
    if later.Some? then later
    else if Wins(db, es[0], env) then Some(db.flows[es[0].run].run.plan.releaseId) else None
  }

  lemma {:induction false} CurrentSince(db: DB, es: seq<Event>, env: int)
    requires Inv(db) && env in History(db, es).envs
    ensures History(db, es).envs[env].current
         == if LastWin(db, es, env).Some? then LastWin(db, es, env)
            else if env in db.envs then db.envs[env].current else None
    decreases |es|
  {
    hide Inv, Next, Wins;
    if es != [] {
      var e, next := es[0], Next(db, es[0]);
      Y.NextKeeps(db, e);
      CurrentSince(next, es[1..], env);
      if env in db.envs { CurrentDecided(db, e, env); } else { NewEnv(db, e, env); }
    }
  }

  lemma NewEnv(db: DB, e: Event, env: int)
    requires Inv(db) && env !in db.envs
    ensures !Wins(db, e, env) && (env in Next(db, e).envs ==> Next(db, e).envs[env].current == None)
  {
    hide Inv, Wins;
    NoWin(db, e, env);
    if e.DoRunStep? && e.run in db.flows {
      RootedEnv(db, e.run);
      WinIsEnd(db, e.run, e.step, env);
      StepEnvs(db, e.run, e.step);
      hide RunStep, EndsWell;
    } else if e.DoSetEnv? {
      hide Next;
      EditedEnv(db, e.env, e.envRow, env);
    } else {
      hide Next;
      LeavesEnvs(db, e);
    }
  }

  /** After every history the current release of an environment is that of the last run of it that ended in success. */
  lemma CurrentIsLastSuccess(es: seq<Event>, env: int)
    requires env in History(Fresh(), es).envs
    ensures History(Fresh(), es).envs[env].current == LastWin(Fresh(), es, env)
  {
    hide Inv, History, LastWin;
    FreshInv();
    assert env !in Fresh().envs;
    CurrentSince(Fresh(), es, env);
  }

  // ---------------------------------------------------------------- removal

  predicate Over(s: R.RunStatus) { s !in {R.Queued, R.Running, R.Reconciling} }

  /** The snapshot of a run that is over is erased, and with it every reference its rows hold; nothing else of the run,
      and no other run, changes. */
  lemma SnapshotDecided(db: DB, r: int)
    ensures var (b, answer) := DeleteSnapshot(db, r);
            if r !in db.flows || !db.flows[r].run.snapshot then b == db && answer == Err(NotFound)
            else if !Over(db.flows[r].run.status) then b == db && answer == Err(InvalidState)
            else
              && answer == Ok(true) && r in b.flows && b == db.(flows := db.flows[r := b.flows[r]])
              && var x, y := db.flows[r].run, b.flows[r].run;
                 && y == x.(rows := y.rows, snapshot := false) && b.flows[r].driver == db.flows[r].driver
                 && (forall u :: u in y.rows <==> u in x.rows)
                 && (forall u :: u in y.rows ==> y.rows[u].release == None && y.rows[u].status == x.rows[u].status)
  {
    if r in db.flows && db.flows[r].run.snapshot && Over(db.flows[r].run.status) { Erased(db.flows[r]); }
    hide R.EraseSnapshot;
  }

  lemma Erased(f: R.Flow)
    requires f.run.snapshot && Over(f.run.status)
    ensures var x, y := f.run, R.EraseSnapshot(f).run;
            && y == x.(rows := y.rows, snapshot := false) && R.EraseSnapshot(f).driver == f.driver
            && (forall u :: u in y.rows <==> u in x.rows)
            && (forall u :: u in y.rows ==> y.rows[u].release == None && y.rows[u].status == x.rows[u].status)
  {
  }

  /** A run is removed exactly when it is one of the application's, over, without its snapshot, and nothing holds it. */
  lemma HistoryDecided(db: DB, app: int, r: int, held: bool)
    ensures var (b, answer) := DeleteHistory(db, app, r, held);
            if r !in db.flows || db.flows[r].run.plan.appId != app then b == db && answer == Err(NotFound)
            else if !Over(db.flows[r].run.status) || db.flows[r].run.snapshot || held
            then b == db && answer == Err(InvalidState)
            else answer == Ok(true) && b == db.(flows := b.flows) && b.flows == db.flows - {r}
  {
  }

  /** A release is archived exactly when it is not archived yet, is no environment's current release, no open run
      deploys it, and nothing else holds it. */
  lemma ArchiveDecided(db: DB, app: int, release: int, held: bool)
    ensures var (b, answer) := ArchiveRelease(db, app, release, held);
            if release !in db.releases || db.releases[release].app != app then b == db && answer == Err(NotFound)
            else if db.releases[release].archived || held
                    || (exists e :: e in db.envs && db.envs[e].current == Some(release))
                    || (exists r :: r in db.flows && db.flows[r].run.plan.releaseId == release && !Over(db.flows[r].run.status))
            then b == db && answer == Err(InvalidState)
            else
              && answer == Ok(true) && release in b.releases && b.releases[release].archived
              && b == db.(releases := db.releases[release := db.releases[release].(archived := true)])
  {
    var current := exists e :: e in db.envs && db.envs[e].current == Some(release);
    var open := exists r :: r in db.flows && db.flows[r].run.plan.releaseId == release && !Over(db.flows[r].run.status);
    assert CurrentSomewhere(db, release) <==> current;
    assert DeployedNow(db, release) <==> open;
    hide CurrentSomewhere, DeployedNow;
  }

  /** A release is deleted exactly when it is archived, is no environment's current release and no release's base, no
      run has deployed it, and nothing else holds it. */
  lemma DeleteReleaseDecided(db: DB, app: int, release: int, held: bool)
    ensures var (b, answer) := DeleteRelease(db, app, release, held);
            if release !in db.releases || db.releases[release].app != app then b == db && answer == Err(NotFound)
            else if !db.releases[release].archived || held
                    || (exists e :: e in db.envs && db.envs[e].current == Some(release))
                    || (exists r :: r in db.flows && db.flows[r].run.plan.releaseId == release)
                    || (exists q :: q in db.releases && db.releases[q].base == Some(release))
            then b == db && answer == Err(InvalidState)
            else answer == Ok(true) && b == db.(releases := b.releases) && b.releases == db.releases - {release}
  {
    var current := exists e :: e in db.envs && db.envs[e].current == Some(release);
    var used := exists r :: r in db.flows && db.flows[r].run.plan.releaseId == release;
    var inherited := exists q :: q in db.releases && db.releases[q].base == Some(release);
    assert CurrentSomewhere(db, release) <==> current;
    assert DeployedEver(db, release) <==> used;
    assert BaseOfSome(db, release) <==> inherited;
    hide CurrentSomewhere, DeployedEver, BaseOfSome;
  }

  ghost predicate InManifest(db: DB, a: int) {
    exists r, u :: r in db.releases && u in db.releases[r].entries && db.releases[r].entries[u].release == Some(a)
  }

  ghost predicate InState(db: DB, a: int) { exists p :: p in db.states && db.states[p].release == Some(a) }

  ghost predicate InSnapshot(db: DB, a: int) {
    exists r, u :: r in db.flows && db.flows[r].run.snapshot && u in db.flows[r].run.rows
                   && db.flows[r].run.rows[u].release == Some(a)
  }

  /** The cleanup of a unit release may begin, or be taken up again, exactly when its package is not deleted yet and no
      manifest, no runtime state and no run with its snapshot names it. Once begun, it ends deleted or failed. */
  lemma CleanupDecided(db: DB, a: int, removed: bool)
    ensures var (b, answer) := BeginCleanup(db, a);
            if a !in db.artifacts then b == db && answer == Err(NotFound)
            else if db.artifacts[a].status == Deleted || InManifest(db, a) || InState(db, a) || InSnapshot(db, a)
            then b == db && answer == Err(InvalidState)
            else
              && answer == Ok(true) && b == db.(artifacts := db.artifacts[a := db.artifacts[a].(status := Deleting)])
              && var c := EndCleanup(b, a, removed);
                 && a in c.artifacts && c.artifacts[a].status == (if removed then Deleted else DeleteFailed)
                 && c == db.(artifacts := db.artifacts[a := c.artifacts[a]])
                 && c.artifacts[a] == db.artifacts[a].(status := c.artifacts[a].status)
  {
    assert InManifest(db, a) <==> ReferencedByRelease(db, a);
    assert InState(db, a) <==> ReferencedByState(db, a);
    assert InSnapshot(db, a) <==> ReferencedByRun(db, a);
    hide InManifest, InState, InSnapshot, ReferencedByRelease, ReferencedByState, ReferencedByRun;
  }
}

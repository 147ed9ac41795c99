/** The services that change the tables, as they run. Each method is one transaction; it leaves in the tables, and
    returns, what the function of the same step says. */
module Store {
  import opened Numbers
  import opened Options
  import opened Planning
  import opened Waves
  import opened Tables
  import opened Invariants
  import D = DeploySafety
  import L = Listings
  import R = Runs
  import S = RunSafety
  import H = RunHistories
  import Y = SystemSafety

  class Database {
    var artifacts: map<int, Artifact>
    var releases: map<int, Release>
    var units: map<int, Unit>
    var envs: map<int, Env>
    var revisions: map<int, Revision>
    var states: map<Spot, State>
    var flows: map<int, R.Flow>
    var unitCodes: map<int, int>
    var appCodes: map<int, int>
    var nextArtifact: int
    var nextRelease: int
    var nextRevision: int
    var nextRun: int
    var latest: map<int, int>

    function Abs(): DB
      reads this
    {
      DB(artifacts, releases, units, envs, revisions, states, flows, unitCodes, appCodes,
         nextArtifact, nextRelease, nextRevision, nextRun, latest)
    }

    constructor ()
      ensures Abs() == Fresh() && Inv(Abs())
    {
      artifacts, releases, units, envs, revisions, states, flows := map[], map[], map[], map[], map[], map[], map[];
      unitCodes, appCodes, latest := map[], map[], map[];
      nextArtifact, nextRelease, nextRevision, nextRun := 1, 1, 1, 1;
      new;
      FreshInv();
    }

    // -------------------------------------------------------------- releases

    /** The counter of a unit starts at the first code; every call hands out the next one. */
    method AllocateUnitCode(unit: int) returns (code: int)
      modifies this`unitCodes
      ensures code == NextCode(old(unitCodes), unit) && unitCodes == old(unitCodes)[unit := code + 1]
    {
      if unit !in unitCodes {
        unitCodes := unitCodes[unit := FIRST_CODE];
      }
      code := unitCodes[unit];
      unitCodes := unitCodes[unit := code + 1];
    }

    method AllocateAppCode(app: int) returns (code: int)
      modifies this`appCodes
      ensures code == NextCode(old(appCodes), app) && appCodes == old(appCodes)[app := code + 1]
    {
      if app !in appCodes {
        appCodes := appCodes[app := FIRST_CODE];
      }
      code := appCodes[app];
      appCodes := appCodes[app := code + 1];
    }

    method FindVersion(unit: int, version: string) returns (found: Option<int>)
      requires IdsFresh(Abs())
      ensures found.Some? ==> found.value in artifacts && SameVersion(artifacts[found.value], unit, version)
      ensures found == None ==> !Registered(Abs(), unit, version)
    {
      for id := 1 to nextArtifact
        invariant forall a :: a in artifacts && a < id ==> !SameVersion(artifacts[a], unit, version)
      {
        if id in artifacts && SameVersion(artifacts[id], unit, version) {
          return Some(id);
        }
      }
      found := None;
    }

    method RegisterUnitRelease(unit: int, version: string, checksum: string) returns (r: Result<int, Error>)
      requires Inv(Abs())
      modifies this
      ensures (Abs(), r) == Register(old(Abs()), unit, version, checksum)
    {
      if unit !in units {
        return Err(NotFound);
      }
      var existing := FindVersion(unit, version);
      if existing.Some? {
        Y.OneOfVersion(Abs(), unit, version, existing.value);
        return if artifacts[existing.value].checksum == checksum then Ok(existing.value) else Err(Conflict);
      }
      var code := AllocateUnitCode(unit);
      r := Ok(nextArtifact);
      artifacts := artifacts[nextArtifact := Artifact(unit, version, code, checksum, Present)];
      nextArtifact := nextArtifact + 1;
    }

    /** Applies the changes to the entries of the base, one by one. */
    method ApplyUnitChanges(app: int, changes: seq<Change>, base: map<int, Entry>)
      returns (r: Result<map<int, Entry>, Error>)
      ensures r == ApplyChanges(Abs(), app, changes, {}, base)
    {
      hide EntryOf;
      var entries, seen := base, {};
      var k := 0;
      assert changes[0..] == changes;
      while k < |changes|
        invariant k <= |changes|
        invariant ApplyChanges(Abs(), app, changes, {}, base) == ApplyChanges(Abs(), app, changes[k..], seen, entries)
      {
        var change := changes[k];
        assert changes[k..][0] == change && changes[k..][1..] == changes[k + 1..];
        if change.unit in seen {
          return Err(Validation);
        }
        seen := seen + {change.unit};
        var entry := EntryOf(Abs(), app, change);
        if entry.Err? {
          return Err(Validation);
        }
        entries := entries[change.unit := entry.value];
        k := k + 1;
      }
      assert changes[k..] == [];
      r := Ok(entries);
    }

    method ApplyConfigSelections(app: int, selections: seq<Selection>, base: map<int, int>)
      returns (r: Result<map<int, int>, Error>)
      ensures r == ApplySelections(Abs(), app, selections, {}, base)
    {
      hide Configurable;
      var configs, seen := base, {};
      var k := 0;
      assert selections[0..] == selections;
      while k < |selections|
        invariant k <= |selections|
        invariant ApplySelections(Abs(), app, selections, {}, base) == ApplySelections(Abs(), app, selections[k..], seen, configs)
      {
        var selection := selections[k];
        assert selections[k..][0] == selection && selections[k..][1..] == selections[k + 1..];
        if selection.env in seen {
          return Err(Validation);
        }
        seen := seen + {selection.env};
        if !Configurable(Abs(), app, selection) {
          return Err(Validation);
        }
        configs := configs[selection.env := selection.revision];
        k := k + 1;
      }
      assert selections[k..] == [];
      r := Ok(configs);
    }

    method ResolveApplicationRelease(app: int, version: string, base: Option<int>, changes: seq<Change>,
                                     selections: seq<Selection>)
      returns (r: Result<(map<int, Entry>, map<int, int>), Error>)
      ensures r == ResolveRelease(Abs(), app, version, base, changes, selections)
    {
      if exists q :: q in releases && releases[q].app == app && releases[q].version == version {
        return Err(Conflict);
      }
      if UnitsOfApp(Abs(), app) == {} {
        return Err(Validation);
      }
      var entries: map<int, Entry>, configs: map<int, int> := map[], map[];
      if base.Some? {
        if !BaseReady(Abs(), app, base.value) {
          return Err(Validation);
        }
        entries, configs := releases[base.value].entries, releases[base.value].configs;
      }
      hide ApplyChanges, ApplySelections, UnitsOfApp, EnvsOfApp, BaseReady;
      var changed := ApplyUnitChanges(app, changes, entries);
      if changed.Err? || changed.value.Keys != UnitsOfApp(Abs(), app) {
        return Err(Validation);
      }
      var selected := ApplyConfigSelections(app, selections, configs);
      if selected.Err? || selected.value.Keys != EnvsOfApp(Abs(), app) {
        return Err(Validation);
      }
      if exists q :: q in releases && SameManifest(releases[q], changed.value, selected.value) {
        return Err(Conflict);
      }
      r := Ok((changed.value, selected.value));
    }

    method CreateApplicationRelease(app: int, version: string, base: Option<int>, changes: seq<Change>,
                                    selections: seq<Selection>)
      returns (r: Result<int, Error>)
      modifies this
      ensures (Abs(), r) == CreateRelease(old(Abs()), app, version, base, changes, selections)
    {
      hide ResolveRelease;
      var resolved := ResolveApplicationRelease(app, version, base, changes, selections);
      if resolved.Err? {
        return Err(resolved.error);
      }
      var (entries, configs) := resolved.value;
      var code := AllocateAppCode(app);
      r := Ok(nextRelease);
      releases := releases[nextRelease := Release(app, version, code, false, base, entries, configs, ChangedUnits(changes))];
      nextRelease := nextRelease + 1;
    }

    // -------------------------------------------------------------- deployment runs

    method LoadDeploymentPlan(env: int, release: int, mode: Mode) returns (r: Result<Plan, Error>)
      ensures r == LoadPlan(Abs(), env, release, mode)
    {
      if !Deployable(Abs(), env, release) {
        return Err(NotFound);
      }
      var x := releases[release];
      var targets, observed := TargetsFor(Abs(), env, release), ObservedIn(Abs(), env, envs[env].nodes);
      D.TargetsKeyed(Abs(), x, HashAt(revisions, x.configs[env]));
      D.ObservedFacts(Abs(), env, envs[env].nodes);
      hide TargetsFor, ObservedIn, BuildPlan, Deployable;
      var nodeIds := L.ListNodes(envs[env].nodes);
      var units := L.ListTargets(targets);
      var current := L.ListStates(observed);
      var input := PlanInput(envs[env].app, env, release, x.configs[env], mode, nodeIds, units, current);
      ghost var listed := InputOf(envs[env].app, env, release, x.configs[env], mode, envs[env].nodes, targets, observed);
      SameListing(input, listed, envs[env].nodes, targets, observed);
      PlanIsCanonical(input, listed);
      var plan := BuildDeploymentPlan(input);
      BuildFails(input, listed);
      r := if plan.Ok? then Ok(plan.value) else Err(Validation);
    }

    method InsertRows(items: seq<Item>) returns (rows: R.Rows)
      ensures rows == R.NewRows(items)
    {
      rows := map[];
      for k := 0 to |items|
        invariant rows == R.NewRows(items[..k])
      {
        assert items[..k + 1][..k] == items[..k];
        rows := rows[items[k].unitId := R.Row(items[k].release, if items[k].action == Skip then R.Skipped else R.Pending)];
      }
      assert items[..|items|] == items;
    }

    method CreateDeploymentRun(env: int, release: int, mode: Mode, expected: Document) returns (r: Result<int, Error>)
      modifies this
      ensures (Abs(), r) == CreateRun(old(Abs()), env, release, mode, expected)
    {
      hide LoadPlan, TargetsFor, ObservedIn, R.NewRows, Busy;
      if Busy(flows, env) {
        return Err(Conflict);
      }
      var plan := LoadDeploymentPlan(env, release, mode);
      if plan.Err? {
        return Err(plan.error);
      }
      if plan.value.hash != expected {
        return Err(Conflict);
      }
      var rows := InsertRows(plan.value.items);
      PlanLoaded(Abs(), env, release, mode);
      var run := R.Run(plan.value, R.Queued, R.TaskQueued, false, rows, true, 0, TargetsFor(Abs(), env, release),
                     ObservedIn(Abs(), env, envs[env].nodes));
      r := Ok(nextRun);
      flows := flows[nextRun := R.Flow(run, R.Waiting)];
      latest := latest[env := nextRun];
      nextRun := nextRun + 1;
    }

    /** The first executor to claim a queued run with a queued task has it. */
    method ClaimDeploymentRun(r: int, signaled: bool) returns (claimed: bool)
      requires r in flows && flows[r].driver == R.Waiting
      modifies this`flows
      ensures Abs() == RunStep(old(Abs()), r, R.DoClaim(0, signaled))
      ensures claimed <==> old(flows)[r].run.status == R.Queued && old(flows)[r].run.task == R.TaskQueued
    {
      var run := flows[r].run;
      if run.status != R.Queued || run.task != R.TaskQueued {
        flows := flows[r := R.Flow(run, R.Broken)];
        return false;
      }
      var limit := if run.plan.environmentId in envs then envs[run.plan.environmentId].limit else 1;
      var signal := signaled || run.cancelRequested;
      flows := flows[r := R.Flow(run.(status := R.Running, task := R.TaskRunning, limit := Max(1, limit)),
                                 R.Live(R.Exec(0, 0, {}, false, false, false, signal, signal, R.NextWave)))];
      claimed := true;
    }

    /** Upserts the state a success leaves on every node of the plan. */
    method WriteRuntimeStates(env: int, nodes: seq<int>, item: Item)
      modifies this`states
      ensures states == WriteStates(old(states), env, item.unitId, nodes, Written(item))
    {
      for k := 0 to |nodes|
        invariant states == WriteStates(old(states), env, item.unitId, nodes[..k], Written(item))
      {
        OneMoreNode(old(states), env, item.unitId, nodes, k, Written(item));
        states := states[Spot(env, item.unitId, nodes[k]) := if item.action == Stop then State(Stopped, None, NoFingerprint, "")
                                                             else State(Healthy, item.release, item.fingerprint,
                                                                        if item.version.Some? then item.version.value else "")];
      }
      assert nodes[..|nodes|] == nodes;
    }

    /** The row of a unit that came back, and what the executor remembers of it. */
    method StoreOutcome(r: int, u: int, outcome: R.Outcome)
      requires r in flows && R.Joinable(flows[r], u) && u in flows[r].run.rows && flows[r].run.rows[u].status == R.InProgress
      modifies this`flows
      ensures flows == old(flows)[r := R.Join(old(flows)[r], u, outcome)]
    {
      JoinedFlow(flows[r], u, outcome);
      hide R.Join, R.Joinable;
      var run, e := flows[r].run, flows[r].driver.exec;
      run := run.(rows := run.rows[u := run.rows[u].(status := R.Ended(outcome))]);
      e := e.(running := e.running - {u}, failureSeen := e.failureSeen || outcome == R.Broke,
              cancelSeen := e.cancelSeen || outcome == R.Lost, phase := R.Checking);
      flows := flows[r := R.Flow(run, R.Live(e))];
    }

    /** Stores what a unit came back with and, if it worked, its state on every node of the plan. */
    method PersistUnitOutcome(r: int, u: int, outcome: R.Outcome)
      requires Inv(Abs()) && r in flows && R.Joinable(flows[r], u)
      modifies this`flows, this`states
      ensures Abs() == JoinUnit(old(Abs()), r, u, outcome)
    {
      hide *;
      AbsFields();
      D.JoinFacts(Abs(), r, u);
      JoinedTables(Abs(), r, u, outcome);
      ghost var before, after := Abs(), JoinUnit(Abs(), r, u, outcome);
      var run := flows[r].run;
      var item := FindItem(run.plan.items, u).value;
      StoreOutcome(r, u, outcome);
      if outcome == R.Worked {
        WriteRuntimeStates(run.plan.environmentId, run.plan.nodes, item);
      }
      assert flows == after.flows && states == after.states;
      JoinedOnly(before, r, u, outcome);
      AbsChanged(before);
    }

    lemma AbsFields()
      ensures Abs().flows == flows && Abs().states == states && Abs().envs == envs
    {
    }

    /** The tables after a transaction that touched runs, runtime states and environments only. */
    twostate lemma AbsChanged(before: DB)
      requires before == old(Abs())
      requires artifacts == old(artifacts) && releases == old(releases) && units == old(units) && revisions == old(revisions)
      requires unitCodes == old(unitCodes) && appCodes == old(appCodes) && nextArtifact == old(nextArtifact)
      requires nextRelease == old(nextRelease) && nextRevision == old(nextRevision) && nextRun == old(nextRun) && latest == old(latest)
      ensures Abs() == before.(flows := flows, states := states, envs := envs)
    {
    }

    /** Closes a run; a success makes its release the environment's current one. */
    method FinalizeDeploymentRun(r: int) returns (status: R.RunStatus)
      requires Inv(Abs()) && r in flows && flows[r].driver.Live? && flows[r].driver.exec.phase == R.Finalizing
      modifies this`flows, this`envs
      ensures Abs() == AdvanceRun(old(Abs()), r)
      ensures r in flows && status == flows[r].run.status && (status == R.Success <==> S.AllGood(flows[r].run.rows))
    {
      hide *;
      AbsFields();
      FinalizeFacts(Abs(), r);
      FinalizedTables(Abs(), r);
      ghost var before, after := Abs(), AdvanceRun(Abs(), r);
      var plan := flows[r].run.plan;
      status := StoreStatus(r);
      if status == R.Success {
        envs := envs[plan.environmentId := envs[plan.environmentId].(current := Some(plan.releaseId))];
      }
      assert flows == after.flows && envs == after.envs;
      AdvancedOnly(before, r);
      AbsChanged(before);
    }

    /** The status a run ends with, from the three counters of its rows. */
    method StoreStatus(r: int) returns (status: R.RunStatus)
      requires r in flows && flows[r].driver.Live? && flows[r].driver.exec.phase == R.Finalizing && flows[r].run.status == R.Running
      modifies this`flows
      ensures flows == old(flows)[r := R.Advance(old(flows)[r])] && status == R.Advance(old(flows)[r]).run.status
    {
      FinalizedFlow(flows[r]);
      hide R.Advance;
      var run, canceled := flows[r].run, flows[r].driver.exec.canceled;
      var good, bad, unknown := |R.GoodRows(run.rows)|, |R.BadRows(run.rows)|, |R.UnknownRows(run.rows)|;
      status := if bad == 0 && unknown == 0 then R.Success
                else if good > 0 then R.PartialFailed
                else if canceled || unknown > 0 then R.Canceled
                else R.AllFailed;
      var task := if status == R.Success then R.TaskSuccess
                  else if canceled || status == R.Canceled then R.TaskCanceled
                  else R.TaskFailed;
      flows := flows[r := R.Flow(run.(status := status, task := task), R.Gone)];
    }

    /** Asks for cancellation; a run that was not claimed yet is over at once. */
    method RequestCancellation(r: int) returns (result: Result<bool, Error>)
      modifies this`flows
      ensures result == if r !in old(flows) then Err(NotFound)
                        else if old(flows)[r].run.status != R.Queued && old(flows)[r].run.status != R.Running then Err(Conflict)
                        else Ok(!old(flows)[r].run.cancelRequested)
      ensures Abs() == if r in old(flows) then RunStep(old(Abs()), r, R.DoRequestCancel) else old(Abs())
    {
      if r !in flows {
        return Err(NotFound);
      }
      assert flows[r := flows[r]] == flows;
      var run := flows[r].run;
      if run.status != R.Queued && run.status != R.Running {
        return Err(Conflict);
      }
      if run.cancelRequested {
        return Ok(false);
      }
      run := run.(cancelRequested := true);
      if run.status == R.Queued {
        run := run.(rows := R.MarkNotStarted(run.rows), status := R.Canceled);
        if run.task == R.TaskQueued {
          run := run.(task := R.TaskCanceled);
        }
      }
      flows := flows[r := flows[r].(run := run)];
      result := Ok(true);
    }

    method CancelQueuedRuns() returns (canceled: nat)
      requires IdsFresh(Abs())
      modifies this`flows
      ensures flows.Keys == old(flows).Keys
      ensures forall r :: r in flows ==>
                flows[r] == if old(flows)[r].run.status == R.Queued then R.Recover(old(flows)[r]) else old(flows)[r]
    {
      canceled := 0;
      for id := 1 to nextRun
        invariant flows.Keys == old(flows).Keys
        invariant forall r :: r in flows ==>
          flows[r] == if r < id && old(flows)[r].run.status == R.Queued then R.Recover(old(flows)[r]) else old(flows)[r]
      {
        if id in flows && flows[id].run.status == R.Queued {
          var run := flows[id].run;
          var task := if run.task == R.TaskQueued || run.task == R.TaskRunning then R.TaskCanceled else run.task;
          flows := flows[id := flows[id].(run := run.(rows := R.MarkNotStarted(run.rows), status := R.Canceled, task := task))];
          canceled := canceled + 1;
        }
      }
    }

    method InterruptRunningRuns() returns (reconciling: nat)
      requires IdsFresh(Abs())
      modifies this`flows
      ensures flows.Keys == old(flows).Keys
      ensures forall r :: r in flows ==>
                flows[r] == if old(flows)[r].run.status == R.Running then R.Recover(old(flows)[r]) else old(flows)[r]
    {
      reconciling := 0;
      for id := 1 to nextRun
        invariant flows.Keys == old(flows).Keys
        invariant forall r :: r in flows ==>
          flows[r] == if r < id && old(flows)[r].run.status == R.Running then R.Recover(old(flows)[r]) else old(flows)[r]
      {
        if id in flows && flows[id].run.status == R.Running {
          var run := flows[id].run;
          var task := if run.task == R.TaskRunning then R.TaskFailed else run.task;
          flows := flows[id := flows[id].(run := run.(rows := R.Abandon(run.rows), status := R.Reconciling, task := task))];
          reconciling := reconciling + 1;
        }
      }
    }

    /** A new process closes the queued runs it finds, and leaves the running ones to an operator. */
    method ReconcileInterruptedRuns() returns (canceled: nat, reconciling: nat)
      requires NoDrivers(flows) && IdsFresh(Abs())
      modifies this`flows
      ensures Abs() == RecoverAll(old(Abs()))
      ensures forall r :: r in flows ==> flows[r].run.status != R.Queued && flows[r].run.status != R.Running
    {
      ghost var before := flows;
      canceled := CancelQueuedRuns();
      ghost var between := flows;
      reconciling := InterruptRunningRuns();
      RecoveredRuns(before, between, flows);
    }

    /** An operator confirms that an interrupted run has stopped. */
    method ConfirmInterruptedRunStopped(r: int) returns (result: Result<R.RunStatus, Error>)
      modifies this`flows
      ensures Abs() == if r in old(flows) then RunStep(old(Abs()), r, R.DoConfirm) else old(Abs())
      ensures result == if r !in old(flows) then Err(NotFound)
                        else if old(flows)[r].run.status != R.Reconciling then Err(Conflict)
                        else Ok(flows[r].run.status)
    {
      if r !in flows {
        return Err(NotFound);
      }
      assert flows[r := flows[r]] == flows;
      var run := flows[r].run;
      if run.status != R.Reconciling {
        return Err(Conflict);
      }
      var good, unknown := |R.GoodRows(run.rows)|, |R.UnknownRows(run.rows)|;
      var status := if good > 0 then R.PartialFailed else if unknown > 0 then R.Canceled else R.AllFailed;
      flows := flows[r := flows[r].(run := run.(status := status, task := R.StoppedTask(status)))];
      result := Ok(status);
    }

    /** The task spawned for a run ends the run, if it is not over, after an error. */
    method FailRunOnInternalError(r: int) returns (ended: bool)
      requires r in flows && flows[r].driver == R.Broken
      modifies this`flows
      ensures Abs() == RunStep(old(Abs()), r, R.DoFailRun)
      ensures ended <==> old(flows)[r].run.status == R.Queued || old(flows)[r].run.status == R.Running
    {
      var run := flows[r].run;
      if run.status != R.Queued && run.status != R.Running {
        flows := flows[r := R.Flow(run, R.Gone)];
        return false;
      }
      var rows := R.Abandon(run.rows);
      var good, unknown := |R.GoodRows(rows)|, |R.UnknownRows(rows)|;
      var status := if good > 0 then R.PartialFailed else if unknown > 0 then R.Canceled else R.AllFailed;
      var task := if run.task == R.TaskQueued || run.task == R.TaskRunning then R.StoppedTask(status) else run.task;
      flows := flows[r := R.Flow(run.(rows := rows, status := status, task := task), R.Gone)];
      ended := true;
    }

    // -------------------------------------------------------------- cleanup

    /** Marks the artifact, lets its package be deleted (removed says with what success), and stores the outcome. */
    method CleanupArtifact(a: int, removed: bool) returns (r: Result<ArtifactStatus, Error>)
      modifies this`artifacts
      ensures var begun := BeginCleanup(old(Abs()), a);
              && Abs() == (if begun.1.Ok? then EndCleanup(begun.0, a, removed) else old(Abs()))
              && (r.Ok? <==> begun.1.Ok?) && (r.Err? ==> r.error == begun.1.error)
      ensures r.Ok? ==> a in artifacts && artifacts[a].status == r.value && r.value != Deleting
    {
      hide Referenced;
      if a !in artifacts {
        return Err(NotFound);
      }
      if Referenced(Abs(), a) || artifacts[a].status == Deleted {
        return Err(InvalidState);
      }
      artifacts := artifacts[a := artifacts[a].(status := Deleting)];
      if removed {
        artifacts := artifacts[a := artifacts[a].(status := Deleted)];
        r := Ok(Deleted);
      } else {
        artifacts := artifacts[a := artifacts[a].(status := DeleteFailed)];
        r := Ok(DeleteFailed);
      }
    }

    /** The cleanups of artifacts below id have been taken up. */
    ghost predicate RecoveredTo(before: map<int, Artifact>, id: int, removed: set<int>)
      reads this
    {
      Inv(Abs()) && Recovered(before, artifacts, id, removed)
    }

    method RetryCleanup(ghost before: map<int, Artifact>, a: int, removed: set<int>)
      requires RecoveredTo(before, a, removed)
      modifies this`artifacts
      ensures RecoveredTo(before, a + 1, removed)
    {
      hide Inv, Recovered;
      OneMoreRecovered(before, artifacts, a, removed);
      if a in artifacts && artifacts[a].status == Deleting {
        RetryOne(a, a in removed);
      }
    }

    method RetryOne(a: int, removed: bool)
      requires Inv(Abs()) && a in artifacts && artifacts[a].status == Deleting
      modifies this`artifacts
      ensures Inv(Abs()) && artifacts == Settled(old(artifacts), a, removed)
    {
      hide Inv, Referenced;
      AbsArtifacts();
      NotBlocked(Abs(), a);
      BegunAndEnded(Abs(), a, removed);
      CleanupSettles(Abs(), a, removed);
      hide *;
      var result := CleanupArtifact(a, removed);
      AbsArtifacts();
    }

    lemma AbsArtifacts()
      ensures Abs().artifacts == artifacts
    {
    }

    /** A new process takes up every cleanup that was begun and not ended. None of them is refused. */
    method RecoverDeletingArtifacts(removed: set<int>)
      requires Inv(Abs())
      modifies this`artifacts
      ensures Inv(Abs()) && Recovered(old(artifacts), artifacts, nextArtifact, removed) && NoneDeleting(artifacts)
    {
      ArtifactIds(Abs());
      ghost var before, last := artifacts, nextArtifact;
      NoneRecovered(before, removed);
      assert RecoveredTo(before, 1, removed);
      hide *;
      for id := 1 to nextArtifact
        invariant RecoveredTo(before, id, removed)
      {
        RetryCleanup(before, id, removed);
      }
      EveryCleanupTaken(before, removed);
    }

    lemma EveryCleanupTaken(before: map<int, Artifact>, removed: set<int>)
      requires RecoveredTo(before, nextArtifact, removed) && forall a :: a in before ==> a < nextArtifact
      ensures Inv(Abs()) && Recovered(before, artifacts, nextArtifact, removed) && NoneDeleting(artifacts)
    {
      hide Inv;
      AllRecovered(before, artifacts, nextArtifact, removed);
    }

    method ArchiveApplicationRelease(app: int, release: int, held: bool) returns (r: Result<bool, Error>)
      modifies this`releases
      ensures (Abs(), r) == ArchiveRelease(old(Abs()), app, release, held)
    {
      hide CurrentSomewhere, DeployedNow;
      if release !in releases || releases[release].app != app {
        return Err(NotFound);
      }
      if releases[release].archived || CurrentSomewhere(Abs(), release) || DeployedNow(Abs(), release) || held {
        return Err(InvalidState);
      }
      releases := releases[release := releases[release].(archived := true)];
      r := Ok(true);
    }

    method DeleteApplicationRelease(app: int, release: int, held: bool) returns (r: Result<bool, Error>)
      modifies this`releases
      ensures (Abs(), r) == DeleteRelease(old(Abs()), app, release, held)
    {
      hide CurrentSomewhere, DeployedEver, BaseOfSome;
      if release !in releases || releases[release].app != app {
        return Err(NotFound);
      }
      if !releases[release].archived || CurrentSomewhere(Abs(), release) || DeployedEver(Abs(), release)
         || BaseOfSome(Abs(), release) || held {
        return Err(InvalidState);
      }
      releases := releases - {release};
      r := Ok(true);
    }

    method DeleteDeploymentSnapshot(r: int) returns (result: Result<bool, Error>)
      modifies this`flows
      ensures (Abs(), result) == DeleteSnapshot(old(Abs()), r)
    {
      if r !in flows || !flows[r].run.snapshot {
        return Err(NotFound);
      }
      var run := flows[r].run;
      if R.Ongoing(run.status) {
        return Err(InvalidState);
      }
      flows := flows[r := flows[r].(run := run.(rows := R.EraseReleases(run.rows), snapshot := false))];
      result := Ok(true);
    }

    method DeleteDeploymentHistory(app: int, r: int, held: bool) returns (result: Result<bool, Error>)
      modifies this`flows
      ensures (Abs(), result) == DeleteHistory(old(Abs()), app, r, held)
    {
      if r !in flows || flows[r].run.plan.appId != app {
        return Err(NotFound);
      }
      if R.Ongoing(flows[r].run.status) || flows[r].run.snapshot || held {
        return Err(InvalidState);
      }
      flows := flows - {r};
      result := Ok(true);
    }
  }

  lemma SameListing(input: PlanInput, listed: PlanInput, nodes: set<int>, targets: map<int, TargetUnit>,
                    observed: StateIndex)
    requires input.(nodes := listed.nodes, units := listed.units, states := listed.states) == listed
    requires listed.nodes == Enumerate(nodes) && listed.units == Enumerate(TargetsIn(targets))
    requires listed.states == Enumerate(StatesIn(observed))
    requires multiset(input.nodes) == multiset(nodes) && multiset(input.units) == multiset(TargetsIn(targets))
    requires multiset(input.states) == multiset(StatesIn(observed))
    ensures SameInput(input, listed)
  {
    hide TargetsIn, StatesIn;
    D.EnumerateMembers(nodes);
    D.EnumerateMembers(TargetsIn(targets));
    D.EnumerateMembers(StatesIn(observed));
    forall n ensures n in input.nodes <==> n in listed.nodes {
      assert n in input.nodes <==> n in multiset(input.nodes);
    }
  }

  lemma BuildFails(a: PlanInput, b: PlanInput)
    requires SameInput(a, b)
    ensures BuildPlan(a).Ok? <==> BuildPlan(b).Ok?
  {
    hide BuildPlan, SameInput;
    PlanIsCanonical(a, b);
  }

  lemma OneMoreNode(states: map<Spot, State>, env: int, u: int, nodes: seq<int>, k: nat, s: State)
    requires k < |nodes|
    ensures WriteStates(states, env, u, nodes[..k + 1], s)
            == WriteStates(states, env, u, nodes[..k], s)[Spot(env, u, nodes[k]) := s]
  {
    forall n ensures n in nodes[..k + 1] <==> n in nodes[..k] || n == nodes[k] {
      assert nodes[..k + 1] == nodes[..k] + [nodes[k]];
    }
  }

  lemma FinalizeFacts(db: DB, r: int)
    requires Inv(db) && r in db.flows && db.flows[r].driver.Live? && db.flows[r].driver.exec.phase == R.Finalizing
    ensures db.flows[r].run.plan.environmentId in db.envs && db.flows[r].run.status == R.Running
    ensures R.Advance(db.flows[r]).run.status == R.Success <==> S.AllGood(R.Advance(db.flows[r]).run.rows)
  {
    D.FinalizingReady(db, r);
    assert S.FlowOk(db.flows[r]);
    FinalizeRunning(db.flows[r]);
  }

  lemma FinalizeRunning(f: R.Flow)
    requires S.FlowOk(f) && f.driver.Live? && f.driver.exec.phase == R.Finalizing
    ensures f.run.status == R.Running && (R.Advance(f).run.status == R.Success <==> S.AllGood(R.Advance(f).run.rows))
  {
    H.FinalizeReports(f);
    FinalizedFlow(f);
  }

  lemma FinalizedFlow(f: R.Flow)
    requires f.driver.Live? && f.driver.exec.phase == R.Finalizing && f.run.status == R.Running
    ensures var rows, canceled := f.run.rows, f.driver.exec.canceled;
            var status := R.FinalStatus(|R.GoodRows(rows)|, |R.BadRows(rows)|, |R.UnknownRows(rows)|, canceled);
            R.Advance(f) == R.Flow(f.run.(status := status, task := R.TaskAfter(status, canceled)), R.Gone)
  {
  }

  lemma FinalizedTables(db: DB, r: int)
    requires r in db.flows && db.flows[r].driver.Live? && db.flows[r].driver.exec.phase == R.Finalizing
    requires db.flows[r].run.plan.environmentId in db.envs
    ensures var f := db.flows[r]; var env := f.run.plan.environmentId; var after := AdvanceRun(db, r);
            && after.flows == db.flows[r := R.Advance(f)]
            && after.envs == (if R.Advance(f).run.status == R.Success
                 then db.envs[env := db.envs[env].(current := Some(f.run.plan.releaseId))] else db.envs)
  {
    hide R.Advance;
  }

  lemma AdvancedOnly(db: DB, r: int)
    requires r in db.flows
    ensures AdvanceRun(db, r) == db.(flows := AdvanceRun(db, r).flows, envs := AdvanceRun(db, r).envs)
  {
    hide R.Advance;
  }

  lemma NotBlocked(db: DB, a: int)
    requires Inv(db) && a in db.artifacts && db.artifacts[a].status == Deleting
    ensures Cleanable(db, a)
  {
    hide Inv, Referenced;
    if Referenced(db, a) { D.ReferencedIsPresent(db, a); }
  }

  lemma BegunAndEnded(db: DB, a: int, removed: bool)
    requires Inv(db) && Cleanable(db, a)
    ensures Inv(EndCleanup(BeginCleanup(db, a).0, a, removed))
  {
    hide Inv, Cleanable, EndCleanup, BeginCleanup;
    D.CleanupKeeps(db, a, removed);
    D.CleanupKeeps(BeginCleanup(db, a).0, a, removed);
  }

  lemma CleanupSettles(db: DB, a: int, removed: bool)
    requires Cleanable(db, a)
    ensures BeginCleanup(db, a).1.Ok?
    ensures EndCleanup(BeginCleanup(db, a).0, a, removed).artifacts == Settled(db.artifacts, a, removed)
  {
    hide Referenced;
    assert BeginCleanup(db, a).0 == MarkArtifact(db, a, Deleting);
  }

  lemma ArtifactIds(db: DB)
    requires Inv(db)
    ensures db.nextArtifact > 0 && forall a :: a in db.artifacts ==> 0 < a < db.nextArtifact
  {
  }

  lemma RecoverCases(f: R.Flow)
    ensures f.run.status == R.Queued ==> R.Recover(f).run.status == R.Canceled
    ensures f.run.status == R.Running ==> R.Recover(f).run.status == R.Reconciling
    ensures f.run.status != R.Queued && f.run.status != R.Running ==> R.Recover(f) == f
  {
    hide R.MarkNotStarted, R.Abandon;
  }

  lemma RecoveredRuns(a: map<int, R.Flow>, b: map<int, R.Flow>, c: map<int, R.Flow>)
    requires a.Keys == b.Keys == c.Keys
    requires forall r :: r in b ==> b[r] == if a[r].run.status == R.Queued then R.Recover(a[r]) else a[r]
    requires forall r :: r in c ==> c[r] == if b[r].run.status == R.Running then R.Recover(b[r]) else b[r]
    ensures c == map r | r in a :: R.Recover(a[r])
    ensures forall r :: r in c ==> c[r].run.status != R.Queued && c[r].run.status != R.Running
  {
    hide R.Recover;
    forall r | r in a ensures r in c && c[r] == R.Recover(a[r])
                              && c[r].run.status != R.Queued && c[r].run.status != R.Running {
      assert r in a.Keys && r in b.Keys && r in c.Keys;
      RecoverCases(a[r]);
      RecoverCases(b[r]);
    }
    forall r | r in c ensures r in a {
      assert r in c.Keys;
    }
  }

  lemma PlanLoaded(db: DB, env: int, release: int, mode: Mode)
    ensures LoadPlan(db, env, release, mode).Ok? ==> Deployable(db, env, release)
  {
    hide BuildPlan, TargetsFor, ObservedIn, Deployable;
  }

  /** The outcome of a unit, spelled out. */
  lemma JoinedFlow(f: R.Flow, u: int, o: R.Outcome)
    requires R.Joinable(f, u) && u in f.run.rows && f.run.rows[u].status == R.InProgress
    ensures var e := f.driver.exec;
            R.Join(f, u, o) == R.Flow(f.run.(rows := f.run.rows[u := f.run.rows[u].(status := R.Ended(o))]),
                                      R.Live(e.(running := e.running - {u}, failureSeen := e.failureSeen || o == R.Broke,
                                                cancelSeen := e.cancelSeen || o == R.Lost, phase := R.Checking)))
  {
  }

  lemma JoinedTables(db: DB, r: int, u: int, o: R.Outcome)
    requires r in db.flows && R.Joinable(db.flows[r], u) && FindItem(db.flows[r].run.plan.items, u).Some?
    ensures var run := db.flows[r].run; var after := JoinUnit(db, r, u, o);
            && after.flows == db.flows[r := R.Join(db.flows[r], u, o)]
            && after.states == (if o == R.Worked
                 then WriteStates(db.states, run.plan.environmentId, u, run.plan.nodes, Written(FindItem(run.plan.items, u).value))
                 else db.states)
  {
    hide R.Join, R.Joinable, FindItem, WriteStates, Written;
  }

  lemma JoinedOnly(db: DB, r: int, u: int, o: R.Outcome)
    requires r in db.flows
    ensures JoinUnit(db, r, u, o) == db.(flows := JoinUnit(db, r, u, o).flows, states := JoinUnit(db, r, u, o).states)
  {
    hide R.Join, R.Joinable, FindItem, WriteStates, Written;
  }

  /** Below id, the artifacts that were being deleted are deleted, or could not be. */
  ghost predicate Recovered(before: map<int, Artifact>, after: map<int, Artifact>, id: int, removed: set<int>) {
    && before.Keys == after.Keys
    && forall a :: a in after ==>
         after[a].status == if a >= id || before[a].status != Deleting then before[a].status
                            else if a in removed then Deleted else DeleteFailed
  }

  lemma NoneRecovered(before: map<int, Artifact>, removed: set<int>)
    requires forall a :: a in before ==> 0 < a
    ensures Recovered(before, before, 1, removed)
  {
  }

  /** What taking up the cleanup of one artifact leaves. */
  function Settled(artifacts: map<int, Artifact>, a: int, removed: bool): map<int, Artifact> {
    if a in artifacts then artifacts[a := artifacts[a].(status := if removed then Deleted else DeleteFailed)] else artifacts
  }

  predicate NoneDeleting(artifacts: map<int, Artifact>) {
    forall a :: a in artifacts ==> artifacts[a].status != Deleting
  }

  lemma OneMoreRecovered(before: map<int, Artifact>, between: map<int, Artifact>, id: int, removed: set<int>)
    requires Recovered(before, between, id, removed)
    ensures if id in between && between[id].status == Deleting
            then Recovered(before, Settled(between, id, id in removed), id + 1, removed)
            else Recovered(before, between, id + 1, removed)
  {
  }

  lemma AllRecovered(before: map<int, Artifact>, after: map<int, Artifact>, id: int, removed: set<int>)
    requires Recovered(before, after, id, removed) && forall a :: a in before ==> a < id
    ensures NoneDeleting(after)
  {
    forall a | a in after ensures after[a].status != Deleting {
      assert a in after.Keys;
    }
  }
}

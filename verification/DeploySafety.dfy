/** Creating runs, writing back what units report, and cleaning up keep the tables consistent. */
module DeploySafety {
  import opened Options
  import opened Planning
  import opened Waves
  import opened Tables
  import opened Invariants
  import opened RunTables
  import A = ReleaseSafety
  import R = Runs
  import S = RunSafety
  import H = RunHistories

  // ---------------------------------------------------------------- listings

  lemma {:induction false} EnumerateMembers<T(!new)>(s: set<T>)
    ensures multiset(Enumerate(s)) == multiset(s)
    ensures forall x :: x in Enumerate(s) <==> x in s
  {
    if s != {} {
      var x := Enumerate(s)[0];
      assert x in s && Enumerate(s) == [x] + Enumerate(s - {x});
      EnumerateMembers(s - {x});
      assert s == (s - {x}) + {x};
    }
  }

  // ---------------------------------------------------------------- a new run

  lemma ObservedFacts(db: DB, env: int, nodes: set<int>)
    ensures KeyedStates(ObservedIn(db, env, nodes))
    ensures forall u, n :: n in nodes ==>
              ((u, n) in ObservedIn(db, env, nodes) <==> Spot(env, u, n) in db.states)
              && (Spot(env, u, n) in db.states ==>
                    ObservedIn(db, env, nodes)[(u, n)] == Observe(db.artifacts, Spot(env, u, n), db.states[Spot(env, u, n)]))
  {
    forall u, n | n in nodes
      ensures (u, n) in ObservedIn(db, env, nodes) <==> Spot(env, u, n) in db.states
      ensures Spot(env, u, n) in db.states ==>
                ObservedIn(db, env, nodes)[(u, n)] == Observe(db.artifacts, Spot(env, u, n), db.states[Spot(env, u, n)])
    {
      var p := Spot(env, u, n);
      if p in db.states { assert (p.unit, p.node) in ObservedIn(db, env, nodes); }
    }
  }

  lemma TargetsKeyed(db: DB, x: Release, hash: string)
    ensures KeyedTargets(TargetsOf(db, x, hash))
    ensures forall u :: u in TargetsOf(db, x, hash) ==> u in x.entries && TargetsOf(db, x, hash)[u].release == x.entries[u].release
  {
  }

  lemma PlanOfInput(input: PlanInput)
    requires BuildPlan(input).Ok?
    ensures var p := BuildPlan(input).value;
            && p.appId == input.appId && p.environmentId == input.environmentId && p.releaseId == input.releaseId
            && p.configId == input.configId && p.mode == input.mode && (forall n :: n in p.nodes <==> n in input.nodes)
  {
    PlanItems(input);
  }

  lemma KeyOf(targets: map<int, TargetUnit>, t: TargetUnit)
    requires KeyedTargets(targets) && t in TargetsIn(targets)
    ensures t.unitId in targets && targets[t.unitId] == t
  {
  }

  /** Each item of a plan carries the release of its target. */
  lemma ItemTargets(run: R.Run, x: Item)
    requires Made(run) && x in run.plan.items
    ensures x.unitId in run.targets
    ensures x == ItemFor(run.plan.mode, run.plan.nodes, IndexStates(Enumerate(StatesIn(run.observed))), run.targets[x.unitId])
  {
    var p := run.plan;
    var input := InputOf(p.appId, p.environmentId, p.releaseId, p.configId, p.mode, NodeSet(p), run.targets, run.observed);
    hide BuildPlan, ItemFor;
    var t := UnitOfItem(input, x);
    EnumerateMembers(TargetsIn(run.targets));
    KeyOf(run.targets, t);
  }

  ghost predicate Planned(db: DB, env: int, release: int, mode: Mode, plan: Plan) {
    LoadPlan(db, env, release, mode) == Ok(plan)
  }

  lemma PlannedFacts(db: DB, env: int, release: int, mode: Mode, plan: Plan)
    requires Planned(db, env, release, mode, plan)
    ensures Deployable(db, env, release)
    ensures plan.appId == db.envs[env].app && plan.environmentId == env && plan.releaseId == release
            && plan.configId == db.releases[release].configs[env] && plan.mode == mode && NodeSet(plan) == db.envs[env].nodes
    ensures Sound(plan.items)
    ensures BuildPlan(InputOf(plan.appId, env, release, plan.configId, mode, db.envs[env].nodes,
                              TargetsFor(db, env, release), ObservedIn(db, env, db.envs[env].nodes))) == Ok(plan)
  {
    hide BuildPlan, Sound, TargetsFor, ObservedIn;
    var input := InputOf(db.envs[env].app, env, release, db.releases[release].configs[env], mode, db.envs[env].nodes,
                         TargetsFor(db, env, release), ObservedIn(db, env, db.envs[env].nodes));
    PlanOfInput(input);
    PlanIsSound(input);
    EnumerateMembers(db.envs[env].nodes);
    forall n ensures n in NodeSet(plan) <==> n in db.envs[env].nodes {
      assert n in NodeSet(plan) <==> n in plan.nodes;
    }
  }

  lemma NewRunMade(db: DB, env: int, release: int, mode: Mode, plan: Plan)
    requires Planned(db, env, release, mode, plan)
    ensures var run := NewRun(db, env, release, plan).run;
            Deployable(db, env, release) && Made(run) && Rooted(db, plan, run.targets) && S.FlowOk(NewRun(db, env, release, plan))
  {
    PlannedFacts(db, env, release, mode, plan);
    hide BuildPlan, Sound, ObservedIn, TargetsOf, S.FlowOk, LoadPlan, InputOf;
    ObservedFacts(db, env, db.envs[env].nodes);
    TargetsKeyed(db, db.releases[release], HashAt(db.revisions, db.releases[release].configs[env]));
    H.NewFlowOk(plan, TargetsFor(db, env, release), ObservedIn(db, env, db.envs[env].nodes));
  }

  function NewRun(db: DB, env: int, release: int, plan: Plan): R.Flow {
    if Deployable(db, env, release)
    then R.NewFlow(plan, TargetsFor(db, env, release), ObservedIn(db, env, db.envs[env].nodes))
    else R.NewFlow(plan, map[], map[])
  }

  lemma NewRowsPresent(db: DB, env: int, release: int, mode: Mode, plan: Plan)
    requires Inv(db) && Planned(db, env, release, mode, plan)
    ensures RowsPresent(db.artifacts, NewRun(db, env, release, plan).run.rows)
  {
    PlannedFacts(db, env, release, mode, plan);
    NewRunMade(db, env, release, mode, plan);
    hide BuildPlan, ObservedIn, S.FlowOk, LoadPlan, InputOf, Catalogued, RunsOk, WrittenBack, StatesPresent,
         RunsPresent, PresentAt, Made, ItemFor;
    var run, x := NewRun(db, env, release, plan).run, db.releases[release];
    var hash := HashAt(db.revisions, db.releases[release].configs[env]);
    TargetsKeyed(db, x, hash);
    H.NewRowsOf(plan.items);
    assert EntriesPresent(db.artifacts, x.entries);
    forall u | u in run.rows ensures IsPresent(db.artifacts, run.rows[u].release) {
      var i :| i in plan.items && i.unitId == u;
      ItemTargets(run, i);
      ItemRelease(plan.mode, plan.nodes, IndexStates(Enumerate(StatesIn(run.observed))), run.targets[u]);
    }
  }

  lemma ItemRelease(mode: Mode, nodes: seq<int>, index: StateIndex, t: TargetUnit)
    ensures ItemFor(mode, nodes, index, t).release == t.release
  {
  }

  lemma NewRunLeft(db: DB, env: int, release: int, mode: Mode, plan: Plan)
    requires Planned(db, env, release, mode, plan)
    ensures LeftBy(db.artifacts, db.states, NewRun(db, env, release, plan).run)
  {
    PlannedFacts(db, env, release, mode, plan);
    hide *;
    NewRunPlan(db, env, release, plan);
    var run := NewRun(db, env, release, plan).run;
    forall x, n | x in run.plan.items && n in run.plan.nodes ensures LeftAt(db.artifacts, db.states, run, x, n) {
      NewRunLeftAt(db, env, release, plan, x, n);
    }
    LeftEverywhere(db.artifacts, db.states, run);
  }

  lemma LeftEverywhere(artifacts: map<int, Artifact>, states: map<Spot, State>, run: R.Run)
    requires forall x, n :: x in run.plan.items && n in run.plan.nodes ==> LeftAt(artifacts, states, run, x, n)
    ensures LeftBy(artifacts, states, run)
  {
    hide LeftAt;
  }

  lemma NewRunLeftAt(db: DB, env: int, release: int, plan: Plan, x: Item, n: int)
    requires Deployable(db, env, release) && plan.environmentId == env && NodeSet(plan) == db.envs[env].nodes && Sound(plan.items)
    requires x in plan.items && n in plan.nodes
    ensures LeftAt(db.artifacts, db.states, NewRun(db, env, release, plan).run, x, n)
  {
    hide ObservedIn, TargetsFor, Observe, Before;
    H.NewRowsOf(plan.items);
    ObservedFacts(db, env, db.envs[env].nodes);
    assert n in NodeSet(plan);
    assert R.NewRows(plan.items)[x.unitId] == R.NewRow(x);
  }

  lemma AddRunLeaves(db: DB, env: int, f: R.Flow)
    requires Inv(db) && f.run.plan.environmentId == env && LeftBy(db.artifacts, db.states, f.run)
    ensures var b := AddRun(db, env, f); WrittenBack(b.artifacts, b.states, b.flows, b.latest)
  {
    hide UnitCodes, AppCodes, ManifestsDiffer, ManifestsOk, RunsOk, Reachable, LeftBy;
    var b := AddRun(db, env, f);
    forall e | e in b.latest ensures LastLeft(b.artifacts, b.states, b.flows, e, b.latest[e]) {
      if e != env {
        var r: int := db.latest[e];
        assert LastLeft(db.artifacts, db.states, db.flows, e, r);
        assert r < db.nextRun;
      }
    }
  }

  lemma AddRunKeepsRuns(db: DB, env: int, f: R.Flow)
    requires Inv(db) && f.run.plan.environmentId == env && !Busy(db.flows, env) && S.FlowOk(f) && Made(f.run)
    requires Rooted(db, f.run.plan, f.run.targets) && !db.releases[f.run.plan.releaseId].archived
    ensures RunsOk(AddRun(db, env, f)) && Catalogued(AddRun(db, env, f))
  {
    hide UnitCodes, AppCodes, ManifestsDiffer, ManifestsOk, RunsRooted, CurrentReady, Reachable, WrittenBack,
         S.FlowOk, Made, Rooted;
    var b, n := AddRun(db, env, f), db.nextRun;
    assert n !in db.flows;
    SameTables(db, b);
    RootedHere(db, b, f);
    forall r | r in b.flows && R.Ongoing(b.flows[r].run.status)
      ensures b.flows[r].run.plan.environmentId in b.latest && b.latest[b.flows[r].run.plan.environmentId] == r
    {
      if r != n { assert db.flows[r].run.plan.environmentId != env; }
    }
    assert ManifestsOk(b);
  }

  lemma RootedHere(db: DB, b: DB, f: R.Flow)
    requires Inv(db) && db.nextRun !in db.flows
    requires b == db.(flows := db.flows[db.nextRun := f], nextRun := b.nextRun, latest := b.latest)
    requires Made(f.run) && Rooted(db, f.run.plan, f.run.targets)
    ensures RunsRooted(b) && f.run.plan.releaseId in db.releases
  {
    hide UnitCodes, AppCodes, FlowsOk, Locked, CurrentReady, Reachable, WrittenBack, Made, IdsFresh, ManifestsDiffer,
         ManifestsOk, EntryOk;
    var g := b.(flows := db.flows);
    SameTables(db, b);
    assert SamePlans(db.flows, g.flows);
    assert KeepsReleases(g.flows, db.releases, g.releases);
    RunsStayRooted(db, g);
    RootStays(db, b, f.run.plan, f.run.targets);
    forall r | r in b.flows ensures Made(b.flows[r].run) && Rooted(b, b.flows[r].run.plan, b.flows[r].run.targets) {
      if r != db.nextRun { assert Rooted(g, g.flows[r].run.plan, g.flows[r].run.targets); RootSame(g, b, g.flows[r]); }
    }
  }

  lemma RootSame(a: DB, b: DB, f: R.Flow)
    requires a.artifacts == b.artifacts && a.units == b.units && a.envs == b.envs && a.revisions == b.revisions
    requires a.releases == b.releases
    requires Rooted(a, f.run.plan, f.run.targets)
    ensures Rooted(b, f.run.plan, f.run.targets)
  {
  }

  lemma CreateRunKeeps(db: DB, env: int, release: int, mode: Mode, expected: Document)
    requires Inv(db)
    ensures Inv(CreateRun(db, env, release, mode, expected).0)
  {
    hide Inv;
    var c := CreateRun(db, env, release, mode, expected);
    if c.1.Ok? {
      var plan := LoadPlan(db, env, release, mode).value;
      PlannedFacts(db, env, release, mode, plan);
      assert c.0 == AddRun(db, env, NewRun(db, env, release, plan));
      hide *;
      NewRunKeeps(db, env, release, mode, plan);
    } else {
      assert c.0 == db;
    }
  }

  lemma NewRunKeeps(db: DB, env: int, release: int, mode: Mode, plan: Plan)
    requires Inv(db) && !Busy(db.flows, env) && Planned(db, env, release, mode, plan)
    ensures Inv(AddRun(db, env, NewRun(db, env, release, plan)))
  {
    hide Planned, Catalogued, RunsOk, WrittenBack, RowsPresent, NewRun, LeftBy, Rooted, Made, S.FlowOk, Busy;
    PlannedFacts(db, env, release, mode, plan);
    NewRunMade(db, env, release, mode, plan);
    NewRowsPresent(db, env, release, mode, plan);
    NewRunLeft(db, env, release, mode, plan);
    NewRunPlan(db, env, release, plan);
    var f := NewRun(db, env, release, plan);
    AddRunKeepsRuns(db, env, f);
    AddRunLeaves(db, env, f);
    assert Reachable(AddRun(db, env, f));
  }

  lemma NewRunPlan(db: DB, env: int, release: int, plan: Plan)
    ensures NewRun(db, env, release, plan).run.plan == plan
    ensures NewRun(db, env, release, plan).run.snapshot
  {
  }

  // ---------------------------------------------------------------- writing back

  lemma {:induction false} FoundItem(items: seq<Item>, u: int)
    ensures FindItem(items, u).Some? ==> FindItem(items, u).value in items && FindItem(items, u).value.unitId == u
    ensures FindItem(items, u) == None ==> forall x :: x in items ==> x.unitId != u
  {
    if items != [] {
      FoundItem(items[1..], u);
      assert items == [items[0]] + items[1..];
    }
  }

  /** A live run is the last of its environment, and the unit that comes back is an item of its plan whose row is in
      progress and still names the item's release, which is present. */
  lemma JoinFacts(db: DB, r: int, u: int)
    requires Inv(db) && r in db.flows && R.Joinable(db.flows[r], u)
    ensures var run := db.flows[r].run; var x := FindItem(run.plan.items, u);
            && run.plan.environmentId in db.latest && db.latest[run.plan.environmentId] == r
            && x.Some? && x.value in run.plan.items && x.value.unitId == u
            && u in run.rows && run.rows[u].status == R.InProgress && run.rows[u].release == x.value.release
            && IsPresent(db.artifacts, x.value.release)
  {
    var f := db.flows[r];
    hide Catalogued, RunsRooted, DeployedReady, CurrentReady, WrittenBack, ReleasesPresent, StatesPresent,
         ExecutionWaves, Sound, S.Barrier, S.StartedFirst, PresentAt;
    assert S.FlowOk(f);
    assert S.ExecOk(f.run, f.driver.exec);
    assert u in R.Underway(f.run.rows);
    FoundItem(f.run.plan.items, u);
    assert RowsPresent(db.artifacts, f.run.rows);
  }

  lemma SameUnitSameItem(items: seq<Item>, x: Item, y: Item)
    requires Sound(items) && x in items && y in items && x.unitId == y.unitId
    ensures x == y
  {
    hide Before;
    var i :| 0 <= i < |items| && items[i] == x;
    var j :| 0 <= j < |items| && items[j] == y;
  }

  lemma WroteOwn(artifacts: map<int, Artifact>, states: map<Spot, State>, a: R.Run, b: R.Run, x: Item)
    requires Sound(a.plan.items) && x in a.plan.items && SamePlanning(a, b) && LeftBy(artifacts, states, a)
    requires R.StatusOf(b.rows, x.unitId) == R.Succeeded
    requires forall v :: v != x.unitId ==> R.StatusOf(b.rows, v) == R.StatusOf(a.rows, v)
    ensures LeftBy(artifacts, WriteStates(states, a.plan.environmentId, x.unitId, a.plan.nodes, Written(x)), b)
  {
    hide R.StatusOf, Sound, Written, Observe;
    var after := WriteStates(states, a.plan.environmentId, x.unitId, a.plan.nodes, Written(x));
    forall y, n | y in b.plan.items && n in b.plan.nodes ensures LeftAt(artifacts, after, b, y, n) {
      assert LeftAt(artifacts, states, a, y, n);
      if y.unitId == x.unitId { SameUnitSameItem(a.plan.items, x, y); }
    }
  }

  lemma WroteElsewhere(artifacts: map<int, Artifact>, states: map<Spot, State>, env: int, u: int, nodes: seq<int>,
                       s: State, run: R.Run)
    requires run.plan.environmentId != env && LeftBy(artifacts, states, run)
    ensures LeftBy(artifacts, WriteStates(states, env, u, nodes, s), run)
  {
    hide R.StatusOf, Written, Observe;
    var after := WriteStates(states, env, u, nodes, s);
    forall y, n | y in run.plan.items && n in run.plan.nodes ensures LeftAt(artifacts, after, run, y, n) {
      assert LeftAt(artifacts, states, run, y, n);
    }
  }

  function JoinedStates(db: DB, r: int, x: Item): map<Spot, State>
    requires r in db.flows
  {
    WriteStates(db.states, db.flows[r].run.plan.environmentId, x.unitId, db.flows[r].run.plan.nodes, Written(x))
  }

  lemma JoinLeaves(db: DB, r: int, x: Item, g: R.Flow)
    requires Inv(db) && r in db.flows && S.FlowOk(db.flows[r]) && x in db.flows[r].run.plan.items
    requires db.flows[r].run.plan.environmentId in db.latest && db.latest[db.flows[r].run.plan.environmentId] == r
    requires SamePlanning(db.flows[r].run, g.run) && R.StatusOf(g.run.rows, x.unitId) == R.Succeeded
    requires forall v :: v != x.unitId ==> R.StatusOf(g.run.rows, v) == R.StatusOf(db.flows[r].run.rows, v)
    ensures WrittenBack(db.artifacts, JoinedStates(db, r, x), db.flows[r := g], db.latest)
  {
    hide Catalogued, RunsOk, Reachable, LeftBy, WriteStates, R.StatusOf, Sound;
    var after, flows, env := JoinedStates(db, r, x), db.flows[r := g], db.flows[r].run.plan.environmentId;
    forall e | e in db.latest ensures LastLeft(db.artifacts, after, flows, e, db.latest[e]) {
      var q: int := db.latest[e];
      assert LastLeft(db.artifacts, db.states, db.flows, e, q);
      if q == r {
        WroteOwn(db.artifacts, db.states, db.flows[r].run, g.run, x);
      } else if q in db.flows {
        WroteElsewhere(db.artifacts, db.states, env, x.unitId, db.flows[r].run.plan.nodes, Written(x), db.flows[q].run);
      }
    }
  }

  lemma WrittenPresent(artifacts: map<int, Artifact>, states: map<Spot, State>, env: int, u: int, nodes: seq<int>,
                       x: Item)
    requires StatesPresent(artifacts, states) && IsPresent(artifacts, x.release)
    ensures StatesPresent(artifacts, WriteStates(states, env, u, nodes, Written(x)))
  {
    hide PresentAt;
  }

  lemma JoinRows(f: R.Flow, u: int)
    requires R.Joinable(f, u) && u in f.run.rows && f.run.rows[u].status == R.InProgress
    ensures var g := R.Join(f, u, R.Worked);
            && R.StatusOf(g.run.rows, u) == R.Succeeded
            && forall v :: v != u ==> R.StatusOf(g.run.rows, v) == R.StatusOf(f.run.rows, v)
  {
  }

  lemma JoinedRunsKeep(db: DB, r: int, x: Item, g: R.Flow)
    requires Inv(db) && r in db.flows && EvolvesTo(db.flows[r], g)
    ensures var b := db.(flows := db.flows[r := g], states := JoinedStates(db, r, x));
            RunsOk(b) && RunsPresent(b.artifacts, b.flows) && Catalogued(b)
  {
    hide EvolvesTo, JoinedStates, Evolve, RunsOk, RunsPresent, Catalogued, Reachable, WrittenBack;
    var flows := db.flows[r := g];
    PutEvolves(db, r, g);
    EvolveKeepsRuns(db, flows);
    EvolveKeepsRefs(db, flows);
    StatesDoNotMatter(db.(flows := flows), db.(flows := flows, states := JoinedStates(db, r, x)));
    JoinedCatalogue(db, r, g, JoinedStates(db, r, x));
  }

  lemma JoinedCatalogue(db: DB, r: int, g: R.Flow, states: map<Spot, State>)
    requires Catalogued(db) && r in db.flows
    ensures Catalogued(db.(flows := db.flows[r := g], states := states))
  {
    hide UnitCodes, AppCodes, ManifestsDiffer, ManifestsOk, Grows;
    var b := db.(flows := db.flows[r := g], states := states);
    SameTables(db, b);
    assert IdsFresh(b);
  }

  lemma JoinedKeeps(db: DB, r: int, x: Item, g: R.Flow)
    requires Inv(db) && r in db.flows && x in db.flows[r].run.plan.items && IsPresent(db.artifacts, x.release)
    requires db.flows[r].run.plan.environmentId in db.latest && db.latest[db.flows[r].run.plan.environmentId] == r
    requires EvolvesTo(db.flows[r], g) && S.FlowOk(db.flows[r])
    requires R.StatusOf(g.run.rows, x.unitId) == R.Succeeded
    requires forall v :: v != x.unitId ==> R.StatusOf(g.run.rows, v) == R.StatusOf(db.flows[r].run.rows, v)
    ensures Inv(db.(flows := db.flows[r := g], states := JoinedStates(db, r, x)))
  {
    hide S.FlowOk, KeepsRefs, WriteStates, PresentAt, Catalogued, RunsOk, R.StatusOf, WrittenBack, ReleasesPresent,
         RunsPresent, StatesPresent;
    JoinLeaves(db, r, x, g);
    JoinedRunsKeep(db, r, x, g);
    WrittenPresent(db.artifacts, db.states, db.flows[r].run.plan.environmentId, x.unitId, db.flows[r].run.plan.nodes, x);
  }

  lemma JoinWorkedKeeps(db: DB, r: int, u: int)
    requires Inv(db) && r in db.flows && R.Joinable(db.flows[r], u)
    ensures Inv(JoinUnit(db, r, u, R.Worked))
  {
    var f := db.flows[r];
    var g := R.Join(f, u, R.Worked);
    JoinFacts(db, r, u);
    var x := FindItem(f.run.plan.items, u).value;
    assert JoinUnit(db, r, u, R.Worked) == db.(flows := db.flows[r := g], states := JoinedStates(db, r, x));
    assert S.FlowOk(f);
    StepEvolves(f, R.DoJoin(u, R.Worked));
    H.JoinIsStep(f, u, R.Worked);
    JoinRows(f, u);
    hide *;
    JoinedKeeps(db, r, x, g);
  }

  lemma StatesDoNotMatter(a: DB, b: DB)
    requires b == a.(states := b.states) && RunsOk(a)
    ensures RunsOk(b)
  {
    hide FlowsOk, Locked, DeployedReady, CurrentReady, Made;
    forall r | r in b.flows ensures Made(b.flows[r].run) && Rooted(b, b.flows[r].run.plan, b.flows[r].run.targets) {
      RootSame(a, b, a.flows[r]);
    }
  }

  // ---------------------------------------------------------------- the end of a run

  lemma SetCurrentKeeps(db: DB, env: int, release: int)
    requires Inv(db) && env in db.envs && ReadyOf(db.releases, release, db.envs[env].app)
    ensures Inv(db.(envs := db.envs[env := db.envs[env].(current := Some(release))]))
  {
    var b := db.(envs := db.envs[env := db.envs[env].(current := Some(release))]);
    hide UnitCodes, AppCodes, ManifestsDiffer, ManifestsOk, FlowsOk, Locked, RunsRooted, DeployedReady, Reachable,
         WrittenBack;
    assert KeepsEnvs(db.envs, b.envs) && CurrentReady(b.envs, b.releases);
    assert A.OnlyAdds(db, b) && IdsFresh(b);
    hide *;
    A.AddingUnit(db, b);
  }

  lemma AdvanceKeeps(db: DB, r: int)
    requires Inv(db) && r in db.flows
    ensures Inv(AdvanceRun(db, r))
  {
    var f := db.flows[r];
    var g, env, release := R.Advance(f), f.run.plan.environmentId, f.run.plan.releaseId;
    assert S.FlowOk(f);
    StepEvolves(f, R.DoAdvance);
    assert R.Step(f, R.DoAdvance) == g;
    if f.driver.Live? && f.driver.exec.phase == R.Finalizing && g.run.status == R.Success && env in db.envs {
      FinalizingReady(db, r);
      hide S.FlowOk, R.Step, R.Advance, Inv, EvolvesTo, SameSuccesses;
      SetCurrentKeeps(db, env, release);
      var c := db.(envs := db.envs[env := db.envs[env].(current := Some(release))]);
      PutFlowKeeps(c, r, g);
      assert AdvanceRun(db, r) == PutFlow(c, r, g);
    } else {
      hide S.FlowOk, R.Step, R.Advance, Inv, EvolvesTo, SameSuccesses;
      PutFlowKeeps(db, r, g);
    }
  }

  lemma FinalizingReady(db: DB, r: int)
    requires Inv(db) && r in db.flows && db.flows[r].driver.Live?
    ensures var p := db.flows[r].run.plan;
            p.environmentId in db.envs && ReadyOf(db.releases, p.releaseId, db.envs[p.environmentId].app)
  {
    hide Catalogued, WrittenBack, Reachable, Locked, CurrentReady, Made, S.RunOk, ExecutionWaves;
    assert S.FlowOk(db.flows[r]);
    assert Rooted(db, db.flows[r].run.plan, db.flows[r].run.targets);
  }

  lemma ClaimRunKeeps(db: DB, r: int, limit: int, signaled: bool)
    requires Inv(db) && r in db.flows
    ensures Inv(PutFlow(db, r, R.Claim(db.flows[r], limit, signaled)))
  {
    var f := db.flows[r];
    assert S.FlowOk(f);
    hide *;
    H.ClaimIsStep(f, limit, signaled);
    StepEvolves(f, R.DoClaim(limit, signaled));
    PutFlowKeeps(db, r, R.Claim(f, limit, signaled));
  }

  lemma JoinRunKeeps(db: DB, r: int, u: int, o: R.Outcome)
    requires Inv(db) && r in db.flows
    ensures Inv(JoinUnit(db, r, u, o))
  {
    var f := db.flows[r];
    assert S.FlowOk(f);
    if !R.Joinable(f, u) || FindItem(f.run.plan.items, u) == None {
      assert JoinUnit(db, r, u, o) == db;
    } else if o == R.Worked {
      hide *;
      JoinWorkedKeeps(db, r, u);
    } else {
      assert JoinUnit(db, r, u, o) == PutFlow(db, r, R.Join(f, u, o));
      hide *;
      H.JoinIsStep(f, u, o);
      StepEvolves(f, R.DoJoin(u, o));
      PutFlowKeeps(db, r, R.Join(f, u, o));
    }
  }

  lemma OtherStepKeeps(db: DB, r: int, e: R.FlowEvent)
    requires Inv(db) && r in db.flows && !e.DoJoin?
    ensures Inv(PutFlow(db, r, R.Step(db.flows[r], e)))
  {
    assert S.FlowOk(db.flows[r]);
    hide *;
    StepEvolves(db.flows[r], e);
    PutFlowKeeps(db, r, R.Step(db.flows[r], e));
  }

  lemma RunStepKeeps(db: DB, r: int, e: R.FlowEvent)
    requires Inv(db) && r in db.flows
    ensures Inv(RunStep(db, r, e))
  {
    hide Inv, R.Step, R.Claim, AdvanceRun, JoinUnit, PutFlow;
    match e
    case DoClaim(_, signaled) => ClaimRunKeeps(db, r, LimitOf(db, db.flows[r].run.plan.environmentId), signaled);
    case DoAdvance => AdvanceKeeps(db, r);
    case DoJoin(u, o) => JoinRunKeeps(db, r, u, o);
    case DoCrash =>
    case DoRecover =>
    case _ => OtherStepKeeps(db, r, e);
  }

  // ---------------------------------------------------------------- cleanup

  /** What is referenced is present. */
  lemma ReferencedIsPresent(db: DB, a: int)
    requires Inv(db) && Referenced(db, a)
    ensures PresentAt(db.artifacts, a)
  {
    hide Catalogued, RunsOk, WrittenBack, PresentAt;
    if r, u :| r in db.releases && u in db.releases[r].entries && db.releases[r].entries[u].release == Some(a) {
      assert EntriesPresent(db.artifacts, db.releases[r].entries);
      assert IsPresent(db.artifacts, db.releases[r].entries[u].release);
    } else if p :| p in db.states && db.states[p].release == Some(a) {
      assert IsPresent(db.artifacts, db.states[p].release);
    } else {
      var r, u :| r in db.flows && u in db.flows[r].run.rows && db.flows[r].run.snapshot && db.flows[r].run.rows[u].release == Some(a);
      assert RowsPresent(db.artifacts, db.flows[r].run.rows);
      assert IsPresent(db.artifacts, db.flows[r].run.rows[u].release);
    }
  }

  lemma OthersPresent(db: DB, a: int, status: ArtifactStatus)
    requires Inv(db) && a in db.artifacts && !Referenced(db, a)
    ensures var b := MarkArtifact(db, a, status);
            ReleasesPresent(b.artifacts, b.releases) && StatesPresent(b.artifacts, b.states) && RunsPresent(b.artifacts, b.flows)
  {
    hide Catalogued, RunsOk, WrittenBack;
    var b := MarkArtifact(db, a, status);
    forall r | r in b.releases ensures EntriesPresent(b.artifacts, b.releases[r].entries) {
      assert EntriesPresent(db.artifacts, db.releases[r].entries);
      forall u | u in b.releases[r].entries ensures IsPresent(b.artifacts, b.releases[r].entries[u].release) {
        OtherPresent(db.artifacts, db.releases[r].entries[u].release, a, status);
      }
    }
    forall p | p in b.states ensures IsPresent(b.artifacts, b.states[p].release) {
      OtherPresent(db.artifacts, db.states[p].release, a, status);
    }
    forall r | r in b.flows && b.flows[r].run.snapshot ensures RowsPresent(b.artifacts, b.flows[r].run.rows) {
      assert RowsPresent(db.artifacts, db.flows[r].run.rows);
      forall u | u in b.flows[r].run.rows ensures IsPresent(b.artifacts, b.flows[r].run.rows[u].release) {
        OtherPresent(db.artifacts, db.flows[r].run.rows[u].release, a, status);
      }
    }
  }

  lemma OtherPresent(artifacts: map<int, Artifact>, release: Option<int>, a: int, status: ArtifactStatus)
    requires a in artifacts && IsPresent(artifacts, release)
    ensures release != Some(a) ==> IsPresent(artifacts[a := artifacts[a].(status := status)], release)
  {
  }

  lemma MarkKeepsRuns(db: DB, a: int, status: ArtifactStatus)
    requires Inv(db) && a in db.artifacts
    ensures var b := MarkArtifact(db, a, status);
            Catalogued(b) && RunsOk(b) && WrittenBack(b.artifacts, b.states, b.flows, b.latest)
  {
    hide AppCodes, ManifestsDiffer, ManifestsOk, FlowsOk, Locked, RunsRooted, DeployedReady, CurrentReady,
         ReleasesPresent, RunsPresent, StatesPresent, WrittenBack;
    var b := MarkArtifact(db, a, status);
    assert KeepsArtifacts(db.artifacts, b.artifacts);
    assert Grows(db, b);
    A.KeepsItself(db);
    assert UnitCodes(b.artifacts, b.unitCodes);
    hide UnitCodes, Grows, KeepsArtifacts;
    ManifestsStay(db, b);
    RunsStayRooted(db, b);
    WrittenStays(db, b);
  }

  lemma MarkKeeps(db: DB, a: int, status: ArtifactStatus)
    requires Inv(db) && a in db.artifacts && !Referenced(db, a)
    ensures Inv(MarkArtifact(db, a, status))
  {
    hide Catalogued, RunsOk, ReleasesPresent, RunsPresent, StatesPresent, WrittenBack, Referenced;
    OthersPresent(db, a, status);
    MarkKeepsRuns(db, a, status);
  }

  lemma CleanupKeeps(db: DB, a: int, removed: bool)
    requires Inv(db)
    ensures Inv(BeginCleanup(db, a).0) && Inv(EndCleanup(db, a, removed))
  {
    hide Inv, Referenced;
    if a in db.artifacts && Cleanable(db, a) { MarkKeeps(db, a, Deleting); }
    if a in db.artifacts && db.artifacts[a].status == Deleting {
      if Referenced(db, a) { ReferencedIsPresent(db, a); }
      MarkKeeps(db, a, if removed then Deleted else DeleteFailed);
    }
  }

  // ---------------------------------------------------------------- archiving and deleting releases

  lemma ArchiveKeeps(db: DB, release: int)
    requires Inv(db) && release in db.releases && !CurrentSomewhere(db, release) && !DeployedNow(db, release)
    ensures Inv(db.(releases := db.releases[release := db.releases[release].(archived := true)]))
  {
    var b := db.(releases := db.releases[release := db.releases[release].(archived := true)]);
    ArchiveKeepsCatalogue(db, release);
    ArchiveKeepsRuns(db, release);
    hide Catalogued, RunsOk, RunsPresent, StatesPresent, WrittenBack, EntriesPresent;
    assert ReleasesPresent(b.artifacts, b.releases);
  }

  lemma ArchiveKeepsCatalogue(db: DB, release: int)
    requires Inv(db) && release in db.releases
    ensures Catalogued(db.(releases := db.releases[release := db.releases[release].(archived := true)]))
  {
    ArchiveManifests(db, release);
    ArchiveDiffers(db.releases, release);
    ArchiveCodes(db.releases, db.appCodes, release);
    hide UnitCodes, AppCodes, ManifestsDiffer, ManifestsOk, RunsOk, Reachable, WrittenBack;
  }

  lemma ArchiveCodes(releases: map<int, Release>, codes: map<int, int>, release: int)
    requires AppCodes(releases, codes) && release in releases
    ensures AppCodes(releases[release := releases[release].(archived := true)], codes)
  {
  }

  lemma ArchiveKeepsRuns(db: DB, release: int)
    requires Inv(db) && release in db.releases && !CurrentSomewhere(db, release) && !DeployedNow(db, release)
    ensures RunsOk(db.(releases := db.releases[release := db.releases[release].(archived := true)]))
  {
    hide IdsFresh, UnitCodes, AppCodes, ManifestsDiffer, ManifestsOk, FlowsOk, Locked, RunsRooted, Reachable,
         WrittenBack, CurrentSomewhere, CurrentReady, SameRelease;
    var b := db.(releases := db.releases[release := db.releases[release].(archived := true)]);
    assert SamePlans(db.flows, b.flows);
    forall r | r in db.releases ensures SameRelease(db.releases[r], b.releases[r]) {
      Archived(db.releases[r]);
    }
    SameTables(db, b);
    RunsStayRooted(db, b);
    CurrentElsewhere(db, release);
  }

  lemma Archived(x: Release)
    ensures SameRelease(x, x) && SameRelease(x, x.(archived := true))
  {
  }

  lemma CurrentElsewhere(db: DB, release: int)
    requires CurrentReady(db.envs, db.releases) && release in db.releases && !CurrentSomewhere(db, release)
    ensures CurrentReady(db.envs, db.releases[release := db.releases[release].(archived := true)])
    ensures CurrentReady(db.envs, db.releases - {release})
  {
    forall e | e in db.envs && db.envs[e].current.Some?
      ensures ReadyOf(db.releases[release := db.releases[release].(archived := true)], db.envs[e].current.value, db.envs[e].app)
      ensures ReadyOf(db.releases - {release}, db.envs[e].current.value, db.envs[e].app)
    {
      var c: int := db.envs[e].current.value;
      assert ReadyOf(db.releases, c, db.envs[e].app);
      assert c != release;
    }
  }

  lemma ArchiveDiffers(releases: map<int, Release>, release: int)
    requires ManifestsDiffer(releases) && release in releases
    ensures ManifestsDiffer(releases[release := releases[release].(archived := true)])
  {
  }

  lemma DeleteDiffers(releases: map<int, Release>, release: int)
    requires ManifestsDiffer(releases)
    ensures ManifestsDiffer(releases - {release})
  {
    hide SameManifest;
  }

  lemma ArchiveManifests(db: DB, release: int)
    requires ManifestsOk(db) && release in db.releases
    ensures ManifestsOk(db.(releases := db.releases[release := db.releases[release].(archived := true)]))
  {
    hide EntryOk;
    var b := db.(releases := db.releases[release := db.releases[release].(archived := true)]);
    SameTables(db, b);
    forall r | r in b.releases
      ensures EntriesOk(b, b.releases[r].app, b.releases[r].entries) && ConfigsOk(b, b.releases[r].app, b.releases[r].configs)
              && Inherits(b.releases, r, b.releases[r])
    {
      var y := db.releases[r];
      assert EntriesOk(db, y.app, y.entries) && ConfigsOk(db, y.app, y.configs);
      EntriesStay(db, b, y.app, y.entries);
      ConfigsStay(db, b, y.app, y.configs);
      ArchiveInherits(db.releases, release, r);
    }
  }

  lemma ArchiveInherits(releases: map<int, Release>, release: int, r: int)
    requires release in releases && r in releases && Inherits(releases, r, releases[r])
    ensures var b := releases[release := releases[release].(archived := true)]; Inherits(b, r, b[r])
  {
  }

  lemma DeleteReleaseKeeps(db: DB, release: int)
    requires Inv(db) && release in db.releases && !CurrentSomewhere(db, release) && !DeployedEver(db, release)
    requires !BaseOfSome(db, release)
    ensures Inv(db.(releases := db.releases - {release}))
  {
    var b := db.(releases := db.releases - {release});
    DeleteManifests(db, release);
    DeleteDiffers(db.releases, release);
    DeleteKeepsRuns(db, release);
    hide UnitCodes, ManifestsDiffer, ManifestsOk, RunsOk, RunsPresent, StatesPresent, WrittenBack, EntriesPresent;
    assert AppCodes(b.releases, b.appCodes) && IdsFresh(b);
    assert ReleasesPresent(b.artifacts, b.releases);
  }

  lemma DeleteKeepsRuns(db: DB, release: int)
    requires Inv(db) && release in db.releases && !CurrentSomewhere(db, release) && !DeployedEver(db, release)
    ensures RunsOk(db.(releases := db.releases - {release}))
  {
    hide IdsFresh, UnitCodes, AppCodes, ManifestsDiffer, ManifestsOk, FlowsOk, Locked, RunsRooted, Reachable,
         WrittenBack, CurrentSomewhere, CurrentReady, SameRelease, BaseOfSome;
    var b := db.(releases := db.releases - {release});
    assert SamePlans(db.flows, b.flows);
    forall r | r in db.flows && db.flows[r].run.plan.releaseId in db.releases
      ensures db.flows[r].run.plan.releaseId in b.releases
              && SameRelease(db.releases[db.flows[r].run.plan.releaseId], b.releases[db.flows[r].run.plan.releaseId])
    {
      Itself(db.releases[db.flows[r].run.plan.releaseId]);
    }
    SameTables(db, b);
    RunsStayRooted(db, b);
    CurrentElsewhere(db, release);
  }

  lemma Itself(x: Release)
    ensures SameRelease(x, x)
  {
  }

  lemma DeleteManifests(db: DB, release: int)
    requires ManifestsOk(db) && release in db.releases && !BaseOfSome(db, release)
    ensures ManifestsOk(db.(releases := db.releases - {release}))
  {
    hide EntryOk;
    var b := db.(releases := db.releases - {release});
    SameTables(db, b);
    forall r | r in b.releases
      ensures EntriesOk(b, b.releases[r].app, b.releases[r].entries) && ConfigsOk(b, b.releases[r].app, b.releases[r].configs)
              && Inherits(b.releases, r, b.releases[r])
    {
      var y := db.releases[r];
      assert EntriesOk(db, y.app, y.entries) && ConfigsOk(db, y.app, y.configs);
      EntriesStay(db, b, y.app, y.entries);
      ConfigsStay(db, b, y.app, y.configs);
      assert y.base != Some(release);
      DeleteInherits(db.releases, release, r);
    }
  }

  lemma DeleteInherits(releases: map<int, Release>, release: int, r: int)
    requires r in releases && Inherits(releases, r, releases[r]) && releases[r].base != Some(release)
    ensures Inherits(releases - {release}, r, releases[r])
  {
  }
}

/** Which plans the tables give: from which rows, and when none. */
module LoadedPlans {
  import opened Options
  import opened Planning
  import opened PlanMeaning
  import opened Tables
  import opened Invariants
  import opened DeploySafety
  import C = Convergence

  /** The environment is enabled, the release is one of its application's and not archived, and says with which
      configuration, one of the application's, it runs there. */
  predicate Eligible(db: DB, env: int, release: int) {
    && env in db.envs && db.envs[env].enabled
    && release in db.releases && db.releases[release].app == db.envs[env].app && !db.releases[release].archived
    && env in db.releases[release].configs
    && db.releases[release].configs[env] in db.revisions
    && db.revisions[db.releases[release].configs[env]].app == db.envs[env].app
  }

  /** A target is an entry of the release's manifest: with its status, its places and its package, whose version and
      code it carries, and a fingerprint that takes in the configuration of the environment. */
  predicate FromEntry(db: DB, env: int, release: int, t: TargetUnit)
    requires Eligible(db, env, release)
  {
    var x := db.releases[release];
    && t.unitId in x.entries && t.unitId in db.units && db.units[t.unitId].app == x.app && t.unitKey == db.units[t.unitId].key
    && var e := x.entries[t.unitId];
       && t.release == e.release && t.desired == e.desired
       && t.stage == e.stage && t.order == e.order && t.removal == e.removal
       && t.fingerprint == Fingerprint(e.fingerprint, db.revisions[x.configs[env]].hash)
       && PackageOf(db, e.release, t.version, t.code)
  }

  /** Version and code of a package that is known; of none, none. */
  predicate PackageOf(db: DB, release: Option<int>, version: Option<string>, code: Option<int>) {
    match release
    case None => version == None && code == None
    case Some(a) =>
      if a in db.artifacts then version == Some(db.artifacts[a].version) && code == Some(db.artifacts[a].code)
      else version == None && code == None
  }

  /** A state is a row about a node of the environment, with the code of the package it names. */
  predicate FromRow(db: DB, env: int, s: NodeState)
    requires env in db.envs
  {
    var p := Spot(env, s.unitId, s.nodeId);
    && p in db.states && s.nodeId in db.envs[env].nodes
    && s.status == db.states[p].status && s.release == db.states[p].release
    && s.fingerprint == db.states[p].fingerprint && s.versionLabel == db.states[p].versionLabel
    && match s.release
       case None => s.code == None
       case Some(a) => s.code == if a in db.artifacts then Some(db.artifacts[a].code) else None
  }

  /** The planner's input lists the nodes of the environment, the entries of the release and the states of those nodes,
      each once and nothing else. */
  ghost predicate Reads(db: DB, env: int, release: int, mode: Mode, input: PlanInput) {
    && Eligible(db, env, release)
    && input.appId == db.envs[env].app && input.environmentId == env && input.releaseId == release && input.mode == mode
    && input.configId == db.releases[release].configs[env]
    && (forall n :: n in input.nodes <==> n in db.envs[env].nodes)
    && (forall t :: t in input.units <==> FromEntry(db, env, release, t))
    && (forall i, j :: 0 <= i < j < |input.units| ==> input.units[i].unitId != input.units[j].unitId)
    && (forall s :: s in input.states <==> FromRow(db, env, s))
    && DistinctStates(input.states)
  }

  lemma EligibleSpelled(db: DB, env: int, release: int)
    ensures Eligible(db, env, release) <==> Deployable(db, env, release)
  {
  }

  ghost function Loaded(db: DB, env: int, release: int, mode: Mode): PlanInput
    requires Eligible(db, env, release)
  {
    var nodes := db.envs[env].nodes;
    InputOf(db.envs[env].app, env, release, db.releases[release].configs[env], mode, nodes,
            TargetsFor(db, env, release), ObservedIn(db, env, nodes))
  }

  lemma TargetSpelled(db: DB, env: int, release: int, t: TargetUnit)
    requires Eligible(db, env, release)
    ensures t in TargetsIn(TargetsFor(db, env, release)) <==> FromEntry(db, env, release, t)
  {
    var targets := TargetsFor(db, env, release);
    if FromEntry(db, env, release, t) {
      assert t.unitId in targets && targets[t.unitId] == t;
    }
  }

  lemma StateSpelled(db: DB, env: int, s: NodeState)
    requires env in db.envs
    ensures s in StatesIn(ObservedIn(db, env, db.envs[env].nodes)) <==> FromRow(db, env, s)
  {
    var nodes := db.envs[env].nodes;
    ObservedFacts(db, env, nodes);
    var observed := ObservedIn(db, env, nodes);
    hide ObservedIn;
    if FromRow(db, env, s) {
      assert (s.unitId, s.nodeId) in observed && observed[(s.unitId, s.nodeId)] == s;
    }
    if s in StatesIn(observed) {
      var p :| p in observed && observed[p] == s;
      assert p == (s.unitId, s.nodeId);
    }
  }

  lemma LoadedUnits(db: DB, env: int, release: int, units: seq<TargetUnit>)
    requires Eligible(db, env, release) && units == Enumerate(TargetsIn(TargetsFor(db, env, release)))
    ensures forall t :: t in units <==> FromEntry(db, env, release, t)
    ensures forall i, j :: 0 <= i < j < |units| ==> units[i].unitId != units[j].unitId
  {
    var targets := TargetsFor(db, env, release);
    TargetsKeyed(db, db.releases[release], HashAt(db.revisions, db.releases[release].configs[env]));
    assert KeyedTargets(targets);
    EnumerateMembers(TargetsIn(targets));
    hide TargetsFor, TargetsIn, Enumerate, FromEntry, KeyedTargets;
    forall t ensures t in units <==> FromEntry(db, env, release, t) { TargetSpelled(db, env, release, t); }
    forall i, j | 0 <= i < j < |units| ensures units[i].unitId != units[j].unitId {
      C.ListedOnce(units, TargetsIn(targets), i, j);
      TargetKept(targets, units[i]);
      TargetKept(targets, units[j]);
    }
  }

  lemma LoadedStates(db: DB, env: int, states: seq<NodeState>)
    requires env in db.envs && states == Enumerate(StatesIn(ObservedIn(db, env, db.envs[env].nodes)))
    ensures DistinctStates(states) && forall s :: s in states <==> FromRow(db, env, s)
  {
    var observed := ObservedIn(db, env, db.envs[env].nodes);
    ObservedFacts(db, env, db.envs[env].nodes);
    C.ListedDistinct(observed);
    EnumerateMembers(StatesIn(observed));
    hide ObservedIn, StatesIn, Enumerate, FromRow, DistinctStates;
    forall s ensures s in states <==> FromRow(db, env, s) { StateSpelled(db, env, s); }
  }

  lemma LoadedHeader(db: DB, env: int, release: int, mode: Mode)
    requires Eligible(db, env, release)
    ensures var input := Loaded(db, env, release, mode);
            && input.appId == db.envs[env].app && input.environmentId == env && input.releaseId == release
            && input.mode == mode && input.configId == db.releases[release].configs[env]
            && input.nodes == Enumerate(db.envs[env].nodes)
            && input.units == Enumerate(TargetsIn(TargetsFor(db, env, release)))
            && input.states == Enumerate(StatesIn(ObservedIn(db, env, db.envs[env].nodes)))
  {
    hide TargetsFor, ObservedIn, TargetsIn, StatesIn, Enumerate;
  }

  lemma ReadsAll(db: DB, env: int, release: int, mode: Mode, input: PlanInput)
    requires Eligible(db, env, release)
    requires input.appId == db.envs[env].app && input.environmentId == env && input.releaseId == release
    requires input.mode == mode && input.configId == db.releases[release].configs[env]
    requires forall n :: n in input.nodes <==> n in db.envs[env].nodes
    requires forall t :: t in input.units <==> FromEntry(db, env, release, t)
    requires forall i, j :: 0 <= i < j < |input.units| ==> input.units[i].unitId != input.units[j].unitId
    requires (forall s :: s in input.states <==> FromRow(db, env, s)) && DistinctStates(input.states)
    ensures Reads(db, env, release, mode, input)
  {
    hide FromEntry, FromRow, DistinctStates;
  }

  lemma LoadedReads(db: DB, env: int, release: int, mode: Mode)
    requires Eligible(db, env, release)
    ensures Reads(db, env, release, mode, Loaded(db, env, release, mode))
  {
    var input := Loaded(db, env, release, mode);
    LoadedHeader(db, env, release, mode);
    hide *;
    LoadedUnits(db, env, release, input.units);
    LoadedStates(db, env, input.states);
    EnumerateMembers(db.envs[env].nodes);
    ReadsAll(db, env, release, mode, input);
  }

  lemma TargetKept(targets: map<int, TargetUnit>, t: TargetUnit)
    requires KeyedTargets(targets) && t in TargetsIn(targets)
    ensures t.unitId in targets && targets[t.unitId] == t
  {
  }

  /** Entries of a manifest are targets that a plan can be made of. */
  lemma EntriesAreGood(db: DB, env: int, release: int, mode: Mode)
    requires Inv(db) && Eligible(db, env, release)
    ensures GoodUnits(Loaded(db, env, release, mode).units)
    ensures Loaded(db, env, release, mode).units == [] <==> db.releases[release].entries == map[]
    ensures Loaded(db, env, release, mode).nodes == [] <==> db.envs[env].nodes == {}
  {
    LoadedReads(db, env, release, mode);
    var x, input := db.releases[release], Loaded(db, env, release, mode);
    assert EntriesOk(db, x.app, x.entries);
    hide Inv, Loaded, EntriesOk, DistinctStates, FromRow;
    forall i | 0 <= i < |input.units| ensures GoodUnit(input.units[i]) {
      assert FromEntry(db, env, release, input.units[i]);
      EntryGood(db, x, input.units[i]);
    }
    SomeEntry(db, env, release, input.units);
    SomeMember(db.envs[env].nodes);
    if input.nodes != [] { assert input.nodes[0] in input.nodes; }
  }

  lemma SomeEntry(db: DB, env: int, release: int, units: seq<TargetUnit>)
    requires Eligible(db, env, release) && forall t :: t in units <==> FromEntry(db, env, release, t)
    requires EntriesOk(db, db.releases[release].app, db.releases[release].entries)
    ensures units == [] <==> db.releases[release].entries == map[]
  {
    hide EntriesOk;
    var x := db.releases[release];
    SomeMember(x.entries.Keys);
    if units != [] { assert FromEntry(db, env, release, units[0]); }
    if x.entries != map[] {
      assert x.entries.Keys != {};
      var u: int :| u in x.entries.Keys;
      TargetOfEntry(db, env, release, u);
    }
  }

  lemma EntryGood(db: DB, x: Release, t: TargetUnit)
    requires EntriesOk(db, x.app, x.entries) && t.unitId in x.entries
    requires t.desired == x.entries[t.unitId].desired && t.release == x.entries[t.unitId].release
    ensures GoodUnit(t)
  {
    assert EntryOk(db, x.app, t.unitId, x.entries[t.unitId]);
  }

  lemma TargetOfEntry(db: DB, env: int, release: int, u: int)
    requires Eligible(db, env, release) && u in db.releases[release].entries
    requires EntriesOk(db, db.releases[release].app, db.releases[release].entries)
    ensures exists t :: FromEntry(db, env, release, t)
  {
    var x := db.releases[release];
    assert EntryOk(db, x.app, u, x.entries[u]);
    var t := TargetOf(db, u, x.entries[u], db.revisions[x.configs[env]].hash);
    assert FromEntry(db, env, release, t);
  }

  /** Loading a plan: the environment or the release is refused as not found exactly when they do not go together; the
      plan is refused as invalid exactly when there is no node or no unit; and otherwise it is the plan that the planner
      makes of just the rows that concern it. */
  lemma LoadPlanDecided(db: DB, env: int, release: int, mode: Mode)
    requires Inv(db)
    ensures var r := LoadPlan(db, env, release, mode);
            if !Eligible(db, env, release) then r == Err(NotFound)
            else if db.envs[env].nodes == {} || db.releases[release].entries == map[] then r == Err(Validation)
            else r.Ok? && exists input :: Reads(db, env, release, mode, input) && BuildPlan(input) == Ok(r.value)
  {
    EligibleSpelled(db, env, release);
    hide Inv, Deployable, Eligible, BuildPlan, GoodUnits, TargetsFor, ObservedIn, Reads;
    if Eligible(db, env, release) {
      var input := Loaded(db, env, release, mode);
      LoadedReads(db, env, release, mode);
      EntriesAreGood(db, env, release, mode);
      BuildSucceeds(input);
      ReadsDistinct(db, env, release, mode, input);
      LoadsInput(db, env, release, mode);
    }
  }

  lemma ReadsDistinct(db: DB, env: int, release: int, mode: Mode, input: PlanInput)
    requires Reads(db, env, release, mode, input)
    ensures DistinctStates(input.states) && env in db.envs && release in db.releases
  {
  }

  lemma LoadsInput(db: DB, env: int, release: int, mode: Mode)
    requires Eligible(db, env, release)
    ensures var plan := BuildPlan(Loaded(db, env, release, mode));
            LoadPlan(db, env, release, mode) == if plan.Ok? then Ok(plan.value) else Err(Validation)
  {
    EligibleSpelled(db, env, release);
    hide BuildPlan, TargetsFor, ObservedIn;
  }

  /** What a loaded plan asks of a unit follows from the rows: each of its items is the entry of a unit, and its action
      is the remedy for what the environment's nodes are known to run. */
  lemma LoadedItem(db: DB, env: int, release: int, mode: Mode, input: PlanInput, x: Item)
    requires Reads(db, env, release, mode, input) && BuildPlan(input).Ok? && x in BuildPlan(input).value.items
    ensures x.unitId in db.releases[release].entries && x.unitId in db.units && x.unitKey == db.units[x.unitId].key
    ensures var e := db.releases[release].entries[x.unitId];
            && x.release == e.release && x.stage == e.stage && x.order == e.order && x.removal == e.removal
            && x.fingerprint == Fingerprint(e.fingerprint, db.revisions[db.releases[release].configs[env]].hash)
    ensures exists t :: FromEntry(db, env, release, t) && t.unitId == x.unitId
                        && x.action == Remedy(x.reason) && Applies(x.reason, input, t)
  {
    hide BuildPlan, Applies, Remedy;
    var t := UnitOfItem(input, x);
    ItemIsMeant(input, x, t);
    assert FromEntry(db, env, release, t);
  }
}

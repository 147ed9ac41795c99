/** What the executor writes back agrees with what the planner reads next: a deployment that succeeded leaves nothing
    to do, and a deployment that did not is retried with exactly what it left undone. */
module Convergence {
  import opened Options
  import opened Planning
  import opened Waves
  import opened Tables
  import opened Invariants
  import opened DeploySafety
  import R = Runs
  import S = RunSafety
  import Y = SystemSafety

  // ---------------------------------------------------------------- one unit

  lemma {:induction false} SameStates(u: int, nodes: seq<int>, a: StateIndex, b: StateIndex)
    requires forall n :: n in nodes ==> ((u, n) in a <==> (u, n) in b) && ((u, n) in a ==> a[(u, n)] == b[(u, n)])
    ensures StatesOf(u, nodes, a) == StatesOf(u, nodes, b)
  {
    if nodes != [] {
      var n: int := nodes[0];
      assert n in nodes && (u, n) == (u, nodes[0]);
      SameStates(u, nodes[1..], a, b);
    }
  }

  lemma {:induction false} FullStates(u: int, nodes: seq<int>, index: StateIndex)
    requires forall n :: n in nodes ==> (u, n) in index
    ensures |StatesOf(u, nodes, index)| == |nodes|
    ensures forall s :: s in StatesOf(u, nodes, index) ==> exists n :: n in nodes && s == index[(u, n)]
  {
    if nodes != [] {
      var n: int := nodes[0];
      assert n in nodes && (u, n) == (u, nodes[0]) && (u, n) in index;
      FullStates(u, nodes[1..], index);
      assert nodes == [nodes[0]] + nodes[1..];
    }
  }

  /** An active target has a release version: its release exists. */
  predicate GoodTarget(t: TargetUnit) {
    !t.desired.Unsupported? && (t.desired == Active ==> t.version.Some?)
  }

  /** A unit that was brought to its target on every node is skipped by the next normal plan. */
  lemma WrittenIsSkipped(mode: Mode, nodes: seq<int>, index: StateIndex, t: TargetUnit, x: Item, after: StateIndex,
                         artifacts: map<int, Artifact>, env: int)
    requires x == ItemFor(mode, nodes, index, t) && x.action != Skip
    requires GoodTarget(t)
    requires forall n :: n in nodes ==>
               (t.unitId, n) in after && after[(t.unitId, n)] == Observe(artifacts, Spot(env, t.unitId, n), Written(x))
    ensures ItemFor(Normal, nodes, after, t).action == Skip
  {
    hide StatesOf;
    FullStates(t.unitId, nodes, after);
    var states := StatesOf(t.unitId, nodes, after);
    StopsDisabled(mode, t, |nodes|, StatesOf(t.unitId, nodes, index));
    forall s | s in states ensures if t.desired == Disabled then s.status == Stopped else Matches(t, s) {
      var n :| n in nodes && s == after[(t.unitId, n)];
    }
  }

  lemma StopsDisabled(mode: Mode, t: TargetUnit, nodes: nat, states: seq<NodeState>)
    ensures Classify(mode, t, nodes, states).0 != Skip ==> (Classify(mode, t, nodes, states).0 == Stop <==> t.desired == Disabled)
    ensures Classify(mode, t, nodes, states).0 == Skip ==> Classify(Normal, t, nodes, states).0 == Skip
  {
  }

  // ---------------------------------------------------------------- one plan after another

  /** The states of a set, listed, are pairwise of different places if the set is. */
  lemma ListedDistinct(observed: StateIndex)
    requires KeyedStates(observed)
    ensures DistinctStates(Enumerate(StatesIn(observed)))
    ensures forall s :: s in Enumerate(StatesIn(observed)) <==> (s.unitId, s.nodeId) in observed && observed[(s.unitId, s.nodeId)] == s
  {
    var list := Enumerate(StatesIn(observed));
    EnumerateMembers(StatesIn(observed));
    forall s ensures s in list <==> (s.unitId, s.nodeId) in observed && observed[(s.unitId, s.nodeId)] == s {
      assert s in list <==> s in StatesIn(observed);
    }
    forall i, j | 0 <= i < j < |list| ensures (list[i].unitId, list[i].nodeId) != (list[j].unitId, list[j].nodeId) {
      ListedOnce(list, StatesIn(observed), i, j);
    }
  }

  lemma ListedOnce<T(!new)>(list: seq<T>, members: set<T>, i: nat, j: nat)
    requires multiset(list) == multiset(members) && i < j < |list|
    ensures list[i] != list[j]
  {
    var x, y := list[i], list[j];
    assert list == list[..i] + [x] + list[i + 1..j] + [y] + list[j + 1..];
    assert multiset(list)[x] >= multiset{x}[x] + multiset{y}[x];
    assert multiset(members)[x] <= 1;
  }

  lemma ListedStates(observed: StateIndex)
    requires KeyedStates(observed)
    ensures DistinctStates(Enumerate(StatesIn(observed)))
    ensures IndexStates(Enumerate(StatesIn(observed))) == observed
  {
    hide StatesIn, Enumerate, DistinctStates, IndexStates;
    var list := Enumerate(StatesIn(observed));
    ListedDistinct(observed);
    IndexFacts(list);
    var index := IndexStates(list);
    forall u: int, n: int ensures (u, n) in index <==> (u, n) in observed
                          ensures (u, n) in index ==> index[(u, n)] == observed[(u, n)] {
      if (u, n) in observed { assert observed[(u, n)] in list; }
    }
    assert index.Keys == observed.Keys;
  }

  /** Planning again with the same targets and nodes succeeds, whatever the states have become. */
  lemma PlansAgain(run: R.Run, mode: Mode, observed: StateIndex)
    requires Made(run) && KeyedStates(observed)
    ensures var p := run.plan;
            BuildPlan(InputOf(p.appId, p.environmentId, p.releaseId, p.configId, mode, NodeSet(p), run.targets, observed)).Ok?
  {
    var p := run.plan;
    var a := InputOf(p.appId, p.environmentId, p.releaseId, p.configId, p.mode, NodeSet(p), run.targets, run.observed);
    var b := InputOf(p.appId, p.environmentId, p.releaseId, p.configId, mode, NodeSet(p), run.targets, observed);
    hide BuildPlan, GoodUnits;
    BuildSucceeds(a);
    BuildSucceeds(b);
    ListedStates(observed);
  }

  /** The later run, in the words of the earlier one. */
  ghost predicate Replans(db: DB, run: R.Run, later: R.Run) {
    && Made(later) && later.plan.mode == Normal
    && later.plan.environmentId == run.plan.environmentId && later.targets == run.targets
    && NodeSet(later.plan) == NodeSet(run.plan)
    && later.observed == ObservedIn(db, run.plan.environmentId, NodeSet(run.plan))
  }

  lemma SameNodes(run: R.Run, later: R.Run)
    requires Made(run) && Made(later) && NodeSet(later.plan) == NodeSet(run.plan)
    ensures run.plan.nodes == later.plan.nodes
  {
    hide BuildPlan;
    var p, q := run.plan, later.plan;
    PlanItems(InputOf(p.appId, p.environmentId, p.releaseId, p.configId, p.mode, NodeSet(p), run.targets, run.observed));
    PlanItems(InputOf(q.appId, q.environmentId, q.releaseId, q.configId, q.mode, NodeSet(q), later.targets, later.observed));
    forall n ensures n in p.nodes <==> n in q.nodes {
      assert n in NodeSet(p) <==> n in NodeSet(q);
    }
    BeforeIsStrict();
    OneListing(NodeBefore, p.nodes, q.nodes);
  }

  lemma ItemThen(run: R.Run, x: Item)
    requires Made(run) && x in run.plan.items
    ensures x.unitId in run.targets && run.targets[x.unitId].unitId == x.unitId
    ensures x == ItemFor(run.plan.mode, run.plan.nodes, run.observed, run.targets[x.unitId])
  {
    ItemTargets(run, x);
    ListedStates(run.observed);
  }

  /** Actions of the later plan, unit by unit. */
  lemma ActionAgain(db: DB, run: R.Run, later: R.Run, x: Item, y: Item)
    requires Made(run) && Replans(db, run, later) && LeftBy(db.artifacts, db.states, run)
    requires x in run.plan.items && y in later.plan.items && x.unitId == y.unitId
    requires x.unitId in run.targets ==> GoodTarget(run.targets[x.unitId])
    requires R.StatusOf(run.rows, x.unitId) == R.Succeeded ==> x.action != Skip
    ensures R.StatusOf(run.rows, x.unitId) == R.Succeeded ==> y.action == Skip
    ensures R.StatusOf(run.rows, x.unitId) != R.Succeeded ==>
              (run.plan.mode == Normal ==> y.action == x.action) && (x.action == Skip ==> y.action == Skip)
  {
    var env, nodes := run.plan.environmentId, run.plan.nodes;
    SameNodes(run, later);
    ItemThen(run, x);
    ItemThen(later, y);
    var t := run.targets[x.unitId];
    hide Made, BuildPlan, R.StatusOf, Observe, ObservedIn, Classify;
    ObservedFacts(db, env, NodeSet(run.plan));
    forall n | n in nodes ensures n in NodeSet(run.plan) && LeftAt(db.artifacts, db.states, run, x, n) {
    }
    if R.StatusOf(run.rows, x.unitId) == R.Succeeded {
      WrittenIsSkipped(run.plan.mode, nodes, run.observed, t, x, later.observed, db.artifacts, env);
    } else {
      SameStates(x.unitId, nodes, run.observed, later.observed);
      StopsDisabled(run.plan.mode, t, |nodes|, StatesOf(x.unitId, nodes, run.observed));
    }
  }

  // ---------------------------------------------------------------- retrying

  lemma LastRunLeft(db: DB, env: int)
    requires Inv(db) && env in db.latest && db.latest[env] in db.flows
    ensures var run := db.flows[db.latest[env]].run;
            && run.plan.environmentId == env && LeftBy(db.artifacts, db.states, run)
            && Made(run) && Rooted(db, run.plan, run.targets) && S.FlowOk(db.flows[db.latest[env]])
  {
    hide Catalogued, Reachable, LeftBy, Made, Rooted, S.FlowOk, Locked, DeployedReady, CurrentReady;
    var r: int := db.latest[env];
    assert LastLeft(db.artifacts, db.states, db.flows, env, r);
  }

  lemma TargetsGood(db: DB, run: R.Run, u: int)
    requires Inv(db) && Rooted(db, run.plan, run.targets) && u in run.targets
    ensures GoodTarget(run.targets[u])
  {
    hide RunsOk, Reachable, WrittenBack, IdsFresh, UnitCodes, AppCodes;
    var x := db.releases[run.plan.releaseId];
    assert EntriesOk(db, x.app, x.entries);
    assert EntryOk(db, x.app, u, x.entries[u]);
  }

  ghost function LaterRun(db: DB, env: int, release: int, plan: Plan): R.Run {
    NewRun(db, env, release, plan).run
  }

  lemma LaterReplans(db: DB, env: int, run: R.Run, again: Plan)
    requires Rooted(db, run.plan, run.targets) && run.plan.environmentId == env && NodeSet(run.plan) == db.envs[env].nodes
    requires LoadPlan(db, env, run.plan.releaseId, Normal) == Ok(again)
    ensures Replans(db, run, LaterRun(db, env, run.plan.releaseId, again)) && LaterRun(db, env, run.plan.releaseId, again).plan == again
  {
    assert Planned(db, env, run.plan.releaseId, Normal, again);
    PlannedFacts(db, env, run.plan.releaseId, Normal, again);
    NewRunMade(db, env, run.plan.releaseId, Normal, again);
    hide LoadPlan, Made, TargetsOf, ObservedIn;
  }

  lemma RowsAndActions(f: R.Flow, x: Item)
    requires S.FlowOk(f) && x in f.run.plan.items
    ensures R.StatusOf(f.run.rows, x.unitId) == R.Succeeded ==> x.action != Skip
    ensures f.run.status == R.Success && R.StatusOf(f.run.rows, x.unitId) != R.Succeeded ==> x.action == Skip
  {
    hide S.Barrier, S.StartedFirst, Sound, ExecutionWaves, S.ReleasesOf;
  }

  function UnitIds(items: seq<Item>): set<int> { set x | x in items :: x.unitId }

  /** The units of the run, and what the next normal plan for the same release makes of them. */
  ghost predicate RetriesOnly(run: R.Run, again: Plan) {
    && UnitIds(again.items) == UnitIds(run.plan.items)
    && (forall x, y :: x in run.plan.items && y in again.items && x.unitId == y.unitId ==>
          y.action == if R.StatusOf(run.rows, x.unitId) == R.Succeeded then Skip else x.action)
  }

  /** A plan has an item for each of its targets, and for nothing else. */
  lemma UnitsPlanned(run: R.Run)
    requires Made(run)
    ensures UnitIds(run.plan.items) == run.targets.Keys
  {
    var p := run.plan;
    var input := InputOf(p.appId, p.environmentId, p.releaseId, p.configId, p.mode, NodeSet(p), run.targets, run.observed);
    hide BuildPlan, ItemFor, Made;
    EnumerateMembers(TargetsIn(run.targets));
    forall u | u in run.targets ensures u in UnitIds(p.items) {
      MadeUnit(run, u);
    }
    forall u | u in UnitIds(p.items) ensures u in run.targets {
      var x :| x in p.items && x.unitId == u;
      ItemTargets(run, x);
    }
  }

  lemma MadeUnit(run: R.Run, u: int)
    requires Made(run) && u in run.targets
    ensures u in UnitIds(run.plan.items)
  {
    var p := run.plan;
    var input := InputOf(p.appId, p.environmentId, p.releaseId, p.configId, p.mode, NodeSet(p), run.targets, run.observed);
    hide BuildPlan, ItemFor;
    EnumerateMembers(TargetsIn(run.targets));
    assert run.targets[u] in TargetsIn(run.targets);
    ItemOfUnit(input, run.targets[u]);
    ItemUnit(p.mode, p.nodes, IndexStates(input.states), run.targets[u]);
    assert ItemFor(p.mode, p.nodes, IndexStates(input.states), run.targets[u]) in p.items;
  }

  lemma ItemUnit(mode: Mode, nodes: seq<int>, index: StateIndex, t: TargetUnit)
    ensures ItemFor(mode, nodes, index, t).unitId == t.unitId
  {
  }

  lemma SameUnitsAgain(run: R.Run, later: R.Run)
    requires Made(run) && Made(later) && later.targets == run.targets
    ensures UnitIds(later.plan.items) == UnitIds(run.plan.items)
  {
    hide Made, UnitIds;
    UnitsPlanned(run);
    UnitsPlanned(later);
  }

  lemma PairAgain(db: DB, f: R.Flow, later: R.Run, x: Item, y: Item)
    requires Inv(db) && Made(f.run) && Rooted(db, f.run.plan, f.run.targets) && S.FlowOk(f)
    requires LeftBy(db.artifacts, db.states, f.run) && Replans(db, f.run, later)
    requires x in f.run.plan.items && y in later.plan.items && x.unitId == y.unitId
    ensures f.run.plan.mode == Normal ==> y.action == if R.StatusOf(f.run.rows, x.unitId) == R.Succeeded then Skip else x.action
    ensures f.run.status == R.Success ==> y.action == Skip
  {
    hide Made, LeftBy, S.FlowOk, Rooted, Inv, R.StatusOf, Replans;
    var run := f.run;
    if x.unitId in run.targets { TargetsGood(db, run, x.unitId); }
    RowsAndActions(f, x);
    ActionAgain(db, run, later, x, y);
  }

  lemma ActionsAgain(db: DB, f: R.Flow, later: R.Run)
    requires Inv(db) && Made(f.run) && Rooted(db, f.run.plan, f.run.targets) && S.FlowOk(f)
    requires LeftBy(db.artifacts, db.states, f.run) && Replans(db, f.run, later) && f.run.plan.mode == Normal
    ensures RetriesOnly(f.run, later.plan)
  {
    hide *;
    ReplansMade(db, f.run, later);
    SameUnitsAgain(f.run, later);
    forall x, y | x in f.run.plan.items && y in later.plan.items && x.unitId == y.unitId
      ensures y.action == if R.StatusOf(f.run.rows, x.unitId) == R.Succeeded then Skip else x.action
    {
      PairAgain(db, f, later, x, y);
    }
    Retries(f.run, later.plan);
  }

  lemma Retries(run: R.Run, again: Plan)
    requires UnitIds(again.items) == UnitIds(run.plan.items)
    requires forall x, y :: x in run.plan.items && y in again.items && x.unitId == y.unitId ==>
               y.action == if R.StatusOf(run.rows, x.unitId) == R.Succeeded then Skip else x.action
    ensures RetriesOnly(run, again)
  {
    hide R.StatusOf;
  }

  /** After a normal run, the rest is left to do. */
  lemma FailureRetries(db: DB, env: int, again: Plan)
    requires Inv(db) && env in db.latest && db.latest[env] in db.flows
    requires var run := db.flows[db.latest[env]].run;
             && run.plan.mode == Normal && env in db.envs && NodeSet(run.plan) == db.envs[env].nodes
             && LoadPlan(db, env, run.plan.releaseId, Normal) == Ok(again)
    ensures RetriesOnly(db.flows[db.latest[env]].run, again)
  {
    hide LoadPlan, Made, LeftBy, S.FlowOk, Rooted, Inv, NewRun, RetriesOnly;
    LastRunLeft(db, env);
    var f := db.flows[db.latest[env]];
    LaterReplans(db, env, f.run, again);
    ActionsAgain(db, f, LaterRun(db, env, f.run.plan.releaseId, again));
  }

  /** After a success in either mode nothing is left to do. */
  lemma SuccessSettles(db: DB, env: int)
    requires Inv(db) && env in db.latest && db.latest[env] in db.flows
    requires var run := db.flows[db.latest[env]].run;
             && run.status == R.Success && env in db.envs && NodeSet(run.plan) == db.envs[env].nodes
             && Deployable(db, env, run.plan.releaseId)
    ensures var next := LoadPlan(db, env, db.flows[db.latest[env]].run.plan.releaseId, Normal);
            next.Ok? && forall y :: y in next.value.items ==> y.action == Skip
  {
    LastRunLeft(db, env);
    var f := db.flows[db.latest[env]];
    var run := f.run;
    LoadsAgain(db, env, run);
    var again := LoadPlan(db, env, run.plan.releaseId, Normal).value;
    LaterReplans(db, env, run, again);
    var later := LaterRun(db, env, run.plan.releaseId, again);
    hide LoadPlan, Made, LeftBy, S.FlowOk, Rooted, Inv, R.StatusOf, NewRun, LaterRun, Deployable;
    assert Made(later) && later.targets == run.targets by { ReplansMade(db, run, later); }
    SameUnitsAgain(run, later);
    forall y | y in again.items ensures y.action == Skip {
      assert y.unitId in UnitIds(again.items);
      var x :| x in run.plan.items && x.unitId == y.unitId;
      PairAgain(db, f, later, x, y);
    }
  }

  lemma ReplansMade(db: DB, run: R.Run, later: R.Run)
    requires Replans(db, run, later)
    ensures Made(later) && later.targets == run.targets
  {
  }

  lemma LoadsAgain(db: DB, env: int, run: R.Run)
    requires Made(run) && Rooted(db, run.plan, run.targets) && run.plan.environmentId == env
    requires Deployable(db, env, run.plan.releaseId) && NodeSet(run.plan) == db.envs[env].nodes
    ensures LoadPlan(db, env, run.plan.releaseId, Normal).Ok?
  {
    hide BuildPlan, Made, InputOf, ObservedIn, TargetsOf;
    ObservedFacts(db, env, db.envs[env].nodes);
    PlansAgain(run, Normal, ObservedIn(db, env, db.envs[env].nodes));
  }

  // ---------------------------------------------------------------- after every history

  /** The last run created in an environment, its nodes being those of the run's plan still. */
  ghost predicate LastRun(db: DB, env: int, run: R.Run) {
    && env in db.latest && IsRun(db.flows, db.latest[env], run)
    && env in db.envs && db.envs[env].nodes == NodeSet(run.plan)
  }

  predicate IsRun(flows: map<int, R.Flow>, r: int, run: R.Run) { r in flows && flows[r].run == run }

  lemma ReachedInv(db: DB)
    requires Reached(db)
    ensures Inv(db)
  {
    hide Next, History, Inv;
    var es :| db == History(Fresh(), es);
    Y.Always(es);
  }

  lemma LastRunIs(db: DB, env: int, run: R.Run)
    requires LastRun(db, env, run)
    ensures env in db.latest && db.latest[env] in db.flows && db.flows[db.latest[env]].run == run
    ensures env in db.envs && db.envs[env].nodes == NodeSet(run.plan)
  {
    var r: int := db.latest[env];
    assert IsRun(db.flows, r, run);
  }

  /** After every history: if the last run of an environment, in either mode, ended in success, the next normal plan for
      its release and nodes can be made, and skips every unit. */
  lemma SuccessConverges(db: DB, env: int, run: R.Run)
    requires Reached(db) && LastRun(db, env, run) && run.status == R.Success && Deployable(db, env, run.plan.releaseId)
    ensures var next := LoadPlan(db, env, run.plan.releaseId, Normal);
            next.Ok? && forall y :: y in next.value.items ==> y.action == Skip
  {
    hide Inv, LoadPlan, Deployable, Reached;
    ReachedInv(db);
    LastRunIs(db, env, run);
    SuccessSettles(db, env);
  }

  /** After every history: whatever became of the last run of an environment, if it was a normal one, the next normal plan
      for its release and nodes has the same actions, except that exactly the units that succeeded are now skipped ... */
  lemma RetryMinimality(db: DB, env: int, run: R.Run, again: Plan)
    requires Reached(db) && LastRun(db, env, run) && run.plan.mode == Normal
    requires LoadPlan(db, env, run.plan.releaseId, Normal) == Ok(again)
    ensures forall x, y :: x in run.plan.items && y in again.items && x.unitId == y.unitId ==>
              y.action == if R.StatusOf(run.rows, x.unitId) == R.Succeeded then Skip else x.action
  {
    hide Inv, LoadPlan, Reached, LastRun, R.StatusOf;
    ReachedInv(db);
    LastRunIs(db, env, run);
    FailureRetries(db, env, again);
  }

  /** ... and it has the same units. */
  lemma RetryCoversUnits(db: DB, env: int, run: R.Run, again: Plan)
    requires Reached(db) && LastRun(db, env, run) && run.plan.mode == Normal
    requires LoadPlan(db, env, run.plan.releaseId, Normal) == Ok(again)
    ensures UnitIds(again.items) == UnitIds(run.plan.items)
  {
    hide Inv, LoadPlan, Reached, LastRun, R.StatusOf;
    ReachedInv(db);
    LastRunIs(db, env, run);
    FailureRetries(db, env, again);
  }
}

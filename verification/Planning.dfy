/** Deployment plans: which action each unit of a release needs, in which order, under which hash. */
module Planning {
  import opened Options

  datatype Mode = Normal | Force

  datatype Action = Deploy | Skip | Start | Stop | Upgrade | Downgrade | Restore | ApplicationCheck

  datatype Desired = Active | Disabled | Unsupported(name: string)

  datatype RuntimeStatus = Healthy | Stopped | Unhealthy | Deploying | Unknown

  /** Digests are identified with what they digest: hashing is taken to be injective. */
  datatype UnitFingerprint = UnitFingerprint(desired: Desired, checksum: string)

  datatype Fingerprint = NoFingerprint | Fingerprint(unit: UnitFingerprint, configHash: string)

  datatype TargetUnit = TargetUnit(unitId: int, unitKey: string, release: Option<int>, version: Option<string>,
                                   code: Option<int>, desired: Desired, stage: int, order: int, removal: int,
                                   fingerprint: Fingerprint)

  datatype NodeState = NodeState(unitId: int, nodeId: int, status: RuntimeStatus, release: Option<int>,
                                 code: Option<int>, fingerprint: Fingerprint, versionLabel: string)

  datatype PlanInput = PlanInput(appId: int, environmentId: int, releaseId: int, configId: int, mode: Mode,
                                 nodes: seq<int>, units: seq<TargetUnit>, states: seq<NodeState>)

  datatype Reason = AlreadyStopped | DisabledByRelease | Forced | NotDeployed | StatesMissing | Matching
                  | Untrusted | WasStopped | Higher | Lower | Different

  datatype Item = Item(unitId: int, unitKey: string, release: Option<int>, version: Option<string>,
                       stage: int, order: int, removal: int, action: Action, reason: Reason,
                       fingerprint: Fingerprint, previous: Fingerprint)

  /** What the plan hash digests; it stands for the hash. */
  datatype Document = Document(appId: int, environmentId: int, releaseId: int, configId: int, mode: Mode,
                               nodes: seq<int>, items: seq<Item>)

  datatype Plan = Plan(appId: int, environmentId: int, releaseId: int, configId: int, mode: Mode,
                       nodes: seq<int>, items: seq<Item>, hash: Document)

  datatype PlanError = NoNodes | NoUnits | DuplicateState | DuplicateUnit | UnsupportedStatus | MissingRelease

  type StateIndex = map<(int, int), NodeState>

  // ---------------------------------------------------------------- one unit

  /** The known states of the unit, node by node. */
  function StatesOf(unitId: int, nodes: seq<int>, index: StateIndex): seq<NodeState> {
    if nodes == [] then [] else
    (if (unitId, nodes[0]) in index then [index[(unitId, nodes[0])]] else []) + StatesOf(unitId, nodes[1..], index)
  }

  predicate Matches(t: TargetUnit, s: NodeState) {
    s.status == Healthy && s.release == t.release && s.fingerprint == t.fingerprint && Some(s.versionLabel) == t.version
  }

  function Classify(mode: Mode, t: TargetUnit, nodes: nat, states: seq<NodeState>): (Action, Reason) {
    if t.desired == Disabled then
      if (|states| == nodes && forall s :: s in states ==> s.status == Stopped) || states == []
      then (Skip, AlreadyStopped) else (Stop, DisabledByRelease)
    else if mode == Force then (Deploy, Forced)
    else if |states| != nodes then
      if states == [] then (Start, NotDeployed) else (Deploy, StatesMissing)
    else if forall s :: s in states ==> Matches(t, s) then (Skip, Matching)
    else if exists s :: s in states && s.status != Healthy && s.status != Stopped then (Deploy, Untrusted)
    else if forall s :: s in states ==> s.status == Stopped then (Restore, WasStopped)
    else if t.code.Some? && forall s :: s in states && s.code.Some? ==> s.code.value < t.code.value then
      (Upgrade, Higher)
    else if t.code.Some? && forall s :: s in states && s.code.Some? ==> s.code.value > t.code.value then
      (Downgrade, Lower)
    else (Deploy, Different)
  }

  function CommonPrevious(states: seq<NodeState>): Fingerprint {
    if states != [] && forall s :: s in states ==> s.fingerprint == states[0].fingerprint
    then states[0].fingerprint else NoFingerprint
  }

  function ItemFor(mode: Mode, nodes: seq<int>, index: StateIndex, t: TargetUnit): Item {
    var states := StatesOf(t.unitId, nodes, index);
    var (action, reason) := Classify(mode, t, |nodes|, states);
    Item(t.unitId, t.unitKey, t.release, t.version, t.stage, t.order, t.removal, action, reason,
         t.fingerprint, CommonPrevious(states))
  }

  // ---------------------------------------------------------------- order

  /** Stops come first, from the last stage back; everything else follows, from the first stage on. */
  predicate Before(a: Item, b: Item) {
    if a.action == Stop && b.action == Stop then
      a.stage > b.stage || (a.stage == b.stage &&
        (a.removal > b.removal || (a.removal == b.removal && a.unitId < b.unitId)))
    else if a.action == Stop || b.action == Stop then a.action == Stop
    else
      a.stage < b.stage || (a.stage == b.stage &&
        (a.order < b.order || (a.order == b.order && a.unitId < b.unitId)))
  }

  function InsertItem(x: Item, xs: seq<Item>): seq<Item> {
    if xs == [] || !Before(xs[0], x) then [x] + xs else [xs[0]] + InsertItem(x, xs[1..])
  }

  function SortItems(xs: seq<Item>): seq<Item> {
    if xs == [] then [] else InsertItem(xs[0], SortItems(xs[1..]))
  }

  function InsertNode(n: int, ns: seq<int>): seq<int> {
    if ns == [] || n < ns[0] then [n] + ns
    else if n == ns[0] then ns
    else [ns[0]] + InsertNode(n, ns[1..])
  }

  /** The node ids, ascending and without repetition. */
  function SortedNodes(ns: seq<int>): seq<int> {
    if ns == [] then [] else InsertNode(ns[0], SortedNodes(ns[1..]))
  }

  // ---------------------------------------------------------------- the plan

  predicate DistinctStates(states: seq<NodeState>) {
    forall i, j :: 0 <= i < j < |states| ==>
      (states[i].unitId, states[i].nodeId) != (states[j].unitId, states[j].nodeId)
  }

  function IndexStates(states: seq<NodeState>): StateIndex {
    if states == [] then map[] else
    var s := states[|states| - 1];
    IndexStates(states[..|states| - 1])[(s.unitId, s.nodeId) := s]
  }

  /** The first objection to the target units, taken in order. */
  function UnitError(units: seq<TargetUnit>, seen: set<int>): Option<PlanError> {
    if units == [] then None
    else if units[0].unitId in seen then Some(DuplicateUnit)
    else if units[0].desired.Unsupported? then Some(UnsupportedStatus)
    else if units[0].desired == Active && units[0].release == None then Some(MissingRelease)
    else UnitError(units[1..], seen + {units[0].unitId})
  }

  function Items(mode: Mode, nodes: seq<int>, index: StateIndex, units: seq<TargetUnit>): (items: seq<Item>)
    ensures |items| == |units|
    ensures forall i :: 0 <= i < |units| ==> items[i] == ItemFor(mode, nodes, index, units[i])
  {
    seq(|units|, i requires 0 <= i < |units| => ItemFor(mode, nodes, index, units[i]))
  }

  function MakePlan(input: PlanInput, nodes: seq<int>, items: seq<Item>): Plan {
    Plan(input.appId, input.environmentId, input.releaseId, input.configId, input.mode, nodes, items,
         Document(input.appId, input.environmentId, input.releaseId, input.configId, input.mode, nodes, items))
  }

  function BuildPlan(input: PlanInput): Result<Plan, PlanError> {
    if input.nodes == [] then Err(NoNodes)
    else if input.units == [] then Err(NoUnits)
    else if !DistinctStates(input.states) then Err(DuplicateState)
    else if UnitError(input.units, {}).Some? then Err(UnitError(input.units, {}).value)
    else
      var nodes := SortedNodes(input.nodes);
      Ok(MakePlan(input, nodes, SortItems(Items(input.mode, nodes, IndexStates(input.states), input.units))))
  }

  // ---------------------------------------------------------------- what sorting does

  predicate NodeBefore(a: int, b: int) { a < b }

  lemma {:induction false} InsertNodeKeeps(n: int, ns: seq<int>)
    requires Ascending(NodeBefore, ns)
    ensures Ascending(NodeBefore, InsertNode(n, ns))
    ensures forall x :: x in InsertNode(n, ns) <==> x == n || x in ns
  {
    if ns != [] && n > ns[0] {
      InsertNodeKeeps(n, ns[1..]);
      var rest := InsertNode(n, ns[1..]);
      assert forall j :: 0 <= j < |rest| ==> rest[j] in rest;
      assert ns == [ns[0]] + ns[1..];
    }
  }

  lemma {:induction false} SortedNodesKeeps(ns: seq<int>)
    ensures Ascending(NodeBefore, SortedNodes(ns))
    ensures forall x :: x in SortedNodes(ns) <==> x in ns
  {
    if ns != [] {
      SortedNodesKeeps(ns[1..]);
      InsertNodeKeeps(ns[0], SortedNodes(ns[1..]));
      assert ns == [ns[0]] + ns[1..];
    }
  }

  predicate DistinctIds(xs: seq<Item>) {
    forall i, j :: 0 <= i < j < |xs| ==> xs[i].unitId != xs[j].unitId
  }

  lemma BeforeOrders(a: Item, b: Item, c: Item)
    ensures Before(a, b) && Before(b, c) ==> Before(a, c)
    ensures a.unitId != b.unitId ==> Before(a, b) || Before(b, a)
  {
  }

  lemma {:induction false} InsertMembers(x: Item, xs: seq<Item>)
    ensures multiset(InsertItem(x, xs)) == multiset{x} + multiset(xs)
    ensures forall y :: y in InsertItem(x, xs) <==> y == x || y in xs
  {
    hide Before;
    if xs != [] {
      assert xs == [xs[0]] + xs[1..];
      InsertMembers(x, xs[1..]);
    }
  }

  lemma {:induction false} InsertItemKeeps(x: Item, xs: seq<Item>)
    requires Ascending(Before, xs)
    requires forall y :: y in xs ==> y.unitId != x.unitId
    ensures Ascending(Before, InsertItem(x, xs))
  {
    hide Before;
    if xs != [] {
      if Before(xs[0], x) {
        InsertItemKeeps(x, xs[1..]);
        InsertMembers(x, xs[1..]);
        var rest := InsertItem(x, xs[1..]);
        forall j | 0 <= j < |rest| ensures Before(xs[0], rest[j]) {
          assert rest[j] in rest;
        }
      } else {
        assert xs[0] in xs;
        BeforeOrders(x, xs[0], x);
        forall j | 0 <= j < |xs| ensures Before(x, xs[j]) {
          BeforeOrders(x, xs[0], xs[j]);
        }
      }
    }
  }

  lemma {:induction false} SortItemsKeeps(xs: seq<Item>)
    requires DistinctIds(xs)
    ensures Ascending(Before, SortItems(xs))
    ensures multiset(SortItems(xs)) == multiset(xs)
  {
    if xs != [] {
      SortItemsKeeps(xs[1..]);
      var sorted := SortItems(xs[1..]);
      forall y | y in sorted ensures y.unitId != xs[0].unitId {
        assert y in multiset(sorted);
        assert y in xs[1..];
      }
      InsertItemKeeps(xs[0], sorted);
      InsertMembers(xs[0], sorted);
      assert xs == [xs[0]] + xs[1..];
    }
  }

  lemma BeforeIsStrict()
    ensures StrictOrder(Before) && StrictOrder(NodeBefore)
  {
  }

  // ---------------------------------------------------------------- what errors mean

  predicate GoodUnit(t: TargetUnit) {
    !t.desired.Unsupported? && (t.desired == Active ==> t.release.Some?)
  }

  lemma {:induction false} NoUnitError(units: seq<TargetUnit>, seen: set<int>)
    ensures UnitError(units, seen) == None <==>
              && (forall i :: 0 <= i < |units| ==> GoodUnit(units[i]) && units[i].unitId !in seen)
              && (forall i, j :: 0 <= i < j < |units| ==> units[i].unitId != units[j].unitId)
    decreases |units|
  {
    if units != [] {
      var t, rest := units[0], units[1..];
      NoUnitError(rest, seen + {t.unitId});
      if UnitError(units, seen) == None {
        forall i | 0 <= i < |units| ensures GoodUnit(units[i]) && units[i].unitId !in seen {
          if i > 0 { assert units[i] == rest[i - 1]; }
        }
        forall i, j | 0 <= i < j < |units| ensures units[i].unitId != units[j].unitId {
          assert units[j] == rest[j - 1];
          if i > 0 { assert units[i] == rest[i - 1]; }
        }
      }
    }
  }

  /** The target units a plan can be made of: pairwise different, and each with what its status asks for. */
  predicate GoodUnits(units: seq<TargetUnit>) {
    && (forall i :: 0 <= i < |units| ==> GoodUnit(units[i]))
    && (forall i, j :: 0 <= i < j < |units| ==> units[i].unitId != units[j].unitId)
  }

  lemma BuildSucceeds(input: PlanInput)
    ensures BuildPlan(input).Ok? <==>
              input.nodes != [] && input.units != [] && DistinctStates(input.states) && GoodUnits(input.units)
  {
    NoUnitError(input.units, {});
  }

  /** A plan holds exactly one item per target unit, ascending, and the classification of that unit. */
  lemma PlanItems(input: PlanInput)
    requires BuildPlan(input).Ok?
    ensures var plan := BuildPlan(input).value;
            var items := Items(input.mode, plan.nodes, IndexStates(input.states), input.units);
            && Ascending(Before, plan.items) && multiset(plan.items) == multiset(items)
            && |plan.items| == |input.units| && DistinctIds(items)
            && Ascending(NodeBefore, plan.nodes) && (forall n :: n in plan.nodes <==> n in input.nodes)
  {
    BuildSucceeds(input);
    SortedNodesKeeps(input.nodes);
    var items := Items(input.mode, SortedNodes(input.nodes), IndexStates(input.states), input.units);
    SortItemsKeeps(items);
    assert |multiset(items)| == |items|;
    assert |multiset(SortItems(items))| == |SortItems(items)|;
  }

  lemma ItemOfUnit(input: PlanInput, t: TargetUnit)
    requires BuildPlan(input).Ok? && t in input.units
    ensures var plan := BuildPlan(input).value;
            ItemFor(input.mode, plan.nodes, IndexStates(input.states), t) in plan.items
  {
    PlanItems(input);
    var plan := BuildPlan(input).value;
    var items := Items(input.mode, plan.nodes, IndexStates(input.states), input.units);
    var i :| 0 <= i < |input.units| && input.units[i] == t;
    assert items[i] in multiset(items);
    assert items[i] in multiset(plan.items);
  }

  lemma UnitOfItem(input: PlanInput, x: Item) returns (t: TargetUnit)
    requires BuildPlan(input).Ok? && x in BuildPlan(input).value.items
    ensures t in input.units && t.unitId == x.unitId
    ensures x == ItemFor(input.mode, BuildPlan(input).value.nodes, IndexStates(input.states), t)
  {
    PlanItems(input);
    var plan := BuildPlan(input).value;
    var items := Items(input.mode, plan.nodes, IndexStates(input.states), input.units);
    assert x in multiset(plan.items);
    assert x in multiset(items);
    var i :| 0 <= i < |items| && items[i] == x;
    t := input.units[i];
  }

  // ---------------------------------------------------------------- canonicality

  ghost predicate SameInput(a: PlanInput, b: PlanInput) {
    && a.(nodes := b.nodes, units := b.units, states := b.states) == b
    && (forall n :: n in a.nodes <==> n in b.nodes)
    && multiset(a.units) == multiset(b.units)
    && multiset(a.states) == multiset(b.states)
  }

  lemma {:induction false} IndexFacts(states: seq<NodeState>)
    requires DistinctStates(states)
    ensures forall s :: s in states ==>
              (s.unitId, s.nodeId) in IndexStates(states) && IndexStates(states)[(s.unitId, s.nodeId)] == s
    ensures forall k :: k in IndexStates(states) ==>
              var s := IndexStates(states)[k]; s in states && k == (s.unitId, s.nodeId)
  {
    if states != [] {
      var before, last := states[..|states| - 1], states[|states| - 1];
      IndexFacts(before);
      assert states == before + [last];
    }
  }

  lemma SameIndex(a: seq<NodeState>, b: seq<NodeState>)
    requires DistinctStates(a) && DistinctStates(b) && multiset(a) == multiset(b)
    ensures IndexStates(a) == IndexStates(b)
  {
    IndexFacts(a);
    IndexFacts(b);
    var x, y := IndexStates(a), IndexStates(b);
    forall k ensures k in x <==> k in y {
      if k in x { assert x[k] in multiset(a); assert x[k] in b; }
      if k in y { assert y[k] in multiset(b); assert y[k] in a; }
    }
    forall k | k in x ensures x[k] == y[k] {
      assert x[k] in multiset(a);
      assert x[k] in b;
    }
  }

  /** Two listings of the same elements are both free of clashes, or neither is. */
  lemma SameClashes<T(!new)>(clash: (T, T) -> bool, a: seq<T>, b: seq<T>)
    requires multiset(a) == multiset(b)
    requires forall x, y :: clash(x, y) ==> clash(y, x)
    requires forall i, j :: 0 <= i < j < |a| ==> !clash(a[i], a[j])
    ensures forall i, j :: 0 <= i < j < |b| ==> !clash(b[i], b[j])
  {
    forall i, j | 0 <= i < j < |b| ensures !clash(b[i], b[j]) {
      var x, y := b[i], b[j];
      assert b == b[..i] + [x] + b[i + 1..j] + [y] + b[j + 1..];
      assert multiset{x, y} <= multiset(b);
      if x == y {
        Twice(a, x);
      } else {
        assert x in multiset(a) && y in multiset(a);
        var k :| 0 <= k < |a| && a[k] == x;
        var l :| 0 <= l < |a| && a[l] == y;
        assert k < l || l < k;
      }
    }
  }

  lemma {:induction false} Twice<T>(a: seq<T>, x: T)
    requires multiset{x, x} <= multiset(a)
    ensures exists i, j :: 0 <= i < j < |a| && a[i] == x && a[j] == x
  {
    if a != [] {
      assert a == [a[0]] + a[1..];
      if a[0] == x {
        assert x in multiset(a[1..]);
        var j :| 0 <= j < |a[1..]| && a[1..][j] == x;
        assert a[0] == x && a[j + 1] == x;
      } else {
        Twice(a[1..], x);
        var i, j :| 0 <= i < j < |a[1..]| && a[1..][i] == x && a[1..][j] == x;
        assert a[i + 1] == x && a[j + 1] == x;
      }
    }
  }

  lemma SameGoodUnits(a: seq<TargetUnit>, b: seq<TargetUnit>)
    requires multiset(a) == multiset(b) && GoodUnits(a)
    ensures GoodUnits(b)
  {
    SameClashes((x: TargetUnit, y: TargetUnit) => x.unitId == y.unitId, a, b);
    forall i | 0 <= i < |b| ensures GoodUnit(b[i]) {
      assert b[i] in multiset(b);
      assert b[i] in a;
    }
  }

  lemma SameDistinctStates(a: seq<NodeState>, b: seq<NodeState>)
    requires multiset(a) == multiset(b) && DistinctStates(a)
    ensures DistinctStates(b)
  {
    SameClashes((x: NodeState, y: NodeState) => (x.unitId, x.nodeId) == (y.unitId, y.nodeId), a, b);
  }

  lemma SameEmptiness(a: seq<int>, b: seq<int>)
    requires forall n :: n in a <==> n in b
    ensures a == [] <==> b == []
  {
    if a != [] {
      var n := a[0];
      assert n in a;
    }
    if b != [] {
      var n := b[0];
      assert n in b;
    }
  }

  lemma SameSuccess(a: PlanInput, b: PlanInput)
    requires SameInput(a, b) && BuildPlan(a).Ok?
    ensures BuildPlan(b).Ok?
  {
    BuildSucceeds(a);
    BuildSucceeds(b);
    SameGoodUnits(a.units, b.units);
    SameDistinctStates(a.states, b.states);
    SameEmptiness(a.nodes, b.nodes);
    assert |multiset(a.units)| == |a.units| && |multiset(b.units)| == |b.units|;
  }

  /** A plan does not depend on the order in which units and states are listed, nor on the order or repetition of the
      node ids: neither does its hash. */
  lemma PlanIsCanonical(a: PlanInput, b: PlanInput)
    requires SameInput(a, b)
    ensures BuildPlan(a).Ok? <==> BuildPlan(b).Ok?
    ensures BuildPlan(a).Ok? ==> BuildPlan(a) == BuildPlan(b)
  {
    if BuildPlan(b).Ok? {
      SameSuccess(b, a);
    }
    if BuildPlan(a).Ok? {
      SameSuccess(a, b);
      BuildSucceeds(a);
      BuildSucceeds(b);
      PlanItems(a);
      PlanItems(b);
      var p, q := BuildPlan(a).value, BuildPlan(b).value;
      BeforeIsStrict();
      OneListing(NodeBefore, p.nodes, q.nodes);
      SameIndex(a.states, b.states);
      forall x ensures x in p.items <==> x in q.items {
        if x in p.items {
          var t := UnitOfItem(a, x);
          assert t in multiset(a.units);
          assert t in b.units;
          ItemOfUnit(b, t);
        }
        if x in q.items {
          var t := UnitOfItem(b, x);
          assert t in multiset(b.units);
          assert t in a.units;
          ItemOfUnit(a, t);
        }
      }
      OneListing(Before, p.items, q.items);
    }
  }

  // ---------------------------------------------------------------- the planner as it runs

  lemma DistinctNext(states: seq<NodeState>, k: nat)
    requires k < |states| && DistinctStates(states[..k])
    ensures var place := (states[k].unitId, states[k].nodeId);
            && (place in IndexStates(states[..k]) ==> !DistinctStates(states))
            && (place !in IndexStates(states[..k]) ==> DistinctStates(states[..k + 1]))
  {
    var before, s := states[..k], states[k];
    IndexFacts(before);
    if (s.unitId, s.nodeId) in IndexStates(before) {
      var i :| 0 <= i < k && before[i] == IndexStates(before)[(s.unitId, s.nodeId)];
      assert states[i] == before[i];
    } else {
      forall i | 0 <= i < k ensures (states[i].unitId, states[i].nodeId) != (s.unitId, s.nodeId) {
        assert before[i] in before;
      }
    }
  }

  /** Files the states by unit and node; a second state for the same place is refused. */
  method CollectStates(states: seq<NodeState>) returns (r: Option<StateIndex>)
    ensures r.Some? <==> DistinctStates(states)
    ensures r.Some? ==> r.value == IndexStates(states)
  {
    var current: StateIndex := map[];
    var k := 0;
    while k < |states|
      invariant k <= |states|
      invariant DistinctStates(states[..k]) && current == IndexStates(states[..k])
    {
      var s := states[k];
      IndexFacts(states[..k]);
      DistinctNext(states, k);
      if (s.unitId, s.nodeId) in current {
        return None;
      }
      assert states[..k + 1][..k] == states[..k];
      current := current[(s.unitId, s.nodeId) := s];
      k := k + 1;
    }
    assert states[..k] == states;
    r := Some(current);
  }

  method CollectItems(mode: Mode, nodes: seq<int>, current: StateIndex, units: seq<TargetUnit>)
    returns (r: Result<seq<Item>, PlanError>)
    ensures r == if UnitError(units, {}).Some? then Err(UnitError(units, {}).value)
                 else Ok(Items(mode, nodes, current, units))
  {
    hide ItemFor;
    var seen: set<int> := {};
    var items: seq<Item> := [];
    var k := 0;
    assert units[0..] == units;
    while k < |units|
      invariant k <= |units|
      invariant UnitError(units, {}) == UnitError(units[k..], seen)
      invariant |items| == k
      invariant forall i :: 0 <= i < k ==> items[i] == ItemFor(mode, nodes, current, units[i])
    {
      var t := units[k];
      assert units[k..][0] == t && units[k..][1..] == units[k + 1..];
      if t.unitId in seen {
        return Err(DuplicateUnit);
      }
      seen := seen + {t.unitId};
      if t.desired.Unsupported? {
        return Err(UnsupportedStatus);
      }
      if t.desired == Active && t.release == None {
        return Err(MissingRelease);
      }
      items := items + [ItemFor(mode, nodes, current, t)];
      k := k + 1;
    }
    assert units[k..] == [];
    assert items == Items(mode, nodes, current, units);
    r := Ok(items);
  }

  method BuildDeploymentPlan(input: PlanInput) returns (r: Result<Plan, PlanError>)
    ensures r == BuildPlan(input)
  {
    if input.nodes == [] {
      return Err(NoNodes);
    }
    var nodes := SortedNodes(input.nodes);
    if input.units == [] {
      return Err(NoUnits);
    }
    var current := CollectStates(input.states);
    if current == None {
      return Err(DuplicateState);
    }
    var items := CollectItems(input.mode, nodes, current.value, input.units);
    if items.Err? {
      return Err(items.error);
    }
    r := Ok(MakePlan(input, nodes, SortItems(items.value)));
  }
}

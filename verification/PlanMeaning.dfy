/** What a plan asks for, in terms of the target units and the states it was made from. */
module PlanMeaning {
  import opened Options
  import opened Planning

  predicate AllStopped(states: seq<NodeState>) { forall s :: s in states ==> s.status == Stopped }

  /** Every known node runs the target, healthy: its release, its fingerprint and its version. */
  predicate AllMatch(t: TargetUnit, states: seq<NodeState>) {
    forall s :: s in states ==>
      && s.status == Healthy && s.release == t.release && s.fingerprint == t.fingerprint
      && t.version.Some? && s.versionLabel == t.version.value
  }

  predicate Trusted(states: seq<NodeState>) { forall s :: s in states ==> s.status == Healthy || s.status == Stopped }

  predicate AllBelow(t: TargetUnit, states: seq<NodeState>) {
    t.code.Some? && forall s :: s in states && s.code.Some? ==> s.code.value < t.code.value
  }

  predicate AllAbove(t: TargetUnit, states: seq<NodeState>) {
    t.code.Some? && forall s :: s in states && s.code.Some? ==> s.code.value > t.code.value
  }

  /** A running unit on known, trusted nodes that is not what it should be. */
  predicate Differs(t: TargetUnit, nodes: nat, states: seq<NodeState>) {
    |states| == nodes && Trusted(states) && !AllStopped(states) && !AllMatch(t, states)
  }

  /** Each action, by a condition that does not depend on the others. */
  predicate Called(a: Action, mode: Mode, t: TargetUnit, nodes: nat, states: seq<NodeState>) {
    var off, normal, full := t.desired == Disabled, mode == Normal, |states| == nodes;
    match a
    case Skip => if off then states == [] || (full && AllStopped(states)) else normal && full && AllMatch(t, states)
    case Stop => off && states != [] && !(full && AllStopped(states))
    case Start => !off && normal && !full && states == []
    case Restore => !off && normal && full && states != [] && AllStopped(states)
    case Upgrade => !off && normal && Differs(t, nodes, states) && AllBelow(t, states)
    case Downgrade => !off && normal && Differs(t, nodes, states) && AllAbove(t, states) && !AllBelow(t, states)
    case Deploy => !off && (!normal || (!full && states != []) || (full && !Trusted(states))
                            || (Differs(t, nodes, states) && !AllBelow(t, states) && !AllAbove(t, states)))
    case ApplicationCheck => false
  }

  lemma StoppedDoesNotMatch(t: TargetUnit, states: seq<NodeState>)
    requires states != []
    ensures AllStopped(states) ==> Trusted(states) && !AllMatch(t, states)
    ensures AllMatch(t, states) ==> Trusted(states) && !AllStopped(states)
  {
    assert states[0] in states;
  }

  /** The planner's cascade of tests decides every action by its own condition, and for every unit exactly one holds. */
  lemma ActionDecided(a: Action, mode: Mode, t: TargetUnit, nodes: nat, states: seq<NodeState>)
    requires nodes > 0
    ensures Classify(mode, t, nodes, states).0 == a <==> Called(a, mode, t, nodes, states)
  {
    if states != [] { StoppedDoesNotMatch(t, states); }
  }

  /** An upgrade leaves no known version above or at the target; a downgrade leaves one, and it is above. */
  lemma DirectionIsMeant(mode: Mode, t: TargetUnit, nodes: nat, states: seq<NodeState>)
    requires nodes > 0
    ensures Classify(mode, t, nodes, states).0 == Upgrade ==> forall s :: s in states && s.code.Some? ==> s.code.value < t.code.value
    ensures Classify(mode, t, nodes, states).0 == Downgrade ==>
              (exists s :: s in states && s.code.Some?) && forall s :: s in states && s.code.Some? ==> s.code.value > t.code.value
  {
    ActionDecided(Upgrade, mode, t, nodes, states);
    ActionDecided(Downgrade, mode, t, nodes, states);
    hide Classify, Differs;
    if Called(Downgrade, mode, t, nodes, states) {
      var s :| s in states && s.code.Some? && !(s.code.value < t.code.value);
    }
  }

  /** The previous fingerprint is the one all known nodes share; without one there is none. */
  lemma PreviousShared(states: seq<NodeState>, f: Fingerprint)
    requires f != NoFingerprint
    ensures CommonPrevious(states) == f <==> states != [] && forall s :: s in states ==> s.fingerprint == f
  {
    if states != [] { assert states[0] in states; }
  }

  /** In a plan, stops come first, later stages before earlier ones and then by falling removal order; the others
      follow, earlier stages first and then by rising unit order; ties are broken by the unit. All of it as the target
      units say. */
  lemma PlanOrder(input: PlanInput, i: nat, j: nat, t: TargetUnit, u: TargetUnit)
    requires BuildPlan(input).Ok? && i < j < |BuildPlan(input).value.items|
    requires t in input.units && u in input.units
    requires var items := BuildPlan(input).value.items; t.unitId == items[i].unitId && u.unitId == items[j].unitId
    ensures var items := BuildPlan(input).value.items; var x, y := items[i], items[j];
            && (y.action == Stop ==> x.action == Stop)
            && (y.action == Stop ==>
                  t.stage > u.stage || (t.stage == u.stage &&
                    (t.removal > u.removal || (t.removal == u.removal && t.unitId < u.unitId))))
            && (x.action != Stop ==>
                  t.stage < u.stage || (t.stage == u.stage &&
                    (t.order < u.order || (t.order == u.order && t.unitId < u.unitId))))
  {
    var items := BuildPlan(input).value.items;
    PlanItems(input);
    assert Before(items[i], items[j]);
    ItemIsOf(input, items[i], t);
    ItemIsOf(input, items[j], u);
    hide BuildPlan;
  }

  lemma ItemIsOf(input: PlanInput, x: Item, t: TargetUnit)
    requires BuildPlan(input).Ok? && x in BuildPlan(input).value.items && t in input.units && t.unitId == x.unitId
    ensures x.stage == t.stage && x.order == t.order && x.removal == t.removal
    ensures x.release == t.release && x.version == t.version && x.unitKey == t.unitKey && x.fingerprint == t.fingerprint
  {
    var s := UnitOfItem(input, x);
    OneTarget(input, s, t);
    hide BuildPlan, StatesOf, Classify, CommonPrevious;
  }

  // ---------------------------------------------------------------- the items of a whole plan

  /** The states that count for a target: those given of its unit on a node the plan is for. */
  predicate About(input: PlanInput, t: TargetUnit, s: NodeState) {
    s in input.states && s.unitId == t.unitId && s.nodeId in input.nodes
  }

  ghost predicate KnownOn(input: PlanInput, t: TargetUnit, n: int) { exists s :: About(input, t, s) && s.nodeId == n }

  ghost predicate KnownEverywhere(input: PlanInput, t: TargetUnit) {
    forall n :: n in input.nodes ==> KnownOn(input, t, n)
  }

  ghost predicate KnownNowhere(input: PlanInput, t: TargetUnit) { forall s :: !About(input, t, s) }

  ghost predicate NoneRuns(input: PlanInput, t: TargetUnit) { forall s :: About(input, t, s) ==> s.status == Stopped }

  /** Every known node runs the target, healthy: its release, its fingerprint and its version. */
  ghost predicate RunsTarget(input: PlanInput, t: TargetUnit) {
    forall s :: About(input, t, s) ==>
      && s.status == Healthy && s.release == t.release && s.fingerprint == t.fingerprint
      && t.version.Some? && s.versionLabel == t.version.value
  }

  ghost predicate Reliable(input: PlanInput, t: TargetUnit) {
    forall s :: About(input, t, s) ==> s.status == Healthy || s.status == Stopped
  }

  ghost predicate Raises(input: PlanInput, t: TargetUnit) {
    t.code.Some? && forall s :: About(input, t, s) && s.code.Some? ==> s.code.value < t.code.value
  }

  ghost predicate Lowers(input: PlanInput, t: TargetUnit) {
    t.code.Some? && forall s :: About(input, t, s) && s.code.Some? ==> s.code.value > t.code.value
  }

  /** An active unit whose nodes are all known and reliable, some at work, and are not what they should be. */
  ghost predicate Outdated(input: PlanInput, t: TargetUnit) {
    KnownEverywhere(input, t) && Reliable(input, t) && !NoneRuns(input, t) && !RunsTarget(input, t)
  }

  ghost predicate AllCarry(f: Fingerprint, input: PlanInput, t: TargetUnit) {
    !KnownNowhere(input, t) && forall s :: About(input, t, s) ==> s.fingerprint == f
  }

  /** When each reason applies, in terms of the mode, the target and the states given. */
  ghost predicate Applies(r: Reason, input: PlanInput, t: TargetUnit) {
    var on, normal := t.desired != Disabled, input.mode == Normal;
    match r
    case AlreadyStopped => !on && (KnownNowhere(input, t) || (KnownEverywhere(input, t) && NoneRuns(input, t)))
    case DisabledByRelease => !on && !KnownNowhere(input, t) && !(KnownEverywhere(input, t) && NoneRuns(input, t))
    case Forced => on && input.mode == Force
    case NotDeployed => on && normal && KnownNowhere(input, t)
    case StatesMissing => on && normal && !KnownNowhere(input, t) && !KnownEverywhere(input, t)
    case Matching => on && normal && KnownEverywhere(input, t) && RunsTarget(input, t)
    case Untrusted => on && normal && KnownEverywhere(input, t) && !Reliable(input, t)
    case WasStopped => on && normal && KnownEverywhere(input, t) && NoneRuns(input, t)
    case Higher => on && normal && Outdated(input, t) && Raises(input, t)
    case Lower => on && normal && Outdated(input, t) && Lowers(input, t) && !Raises(input, t)
    case Different => on && normal && Outdated(input, t) && !Raises(input, t) && !Lowers(input, t)
  }

  /** What is done for it. */
  function Remedy(r: Reason): Action {
    match r
    case AlreadyStopped => Skip
    case Matching => Skip
    case DisabledByRelease => Stop
    case NotDeployed => Start
    case WasStopped => Restore
    case Higher => Upgrade
    case Lower => Downgrade
    case Forced => Deploy
    case StatesMissing => Deploy
    case Untrusted => Deploy
    case Different => Deploy
  }

  lemma {:induction false} StatesOfUnit(u: int, nodes: seq<int>, index: StateIndex)
    ensures forall s :: s in StatesOf(u, nodes, index) <==> exists n :: n in nodes && (u, n) in index && index[(u, n)] == s
    ensures |StatesOf(u, nodes, index)| <= |nodes|
    ensures |StatesOf(u, nodes, index)| == |nodes| <==> forall n :: n in nodes ==> (u, n) in index
  {
    if nodes != [] {
      StatesOfUnit(u, nodes[1..], index);
      assert nodes == [nodes[0]] + nodes[1..];
      var n: int := nodes[0];
      assert (u, n) == (u, nodes[0]);
    }
  }

  /** The known states of a unit are exactly the states given of it on the plan's nodes, one for each node that has
      one. */
  lemma KnownStates(input: PlanInput, t: TargetUnit)
    requires BuildPlan(input).Ok?
    ensures var nodes := BuildPlan(input).value.nodes; var known := StatesOf(t.unitId, nodes, IndexStates(input.states));
            && (forall s :: s in known <==> About(input, t, s))
            && (known == [] <==> KnownNowhere(input, t))
            && (|known| == |nodes| <==> KnownEverywhere(input, t))
  {
    BuildSucceeds(input);
    PlanItems(input);
    var nodes, index := BuildPlan(input).value.nodes, IndexStates(input.states);
    hide BuildPlan, IndexStates, StatesOf, Items;
    IndexFacts(input.states);
    StatesOfUnit(t.unitId, nodes, index);
    var known := StatesOf(t.unitId, nodes, index);
    forall s ensures s in known <==> About(input, t, s) {
      if About(input, t, s) {
        var n: int := s.nodeId;
        assert n in nodes && (t.unitId, n) == (s.unitId, s.nodeId) && index[(t.unitId, n)] == s;
      }
    }
    if known != [] { assert known[0] in known; }
    forall n: int | n in nodes ensures (t.unitId, n) in index <==> KnownOn(input, t, n) {
      if (t.unitId, n) in index { assert About(input, t, index[(t.unitId, n)]); }
    }
  }

  /** The tests on the known states, one by one. */
  lemma TestsMean(input: PlanInput, t: TargetUnit)
    requires BuildPlan(input).Ok?
    ensures var known := StatesOf(t.unitId, BuildPlan(input).value.nodes, IndexStates(input.states));
            && (NoneRuns(input, t) <==> AllStopped(known)) && (RunsTarget(input, t) <==> AllMatch(t, known))
            && (Reliable(input, t) <==> Trusted(known))
            && (Raises(input, t) <==> AllBelow(t, known)) && (Lowers(input, t) <==> AllAbove(t, known))
  {
    KnownStates(input, t);
    hide BuildPlan, StatesOf, IndexStates, About, KnownEverywhere, KnownNowhere;
  }

  lemma Cascade(mode: Mode, t: TargetUnit, nodes: nat, states: seq<NodeState>)
    ensures Classify(mode, t, nodes, states) ==
              if t.desired == Disabled then
                if (|states| == nodes && AllStopped(states)) || states == [] then (Skip, AlreadyStopped)
                else (Stop, DisabledByRelease)
              else if mode == Force then (Deploy, Forced)
              else if |states| != nodes then if states == [] then (Start, NotDeployed) else (Deploy, StatesMissing)
              else if AllMatch(t, states) then (Skip, Matching)
              else if !Trusted(states) then (Deploy, Untrusted)
              else if AllStopped(states) then (Restore, WasStopped)
              else if AllBelow(t, states) then (Upgrade, Higher)
              else if AllAbove(t, states) then (Downgrade, Lower)
              else (Deploy, Different)
  {
  }

  lemma ReasonApplies(input: PlanInput, t: TargetUnit, r: Reason)
    requires BuildPlan(input).Ok?
    ensures var plan := BuildPlan(input).value;
            var c := Classify(input.mode, t, |plan.nodes|, StatesOf(t.unitId, plan.nodes, IndexStates(input.states)));
            (c.1 == r <==> Applies(r, input, t)) && c.0 == Remedy(c.1)
  {
    SomeNode(input);
    var nodes := BuildPlan(input).value.nodes;
    var known := StatesOf(t.unitId, nodes, IndexStates(input.states));
    if known != [] { StoppedDoesNotMatch(t, known); }
    KnownStates(input, t);
    TestsMean(input, t);
    hide *;
    FirstTest(input, t, |nodes|, known, r);
  }

  lemma FirstTest(input: PlanInput, t: TargetUnit, nodes: nat, known: seq<NodeState>, r: Reason)
    requires nodes > 0 && (known == [] <==> KnownNowhere(input, t)) && (|known| == nodes <==> KnownEverywhere(input, t))
    requires NoneRuns(input, t) <==> AllStopped(known)
    requires RunsTarget(input, t) <==> AllMatch(t, known)
    requires Reliable(input, t) <==> Trusted(known)
    requires Raises(input, t) <==> AllBelow(t, known)
    requires Lowers(input, t) <==> AllAbove(t, known)
    requires known != [] ==> (AllStopped(known) ==> Trusted(known) && !AllMatch(t, known)) && (AllMatch(t, known) ==> Trusted(known))
    ensures var c := Classify(input.mode, t, nodes, known); (c.1 == r <==> Applies(r, input, t)) && c.0 == Remedy(c.1)
  {
    Cascade(input.mode, t, nodes, known);
    hide Classify, About, KnownEverywhere, KnownNowhere, NoneRuns, RunsTarget, Reliable, Raises, Lowers, AllStopped,
         AllMatch, Trusted, AllBelow, AllAbove;
  }

  lemma SomeNode(input: PlanInput)
    requires BuildPlan(input).Ok?
    ensures BuildPlan(input).value.nodes != []
  {
    PlanItems(input);
    assert input.nodes[0] in input.nodes;
  }

  /** Every item of a plan, spelled out: it carries the fields of the target of its unit; its reason is the one that
      applies to that target, under the mode of the plan and the states given, and its action is the remedy; and its
      previous fingerprint is the one that all states of the unit on the plan's nodes share. */
  lemma ItemIsMeant(input: PlanInput, x: Item, t: TargetUnit)
    requires BuildPlan(input).Ok? && x in BuildPlan(input).value.items && t in input.units && t.unitId == x.unitId
    ensures x.unitKey == t.unitKey && x.release == t.release && x.version == t.version && x.fingerprint == t.fingerprint
    ensures x.stage == t.stage && x.order == t.order && x.removal == t.removal
    ensures x.action == Remedy(x.reason) && forall r :: x.reason == r <==> Applies(r, input, t)
    ensures forall f :: f != NoFingerprint ==> (x.previous == f <==> AllCarry(f, input, t))
  {
    ItemIsOf(input, x, t);
    var s := UnitOfItem(input, x);
    OneTarget(input, s, t);
    KnownStates(input, t);
    var known := StatesOf(t.unitId, BuildPlan(input).value.nodes, IndexStates(input.states));
    hide BuildPlan, StatesOf, IndexStates, Classify, CommonPrevious, Applies, About, KnownEverywhere, KnownNowhere;
    forall r ensures x.reason == r <==> Applies(r, input, t) {
      ReasonApplies(input, t, r);
    }
    ReasonApplies(input, t, x.reason);
    forall f | f != NoFingerprint ensures x.previous == f <==> AllCarry(f, input, t) {
      PreviousShared(known, f);
    }
  }

  lemma OneTarget(input: PlanInput, s: TargetUnit, t: TargetUnit)
    requires BuildPlan(input).Ok? && s in input.units && t in input.units && s.unitId == t.unitId
    ensures s == t
  {
    BuildSucceeds(input);
    hide BuildPlan;
    var i :| 0 <= i < |input.units| && input.units[i] == s;
    var j :| 0 <= j < |input.units| && input.units[j] == t;
    assert i == j;
  }

  /** The rest of a plan: what it is for, its nodes without repetition in rising order, one item for each target and no
      other, and a hash that two plans share only when they agree on all of it. */
  lemma PlanIsMeant(input: PlanInput)
    requires BuildPlan(input).Ok?
    ensures var p := BuildPlan(input).value;
            && p.appId == input.appId && p.environmentId == input.environmentId && p.releaseId == input.releaseId
            && p.configId == input.configId && p.mode == input.mode
            && (forall i, j :: 0 <= i < j < |p.nodes| ==> p.nodes[i] < p.nodes[j])
            && (forall n :: n in p.nodes <==> n in input.nodes)
            && |p.items| == |input.units|
            && (forall i, j :: 0 <= i < j < |p.items| ==> p.items[i].unitId != p.items[j].unitId)
            && (forall x :: x in p.items ==> exists t :: t in input.units && t.unitId == x.unitId)
            && (forall t :: t in input.units ==> exists x :: x in p.items && x.unitId == t.unitId)
            && p.hash == Document(p.appId, p.environmentId, p.releaseId, p.configId, p.mode, p.nodes, p.items)
  {
    PlanItems(input);
    PlanKeepsHeader(input);
    var p := BuildPlan(input).value;
    SameClashes((x: Item, y: Item) => x.unitId == y.unitId, Items(p.mode, p.nodes, IndexStates(input.states), input.units), p.items);
    hide BuildPlan, ItemFor, Before, IndexStates;
    forall x | x in p.items ensures exists t :: t in input.units && t.unitId == x.unitId {
      var t := UnitOfItem(input, x);
    }
    forall t | t in input.units ensures exists x :: x in p.items && x.unitId == t.unitId {
      ItemOfUnit(input, t);
      ItemNamesUnit(p.mode, p.nodes, IndexStates(input.states), t);
    }
  }

  lemma ItemNamesUnit(mode: Mode, nodes: seq<int>, index: StateIndex, t: TargetUnit)
    ensures ItemFor(mode, nodes, index, t).unitId == t.unitId
  {
  }

  lemma PlanKeepsHeader(input: PlanInput)
    requires BuildPlan(input).Ok?
    ensures var p := BuildPlan(input).value;
            && p.appId == input.appId && p.environmentId == input.environmentId && p.releaseId == input.releaseId
            && p.configId == input.configId && p.mode == input.mode
            && p.hash == Document(p.appId, p.environmentId, p.releaseId, p.configId, p.mode, p.nodes, p.items)
  {
    hide SortItems, SortedNodes, Items, UnitError, DistinctStates;
  }

  // ---------------------------------------------------------------- refusals

  /** What is wrong with the k-th target, seen after those before it. */
  predicate Objection(units: seq<TargetUnit>, k: nat, e: PlanError) {
    && k < |units|
    && var t := units[k];
       if exists i :: 0 <= i < k && units[i].unitId == t.unitId then e == DuplicateUnit
       else (t.desired.Unsupported? && e == UnsupportedStatus)
            || (t.desired == Active && t.release == None && e == MissingRelease)
  }

  function Seen(units: seq<TargetUnit>, n: nat): set<int>
    requires n <= |units|
  {
    set i | 0 <= i < n :: units[i].unitId
  }

  lemma {:induction false} FirstObjection(units: seq<TargetUnit>, n: nat, seen: set<int>)
    requires n <= |units| && seen == Seen(units, n)
    requires UnitError(units[n..], seen).Some?
    ensures exists k :: n <= k && Objection(units, k, UnitError(units[n..], seen).value)
                        && forall i: nat, e :: n <= i < k ==> !Objection(units, i, e)
    decreases |units| - n
  {
    var t, rest := units[n], units[n..];
    assert rest[0] == t && rest[1..] == units[n + 1..];
    assert t.unitId in seen <==> exists i :: 0 <= i < n && units[i].unitId == t.unitId;
    if t.unitId !in seen && !t.desired.Unsupported? && !(t.desired == Active && t.release == None) {
      var more := seen + {t.unitId};
      forall u ensures u in more <==> u in Seen(units, n + 1) {
        if u == t.unitId { assert units[n].unitId == u; }
      }
      FirstObjection(units, n + 1, more);
      assert forall e :: !Objection(units, n, e);
    } else {
      assert Objection(units, n, UnitError(rest, seen).value);
    }
  }

  /** A plan is refused for the first thing that is wrong: no nodes, no targets, two states of one unit on one node,
      and then the first target with an objection. */
  lemma BuildRefuses(input: PlanInput)
    requires BuildPlan(input).Err?
    ensures var e := BuildPlan(input).error;
            if |input.nodes| == 0 then e == NoNodes
            else if |input.units| == 0 then e == NoUnits
            else if exists i, j :: 0 <= i < j < |input.states| && input.states[i].unitId == input.states[j].unitId
                                   && input.states[i].nodeId == input.states[j].nodeId then e == DuplicateState
            else exists k :: Objection(input.units, k, e) && forall i: nat, d :: i < k ==> !Objection(input.units, i, d)
  {
    hide SortItems, SortedNodes, Items, Objection;
    var seen: set<int> := {};
    assert input.units[0..] == input.units;
    assert seen == Seen(input.units, 0);
    if UnitError(input.units, seen).Some? { FirstObjection(input.units, 0, seen); }
  }
}

/** Listing what a query returns, in whatever order it comes. */
module Listings {
  import opened Options
  import opened Planning
  import opened Tables
  import opened Invariants

  method ListNodes(nodes: set<int>) returns (list: seq<int>)
    ensures multiset(list) == multiset(nodes)
  {
    list := [];
    var todo := nodes;
    while todo != {}
      invariant todo <= nodes && multiset(list) == multiset(nodes - todo)
      decreases |todo|
    {
      SomeMember(todo);
      var n :| n in todo;
      assert nodes - (todo - {n}) == (nodes - todo) + {n};
      list := list + [n];
      todo := todo - {n};
    }
    assert nodes - todo == nodes;
  }

  method ListTargets(targets: map<int, TargetUnit>) returns (list: seq<TargetUnit>)
    requires KeyedTargets(targets)
    ensures multiset(list) == multiset(TargetsIn(targets))
  {
    hide TargetsIn;
    list := [];
    var todo := targets.Keys;
    ghost var done: map<int, TargetUnit> := map[];
    NoTargets();
    while todo != {}
      invariant todo <= targets.Keys && done == targets - todo && multiset(list) == multiset(TargetsIn(done))
      decreases |todo|
    {
      SomeMember(todo);
      var u :| u in todo;
      OneMoreTarget(done, u, targets[u]);
      list := list + [targets[u]];
      todo := todo - {u};
      done := done[u := targets[u]];
    }
    assert done == targets;
  }

  lemma NoTargets()
    ensures TargetsIn(map[]) == {}
  {
  }

  lemma OneMoreTarget(m: map<int, TargetUnit>, u: int, t: TargetUnit)
    requires KeyedTargets(m) && u !in m && t.unitId == u
    ensures TargetsIn(m[u := t]) == TargetsIn(m) + {t} && t !in TargetsIn(m)
  {
    var n := m[u := t];
    forall x ensures x in TargetsIn(n) <==> x in TargetsIn(m) + {t} {
      if x in TargetsIn(m) { var v :| v in m && m[v] == x; assert n[v] == x; }
      if x == t { assert n[u] == x; }
    }
  }

  method ListStates(observed: StateIndex) returns (list: seq<NodeState>)
    requires KeyedStates(observed)
    ensures multiset(list) == multiset(StatesIn(observed))
  {
    hide StatesIn;
    list := [];
    var todo := observed.Keys;
    ghost var done: StateIndex := map[];
    NoStates();
    while todo != {}
      invariant todo <= observed.Keys && done == observed - todo && multiset(list) == multiset(StatesIn(done))
      decreases |todo|
    {
      var p :| p in todo;
      OneMoreState(done, p, observed[p]);
      list := list + [observed[p]];
      todo := todo - {p};
      done := done[p := observed[p]];
    }
    assert done == observed;
  }

  lemma NoStates()
    ensures StatesIn(map[]) == {}
  {
  }

  lemma OneMoreState(m: StateIndex, p: (int, int), s: NodeState)
    requires KeyedStates(m) && p !in m && p == (s.unitId, s.nodeId)
    ensures StatesIn(m[p := s]) == StatesIn(m) + {s} && s !in StatesIn(m)
  {
    var n := m[p := s];
    forall x ensures x in StatesIn(n) <==> x in StatesIn(m) + {s} {
      if x in StatesIn(m) { var v :| v in m && m[v] == x; assert n[v] == x; }
      if x == s { assert n[p] == x; }
    }
  }
}

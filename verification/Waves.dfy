/** Execution waves: the executable items of a plan, grouped into runs of one stage and one direction. */
module Waves {
  import opened Options
  import opened Planning

  predicate Executable(x: Item) {
    x.action != Skip
  }

  function Executables(items: seq<Item>): seq<Item> {
    if items == [] then [] else
    var last := items[|items| - 1];
    Executables(items[..|items| - 1]) + if Executable(last) then [last] else []
  }

  /** Items of one wave stop units of one stage, or act on units of one stage in another way. */
  predicate Together(a: Item, b: Item) {
    (a.action == Stop) == (b.action == Stop) && a.stage == b.stage
  }

  /** Item x joins the last wave or opens a new one. */
  function Extend(waves: seq<seq<Item>>, x: Item): seq<seq<Item>> {
    var n := |waves|;
    if n > 0 && waves[n - 1] != [] && Together(waves[n - 1][0], x)
    then waves[..n - 1] + [waves[n - 1] + [x]]
    else waves + [[x]]
  }

  function ExecutionWaves(items: seq<Item>): seq<seq<Item>> {
    if items == [] then [] else
    var before, last := ExecutionWaves(items[..|items| - 1]), items[|items| - 1];
    if Executable(last) then Extend(before, last) else before
  }

  function Concat(waves: seq<seq<Item>>): seq<Item> {
    if waves == [] then [] else waves[0] + Concat(waves[1..])
  }

  method ComputeWaves(items: seq<Item>) returns (waves: seq<seq<Item>>)
    ensures waves == ExecutionWaves(items)
  {
    waves := [];
    var k := 0;
    while k < |items|
      invariant k <= |items|
      invariant waves == ExecutionWaves(items[..k])
    {
      var item := items[k];
      assert items[..k + 1][..k] == items[..k];
      k := k + 1;
      if !Executable(item) {
        continue;
      }
      var n := |waves|;
      if n > 0 && waves[n - 1] != [] && Together(waves[n - 1][0], item) {
        waves := waves[..n - 1] + [waves[n - 1] + [item]];
      } else {
        waves := waves + [[item]];
      }
    }
    assert items[..k] == items;
  }

  // ---------------------------------------------------------------- what waves are

  /** Every wave holds items that belong together, and neighbouring waves do not. */
  predicate Grouped(waves: seq<seq<Item>>) {
    && (forall i :: 0 <= i < |waves| ==> waves[i] != [])
    && (forall i, j :: 0 <= i < |waves| && 0 <= j < |waves[i]| ==> Together(waves[i][0], waves[i][j]))
    && (forall i :: 0 < i < |waves| ==> !Together(waves[i - 1][0], waves[i][0]))
  }

  lemma {:induction false} ConcatAppend(waves: seq<seq<Item>>, wave: seq<Item>)
    ensures Concat(waves + [wave]) == Concat(waves) + wave
  {
    if waves == [] {
      assert waves + [wave] == [wave];
      assert [wave][1..] == [];
    } else {
      assert (waves + [wave])[1..] == waves[1..] + [wave];
      ConcatAppend(waves[1..], wave);
    }
  }

  lemma ExtendConcat(waves: seq<seq<Item>>, x: Item)
    ensures Concat(Extend(waves, x)) == Concat(waves) + [x]
  {
    var n := |waves|;
    if n > 0 && waves[n - 1] != [] && Together(waves[n - 1][0], x) {
      assert waves == waves[..n - 1] + [waves[n - 1]];
      ConcatAppend(waves[..n - 1], waves[n - 1]);
      ConcatAppend(waves[..n - 1], waves[n - 1] + [x]);
    } else {
      ConcatAppend(waves, [x]);
    }
  }

  /** The waves, one after the other, are the executable items in plan order. */
  lemma {:induction false} WavesConcat(items: seq<Item>)
    ensures Concat(ExecutionWaves(items)) == Executables(items)
  {
    hide Extend, Concat;
    if items == [] {
      NoWavesGrouped();
    } else {
      var before, last := items[..|items| - 1], items[|items| - 1];
      WavesConcat(before);
      if Executable(last) {
        ExtendConcat(ExecutionWaves(before), last);
      } else {
        assert Executables(before) + [] == Executables(before);
      }
    }
  }

  lemma ExtendGrouped(waves: seq<seq<Item>>, x: Item)
    requires Grouped(waves)
    ensures Grouped(Extend(waves, x))
  {
    var n := |waves|;
    var r := Extend(waves, x);
    assert forall i :: 0 <= i < n - 1 ==> r[i] == waves[i];
  }

  lemma {:induction false} WavesGrouped(items: seq<Item>)
    ensures Grouped(ExecutionWaves(items))
  {
    hide Extend, Grouped;
    if items == [] {
      NoWavesGrouped();
    } else {
      var before, last := items[..|items| - 1], items[|items| - 1];
      WavesGrouped(before);
      if Executable(last) {
        ExtendGrouped(ExecutionWaves(before), last);
      }
    }
  }

  lemma NoWavesGrouped()
    ensures Grouped([]) && Concat([]) == []
  {
  }

  lemma {:induction false} ExecutablesMembers(items: seq<Item>)
    ensures forall x :: x in Executables(items) <==> x in items && Executable(x)
  {
    if items != [] {
      var before, last := items[..|items| - 1], items[|items| - 1];
      ExecutablesMembers(before);
      assert items == before + [last];
    }
  }

  lemma {:induction false} ConcatMembers(waves: seq<seq<Item>>, x: Item)
    ensures x in Concat(waves) <==> exists i :: 0 <= i < |waves| && x in waves[i]
  {
    if waves != [] {
      ConcatMembers(waves[1..], x);
      if x in Concat(waves[1..]) {
        var i :| 0 <= i < |waves[1..]| && x in waves[1..][i];
        assert x in waves[i + 1];
      }
      if exists i :: 0 <= i < |waves| && x in waves[i] {
        var i :| 0 <= i < |waves| && x in waves[i];
        if i > 0 { assert waves[1..][i - 1] == waves[i]; }
      }
    }
  }

  // ---------------------------------------------------------------- waves of a plan

  /** The place of an item's wave: stops first, their stages falling; then the rest, stages rising. */
  predicate EarlierGroup(a: Item, b: Item) {
    if a.action == Stop then b.action != Stop || a.stage > b.stage
    else b.action != Stop && a.stage < b.stage
  }

  predicate GroupsAscend(waves: seq<seq<Item>>) {
    forall i, j :: 0 <= i < j < |waves| && waves[i] != [] && waves[j] != [] ==> EarlierGroup(waves[i][0], waves[j][0])
  }

  lemma GroupOrder(a: Item, b: Item)
    requires Before(a, b)
    ensures Together(a, b) || EarlierGroup(a, b)
  {
  }

  lemma GroupTransitive(a: Item, b: Item, c: Item)
    ensures EarlierGroup(a, b) && EarlierGroup(b, c) ==> EarlierGroup(a, c)
    ensures EarlierGroup(a, b) && Together(b, c) ==> EarlierGroup(a, c)
    ensures EarlierGroup(a, b) ==> !Together(a, b)
  {
  }

  lemma LastWaveLast(waves: seq<seq<Item>>)
    requires Grouped(waves) && waves != []
    ensures Concat(waves) != []
    ensures Together(waves[|waves| - 1][0], Concat(waves)[|Concat(waves)| - 1])
  {
    var n := |waves|;
    var wave := waves[n - 1];
    assert waves == waves[..n - 1] + [wave];
    ConcatAppend(waves[..n - 1], wave);
    assert Concat(waves)[|Concat(waves)| - 1] == wave[|wave| - 1];
  }

  lemma ExtendAscends(waves: seq<seq<Item>>, x: Item)
    requires Grouped(waves) && GroupsAscend(waves)
    requires waves != [] ==> Before(Concat(waves)[|Concat(waves)| - 1], x) && Concat(waves) != []
    ensures GroupsAscend(Extend(waves, x))
  {
    hide Before, Concat;
    var n := |waves|;
    if n > 0 {
      LastWaveLast(waves);
      var head, last := waves[n - 1][0], Concat(waves)[|Concat(waves)| - 1];
      GroupOrder(last, x);
      assert Together(head, x) || EarlierGroup(head, x);
      if !Together(head, x) {
        forall i | 0 <= i < n ensures EarlierGroup(waves[i][0], x) {
          GroupTransitive(waves[i][0], head, x);
        }
      }
    }
  }

  lemma {:induction false} SortedWavesAscend(items: seq<Item>)
    requires Ascending(Before, items)
    ensures GroupsAscend(ExecutionWaves(items))
  {
    if items != [] {
      var before, last := items[..|items| - 1], items[|items| - 1];
      SortedWavesAscend(before);
      WavesConcat(before);
      WavesGrouped(before);
      ExecutablesMembers(before);
      var waves := ExecutionWaves(before);
      if Executable(last) {
        if waves != [] {
          LastWaveLast(waves);
          var y := Concat(waves)[|Concat(waves)| - 1];
          assert y in Executables(before);
          assert y in before;
        }
        ExtendAscends(waves, last);
      }
    }
  }

  /** Each wave holds every executable item that belongs to it. */
  predicate Complete(items: seq<Item>, waves: seq<seq<Item>>) {
    forall i, x :: 0 <= i < |waves| && waves[i] != [] && x in items && Executable(x) && Together(waves[i][0], x) ==>
      x in waves[i]
  }

  /** The waves of a sorted plan: the executable items in order; the stop waves first, from the last stage back, the
      others after them, from the first stage on; and each wave holds every executable item of its stage and kind. */
  lemma WaveDecomposition(items: seq<Item>)
    requires Ascending(Before, items)
    ensures var waves := ExecutionWaves(items);
            && Concat(waves) == Executables(items)
            && Grouped(waves)
            && GroupsAscend(waves)
            && Complete(items, waves)
  {
    WavesConcat(items);
    WavesGrouped(items);
    SortedWavesAscend(items);
    ExecutablesMembers(items);
    var waves := ExecutionWaves(items);
    forall i, x | 0 <= i < |waves| && x in items && Executable(x) && Together(waves[i][0], x)
      ensures x in waves[i]
    {
      ConcatMembers(waves, x);
      assert x in Concat(waves);
      var j :| 0 <= j < |waves| && x in waves[j];
      assert Together(waves[j][0], x);
      if i < j { GroupTransitive(waves[i][0], waves[j][0], x); }
      if j < i { GroupTransitive(waves[j][0], waves[i][0], x); }
    }
  }

  // ---------------------------------------------------------------- places in the waves

  /** Item waves[i][j] exists. */
  predicate Place(waves: seq<seq<Item>>, i: int, j: int) {
    0 <= i < |waves| && 0 <= j < |waves[i]|
  }

  /** What holds between any two items of the concatenation, in order, holds between any two places in order. */
  lemma {:induction false} PlaceAscends(lt: (Item, Item) -> bool, waves: seq<seq<Item>>, i: int, j: int, k: int, l: int)
    requires Ascending(lt, Concat(waves))
    requires Place(waves, i, j) && Place(waves, k, l) && (i < k || (i == k && j < l))
    ensures lt(waves[i][j], waves[k][l])
    decreases |waves|
  {
    var first, rest := waves[0], waves[1..];
    var all := Concat(waves);
    assert all == first + Concat(rest);
    if k == 0 {
      hide Concat;
      assert first[j] == all[j] && first[l] == all[l];
    } else if i == 0 {
      hide Concat;
      assert rest[k - 1][l] in rest[k - 1];
      ConcatMembers(rest, waves[k][l]);
      var p :| 0 <= p < |Concat(rest)| && Concat(rest)[p] == waves[k][l];
      assert first[j] == all[j] && all[|first| + p] == waves[k][l];
    } else {
      hide Concat;
      assert forall p :: 0 <= p < |Concat(rest)| ==> Concat(rest)[p] == all[|first| + p];
      PlaceAscends(lt, rest, i - 1, j, k - 1, l);
    }
  }

  lemma {:induction false} ExecutablesAscend(lt: (Item, Item) -> bool, items: seq<Item>)
    requires Ascending(lt, items)
    ensures Ascending(lt, Executables(items))
  {
    if items != [] {
      var before, last := items[..|items| - 1], items[|items| - 1];
      ExecutablesAscend(lt, before);
      ExecutablesMembers(before);
      var e := Executables(before);
      forall p | 0 <= p < |e| ensures lt(e[p], last) {
        assert e[p] in before;
      }
    }
  }

  function Apart(): (Item, Item) -> bool {
    (a: Item, b: Item) => a.unitId != b.unitId
  }

  /** A sorted plan of pairwise different units. */
  ghost predicate Sound(items: seq<Item>) {
    Ascending(Before, items) && Ascending(Apart(), items)
  }

  /** No unit has two places. */
  ghost predicate DistinctPlaces(waves: seq<seq<Item>>) {
    forall i, j, k, l :: Place(waves, i, j) && Place(waves, k, l) && waves[i][j].unitId == waves[k][l].unitId ==>
      i == k && j == l
  }

  lemma PlacesDistinct(items: seq<Item>)
    requires Sound(items)
    ensures DistinctPlaces(ExecutionWaves(items))
  {
    var waves := ExecutionWaves(items);
    WavesConcat(items);
    ExecutablesAscend(Apart(), items);
    forall i, j, k, l | Place(waves, i, j) && Place(waves, k, l) && waves[i][j].unitId == waves[k][l].unitId
      ensures i == k && j == l
    {
      if i < k || (i == k && j < l) { PlaceAscends(Apart(), waves, i, j, k, l); }
      if k < i || (i == k && l < j) { PlaceAscends(Apart(), waves, k, l, i, j); }
    }
  }

  /** Plan order and stage order, read off places. */
  lemma PlacesInOrder(items: seq<Item>, i: int, j: int, k: int, l: int)
    requires Sound(items) && Place(ExecutionWaves(items), i, j) && Place(ExecutionWaves(items), k, l)
    ensures var waves := ExecutionWaves(items);
            && (Before(waves[i][j], waves[k][l]) ==> i < k || (i == k && j < l))
            && (EarlierGroup(waves[i][j], waves[k][l]) ==> i < k)
  {
    var waves := ExecutionWaves(items);
    WavesConcat(items);
    ExecutablesAscend(Before, items);
    if k < i || (i == k && l < j) {
      PlaceAscends(Before, waves, k, l, i, j);
    }
    BeforeOrders(waves[i][j], waves[k][l], waves[i][j]);
    WaveDecomposition(items);
    var x, y := waves[i][0], waves[k][0];
    assert Together(x, waves[i][j]) && Together(y, waves[k][l]);
    if k < i { assert EarlierGroup(y, x); }
  }

  /** Every executable item has a place, and every place holds an executable item of the plan. */
  lemma PlaceOf(items: seq<Item>, x: Item)
    ensures x in items && Executable(x) <==> exists i, j :: Place(ExecutionWaves(items), i, j) && ExecutionWaves(items)[i][j] == x
  {
    var waves := ExecutionWaves(items);
    WavesConcat(items);
    ExecutablesMembers(items);
    ConcatMembers(waves, x);
    if x in items && Executable(x) {
      var i :| 0 <= i < |waves| && x in waves[i];
      var j :| 0 <= j < |waves[i]| && waves[i][j] == x;
      assert Place(waves, i, j);
    }
    if exists i, j :: Place(waves, i, j) && waves[i][j] == x {
      var i, j :| Place(waves, i, j) && waves[i][j] == x;
      assert x in waves[i];
    }
  }

  /** ... as every plan's is. */
  lemma PlanWaves(input: PlanInput)
    requires BuildPlan(input).Ok?
    ensures var items := BuildPlan(input).value.items; var waves := ExecutionWaves(items);
            Concat(waves) == Executables(items) && Grouped(waves) && GroupsAscend(waves) && Complete(items, waves)
  {
    PlanItems(input);
    WaveDecomposition(BuildPlan(input).value.items);
  }

  lemma PlaceHolds(items: seq<Item>, i: int, j: int)
    requires Place(ExecutionWaves(items), i, j)
    ensures ExecutionWaves(items)[i][j] in items && Executable(ExecutionWaves(items)[i][j])
  {
    var waves := ExecutionWaves(items);
    WavesConcat(items);
    ExecutablesMembers(items);
    assert waves[i][j] in waves[i];
    ConcatMembers(waves, waves[i][j]);
  }

  lemma PlanIsSound(input: PlanInput)
    requires BuildPlan(input).Ok?
    ensures Sound(BuildPlan(input).value.items)
  {
    PlanItems(input);
    var plan := BuildPlan(input).value;
    var items := Items(input.mode, plan.nodes, IndexStates(input.states), input.units);
    SameClashes((x: Item, y: Item) => x.unitId == y.unitId, items, plan.items);
  }
}

/** What every step of a deployment run keeps. */
module RunSafety {
  import opened Options
  import opened Planning
  import opened Waves
  import opened Runs

  // ---------------------------------------------------------------- rows and places

  function At(waves: seq<seq<Item>>, rows: Rows, i: int, j: int): UnitStatus
    requires Place(waves, i, j)
  {
    StatusOf(rows, waves[i][j].unitId)
  }

  /** One row per item of the plan; the rows of skipped items, and no others, are skipped. */
  ghost predicate RowsOf(items: seq<Item>, rows: Rows) {
    && (forall x :: x in items ==> x.unitId in rows && (rows[x.unitId].status == Skipped <==> x.action == Skip))
    && (forall u :: u in rows ==> exists x :: x in items && x.unitId == u)
  }

  /** A unit has started only if every unit of every earlier wave has succeeded. */
  ghost predicate Barrier(waves: seq<seq<Item>>, rows: Rows) {
    forall i, j, k, l :: Place(waves, i, j) && Place(waves, k, l) && k < i && Started(At(waves, rows, i, j)) ==>
      At(waves, rows, k, l) == Succeeded
  }

  /** Within a wave, the started units come first. */
  ghost predicate StartedFirst(waves: seq<seq<Item>>, rows: Rows) {
    forall i, j, l :: Place(waves, i, j) && Place(waves, i, l) && l < j && Started(At(waves, rows, i, j)) ==>
      Started(At(waves, rows, i, l))
  }

  /** No row is pending or in progress. */
  ghost predicate Closed(rows: Rows) {
    forall u :: u in rows ==> rows[u].status != Pending && rows[u].status != InProgress
  }

  ghost predicate Untouched(rows: Rows) {
    forall u :: u in rows ==> rows[u].status == Pending || rows[u].status == Skipped
  }

  ghost predicate AllGood(rows: Rows) {
    forall u :: u in rows ==> Good(rows[u].status)
  }

  /** While the snapshot is kept a row names the release of its item; afterwards it names none. */
  ghost predicate ReleasesOf(items: seq<Item>, rows: Rows, snapshot: bool) {
    forall x :: x in items && x.unitId in rows ==> rows[x.unitId].release == if snapshot then x.release else None
  }

  predicate TaskFits(status: RunStatus, task: TaskStatus) {
    match status
    case Queued => task == TaskQueued
    case Running => task == TaskRunning
    case Reconciling => task == TaskFailed
    case Success => task == TaskSuccess
    case PartialFailed => task == TaskFailed || task == TaskCanceled
    case AllFailed => task == TaskFailed
    case Canceled => task == TaskCanceled
  }

  ghost predicate RowsFit(run: Run) {
    && (run.status == Queued ==> Untouched(run.rows))
    && (run.status != Queued && run.status != Running ==> Closed(run.rows))
    && (run.status == Success ==> AllGood(run.rows))
    && (Ongoing(run.status) ==> run.snapshot)
    && |Underway(run.rows)| <= run.limit
  }

  ghost predicate RunOk(run: Run) {
    && Sound(run.plan.items)
    && RowsOf(run.plan.items, run.rows)
    && Barrier(WavesOf(run), run.rows)
    && StartedFirst(WavesOf(run), run.rows)
    && ReleasesOf(run.plan.items, run.rows, run.snapshot)
    && RowsFit(run)
    && TaskFits(run.status, run.task)
  }

  // ---------------------------------------------------------------- the executor

  ghost predicate WavesSucceeded(waves: seq<seq<Item>>, rows: Rows, n: int) {
    forall i, j :: Place(waves, i, j) && i < n ==> At(waves, rows, i, j) == Succeeded
  }

  ghost predicate WavesPending(waves: seq<seq<Item>>, rows: Rows, n: int) {
    forall i, j :: Place(waves, i, j) && n <= i ==> At(waves, rows, i, j) == Pending
  }

  predicate InWave(s: UnitStatus, j: int, e: Exec) {
    if e.taken <= j then s == Pending
    else s == InProgress || s == Succeeded || (s == Runs.Failed && e.failureSeen) || (s == CanceledUnknown && e.cancelSeen)
  }

  /** The current wave: pending items at its end; before them the units under way, and the others with what they
      came back with. */
  ghost predicate CurrentWave(waves: seq<seq<Item>>, rows: Rows, e: Exec) {
    && 1 <= e.begun <= |waves| && e.taken <= |waves[e.begun - 1]|
    && WaveOk(waves, rows, e.begun - 1, e)
  }

  ghost predicate WaveOk(waves: seq<seq<Item>>, rows: Rows, w: int, e: Exec) {
    forall j :: Place(waves, w, j) ==> InWave(At(waves, rows, w, j), j, e)
  }

  ghost predicate ExecOk(run: Run, e: Exec) {
    var waves := WavesOf(run);
    && run.status == Running && run.limit >= 1
    && e.running == Underway(run.rows)
    && match e.phase {
         case NextWave =>
           && e.running == {} && e.begun <= |waves|
           && (!e.failed && !e.canceled ==>
                 WavesSucceeded(waves, run.rows, e.begun) && WavesPending(waves, run.rows, e.begun))
         case Closing =>
           e.running == {} && (!e.failed && !e.canceled ==> WavesSucceeded(waves, run.rows, |waves|))
         case Finalizing => Closed(run.rows)
         case _ =>
           && !e.failed && !e.canceled && CurrentWave(waves, run.rows, e)
           && WavesSucceeded(waves, run.rows, e.begun - 1) && WavesPending(waves, run.rows, e.begun)
           && (e.phase == Joining && e.running == {} ==> !HasPending(run, e) || e.failureSeen || e.cancelSeen)
       }
  }

  ghost predicate FlowOk(f: Flow) {
    && RunOk(f.run)
    && (f.driver.Live? ==> ExecOk(f.run, f.driver.exec))
    && (f.driver == Waiting ==> f.run.status == Queued || f.run.status == Canceled)
  }

  // ---------------------------------------------------------------- steps that start nothing

  /** Rows change without any unit starting, and without a success being taken back. */
  ghost predicate Quiet(a: Rows, b: Rows) {
    && a.Keys == b.Keys
    && (forall u :: u in a ==>
          && Started(b[u].status) == Started(a[u].status)
          && (a[u].status == Succeeded ==> b[u].status == Succeeded)
          && (b[u].status == InProgress ==> a[u].status == InProgress)
          && (b[u].status == Skipped <==> a[u].status == Skipped))
  }

  lemma QuietStatus(a: Rows, b: Rows, u: int)
    requires Quiet(a, b)
    ensures Started(StatusOf(b, u)) == Started(StatusOf(a, u))
    ensures StatusOf(a, u) == Succeeded ==> StatusOf(b, u) == Succeeded
  {
  }

  lemma QuietKeepsBarrier(waves: seq<seq<Item>>, a: Rows, b: Rows)
    requires Quiet(a, b) && Barrier(waves, a) && StartedFirst(waves, a)
    ensures Barrier(waves, b) && StartedFirst(waves, b)
  {
    hide Quiet, StatusOf, Started;
    forall i, j, k, l | Place(waves, i, j) && Place(waves, k, l) && k < i && Started(At(waves, b, i, j))
      ensures At(waves, b, k, l) == Succeeded
    {
      QuietStatus(a, b, waves[i][j].unitId);
      QuietStatus(a, b, waves[k][l].unitId);
    }
    forall i, j, l | Place(waves, i, j) && Place(waves, i, l) && l < j && Started(At(waves, b, i, j))
      ensures Started(At(waves, b, i, l))
    {
      QuietStatus(a, b, waves[i][j].unitId);
      QuietStatus(a, b, waves[i][l].unitId);
    }
  }

  lemma Fewer(a: set<int>, b: set<int>)
    requires a <= b
    ensures |a| <= |b|
  {
    assert b == a + (b - a);
  }

  lemma QuietRows(items: seq<Item>, a: Rows, b: Rows)
    requires Quiet(a, b) && RowsOf(items, a)
    ensures RowsOf(items, b)
    ensures Underway(b) <= Underway(a)
    ensures |Underway(b)| <= |Underway(a)|
  {
    forall u | u in Underway(b) ensures u in Underway(a) {
      assert u in b.Keys;
    }
    Fewer(Underway(b), Underway(a));
  }

  lemma BulkIsQuiet(rows: Rows)
    ensures Quiet(rows, MarkNotStarted(rows))
    ensures Quiet(rows, EraseReleases(rows))
    ensures Quiet(rows, Abandon(rows)) && Closed(Abandon(rows))
    ensures Underway(rows) == {} ==> Closed(MarkNotStarted(rows))
  {
    forall u | u in rows && rows[u].status == InProgress ensures u in Underway(rows) {
    }
  }

  /** A step that starts nothing and keeps the releases keeps the run sound, whatever its status becomes. */
  lemma QuietRun(a: Run, b: Run)
    requires RunOk(a) && Quiet(a.rows, b.rows) && a.plan == b.plan
    requires b.limit >= a.limit
    ensures Sound(b.plan.items) && RowsOf(b.plan.items, b.rows) && |Underway(b.rows)| <= b.limit
    ensures Barrier(WavesOf(b), b.rows) && StartedFirst(WavesOf(b), b.rows)
  {
    hide Quiet, RowsOf, Barrier, StartedFirst, Sound;
    QuietRows(a.plan.items, a.rows, b.rows);
    QuietKeepsBarrier(WavesOf(a), a.rows, b.rows);
  }

  // ---------------------------------------------------------------- one lemma per step

  lemma QuietFlow(f: Flow, g: Flow)
    requires FlowOk(f) && Quiet(f.run.rows, g.run.rows) && f.run.plan == g.run.plan && f.run.limit == g.run.limit
    requires ReleasesOf(g.run.plan.items, g.run.rows, g.run.snapshot) && TaskFits(g.run.status, g.run.task)
    requires Ongoing(g.run.status) ==> g.run.snapshot
    requires g.run.status == Queued ==> Untouched(g.run.rows)
    requires g.run.status != Queued && g.run.status != Running ==> Closed(g.run.rows)
    requires g.run.status == Success ==> AllGood(g.run.rows)
    ensures RunOk(g.run)
  {
    hide Quiet, RowsOf, Barrier, StartedFirst, Sound, Closed, Untouched, AllGood, ReleasesOf, TaskFits;
    QuietRun(f.run, g.run);
  }

  lemma ClaimKeeps(f: Flow, limit: int, signaled: bool)
    requires FlowOk(f)
    ensures FlowOk(Claim(f, limit, signaled))
  {
    hide RowsOf, Barrier, StartedFirst, Sound, ReleasesOf;
    var g := Claim(f, limit, signaled);
    if f.driver == Waiting && Claimable(f.run) {
      var waves, rows := WavesOf(f.run), f.run.rows;
      forall u | u in rows ensures u !in Underway(rows) {
        assert rows[u].status == Pending || rows[u].status == Skipped;
      }
      forall i, j | Place(waves, i, j) ensures At(waves, rows, i, j) == Pending {
        PlaceHasRow(f.run, i, j);
      }
      assert Underway(rows) == {};
      assert WavesSucceeded(waves, rows, 0) && WavesPending(waves, rows, 0);
      assert ExecOk(g.run, g.driver.exec);
      assert RunOk(g.run);
    }
  }

  /** A place holds an executable item, whose row is not skipped. */
  lemma PlaceHasRow(run: Run, i: int, j: int)
    requires RowsOf(run.plan.items, run.rows) && Place(WavesOf(run), i, j)
    ensures var x := WavesOf(run)[i][j];
            x in run.plan.items && x.unitId in run.rows && run.rows[x.unitId].status != Skipped
  {
    PlaceHolds(run.plan.items, i, j);
  }

  lemma BeginWaveKeeps(f: Flow, e: Exec)
    requires FlowOk(f) && f.driver == Live(e) && e.phase == NextWave
    ensures FlowOk(BeginWave(f, e))
  {
    hide RunOk;
    var waves := WavesOf(f.run);
    if e.begun < |waves| && !e.failed && !e.canceled && !f.run.cancelRequested {
      var d := BeginWave(f, e).driver.exec;
      assert WaveOk(waves, f.run.rows, e.begun, d);
    }
  }

  lemma EndWaveKeeps(f: Flow, e: Exec)
    requires FlowOk(f) && f.driver == Live(e) && (e.phase == Checking || e.phase == Joining)
    requires e.running == {} && (e.phase == Checking ==> !HasPending(f.run, e))
    ensures FlowOk(f.(driver := Live(EndWave(e))))
  {
    hide RunOk;
    var waves, rows, d := WavesOf(f.run), f.run.rows, EndWave(e);
    if !d.failed && !d.canceled {
      forall i, j | Place(waves, i, j) && i < e.begun ensures At(waves, rows, i, j) == Succeeded {
        if i == e.begun - 1 {
          assert InWave(At(waves, rows, i, j), j, e);
          assert waves[i][j].unitId !in Underway(rows);
        }
      }
    }
  }

  lemma CheckKeeps(f: Flow, e: Exec)
    requires FlowOk(f) && f.driver == Live(e) && e.phase == Checking
    ensures FlowOk(f.(driver := Live(e.(cancelSeen := e.cancelSeen || e.signal, phase := Starting))))
  {
    hide RunOk;
    var w := e.begun - 1;
    var waves, rows, d := WavesOf(f.run), f.run.rows, e.(cancelSeen := e.cancelSeen || e.signal, phase := Starting);
    forall j | Place(waves, w, j) ensures InWave(At(waves, rows, w, j), j, d) {
      assert InWave(At(waves, rows, w, j), j, e);
    }
  }

  lemma StopStartingKeeps(f: Flow, e: Exec)
    requires FlowOk(f) && f.driver == Live(e) && e.phase == Starting && !MayStart(f.run, e)
    ensures FlowOk(f.(driver := Live(e.(phase := Joining))))
  {
    hide RunOk;
    var w := e.begun - 1;
    var waves, rows, d := WavesOf(f.run), f.run.rows, e.(phase := Joining);
    forall j | Place(waves, w, j) ensures InWave(At(waves, rows, w, j), j, d) {
      assert InWave(At(waves, rows, w, j), j, e);
    }
  }

  lemma StartUnitKeepsRows(f: Flow, e: Exec)
    requires FlowOk(f) && f.driver == Live(e) && e.phase == Starting && MayStart(f.run, e)
    ensures var u := WavesOf(f.run)[e.begun - 1][e.taken].unitId;
            && StartUnit(f, e).driver == Live(e.(taken := e.taken + 1, running := e.running + {u}))
            && Underway(StartUnit(f, e).run.rows) == Underway(f.run.rows) + {u}
    ensures RowsOf(f.run.plan.items, StartUnit(f, e).run.rows)
  {
    hide Barrier, StartedFirst, Sound, ReleasesOf;
    var waves, rows := WavesOf(f.run), f.run.rows;
    PlaceHasRow(f.run, e.begun - 1, e.taken);
    assert InWave(At(waves, rows, e.begun - 1, e.taken), e.taken, e);
  }

  /** Rows away from the place just touched. */
  lemma Elsewhere(waves: seq<seq<Item>>, a: Rows, b: Rows, i: int, j: int, k: int, l: int)
    requires DistinctPlaces(waves) && Place(waves, i, j) && Place(waves, k, l) && (i != k || j != l)
    requires a.Keys == b.Keys && forall u :: u in a && u != waves[i][j].unitId ==> a[u] == b[u]
    ensures At(waves, a, k, l) == At(waves, b, k, l)
  {
  }

  lemma StartKeepsBarrier(waves: seq<seq<Item>>, a: Rows, b: Rows, w: int, t: int)
    requires DistinctPlaces(waves) && Place(waves, w, t) && Barrier(waves, a)
    requires WavesSucceeded(waves, a, w) && WavesPending(waves, a, w + 1) && At(waves, a, w, t) == Pending
    requires a.Keys == b.Keys && forall u :: u in a && u != waves[w][t].unitId ==> a[u] == b[u]
    ensures Barrier(waves, b)
  {
    hide Place;
    forall i, j, k, l | Place(waves, i, j) && Place(waves, k, l) && k < i && Started(At(waves, b, i, j))
      ensures At(waves, b, k, l) == Succeeded
    {
      if i != w || j != t { Elsewhere(waves, a, b, w, t, i, j); }
      if k != w || l != t { Elsewhere(waves, a, b, w, t, k, l); }
    }
  }

  lemma StartKeepsFirst(waves: seq<seq<Item>>, a: Rows, b: Rows, e: Exec)
    requires var w := e.begun - 1;
             && DistinctPlaces(waves) && Place(waves, w, e.taken) && StartedFirst(waves, a)
             && WaveOk(waves, a, w, e) && Started(At(waves, b, w, e.taken))
             && a.Keys == b.Keys && forall u :: u in a && u != waves[w][e.taken].unitId ==> a[u] == b[u]
    ensures StartedFirst(waves, b)
  {
    hide Place, At;
    var w, t := e.begun - 1, e.taken;
    forall i, j, l | Place(waves, i, j) && Place(waves, i, l) && l < j && Started(At(waves, b, i, j))
      ensures Started(At(waves, b, i, l))
    {
      if i != w || j != t { Elsewhere(waves, a, b, w, t, i, j); }
      if i != w || l != t { Elsewhere(waves, a, b, w, t, i, l); }
      if i == w { assert InWave(At(waves, a, w, l), l, e); }
    }
  }

  lemma StartUnitKeepsOrder(f: Flow, e: Exec)
    requires FlowOk(f) && f.driver == Live(e) && e.phase == Starting && MayStart(f.run, e)
    ensures var g := StartUnit(f, e); var waves := WavesOf(f.run);
            Barrier(waves, g.run.rows) && StartedFirst(waves, g.run.rows)
  {
    StartUnitKeepsRows(f, e);
    PlacesDistinct(f.run.plan.items);
    hide RowsOf, Sound, ReleasesOf, RowsFit, ExecutionWaves, Barrier, StartedFirst, DistinctPlaces;
    var waves, a, b := WavesOf(f.run), f.run.rows, StartUnit(f, e).run.rows;
    assert InWave(At(waves, a, e.begun - 1, e.taken), e.taken, e);
    StartKeepsBarrier(waves, a, b, e.begun - 1, e.taken);
    StartKeepsFirst(waves, a, b, e);
  }

  /** What the invariant says while units are being started. */
  ghost predicate StartingOk(run: Run, waves: seq<seq<Item>>, e: Exec) {
    && run.status == Running && run.limit >= 1 && e.running == Underway(run.rows)
    && e.phase == Starting && !e.failed && !e.canceled
    && 1 <= e.begun <= |waves| && e.taken <= |waves[e.begun - 1]| && WaveOk(waves, run.rows, e.begun - 1, e)
    && WavesSucceeded(waves, run.rows, e.begun - 1) && WavesPending(waves, run.rows, e.begun)
  }

  lemma StartingIsExec(run: Run, e: Exec)
    requires e.phase == Starting
    ensures ExecOk(run, e) <==> StartingOk(run, WavesOf(run), e)
  {
    hide WaveOk, WavesSucceeded, WavesPending, Underway, ExecutionWaves;
  }

  lemma StartUnitKeepsExec(f: Flow, e: Exec)
    requires FlowOk(f) && f.driver == Live(e) && e.phase == Starting && MayStart(f.run, e)
    ensures var g := StartUnit(f, e); ExecOk(g.run, g.driver.exec)
  {
    var waves, g := WavesOf(f.run), StartUnit(f, e);
    assert ExecOk(f.run, e) && Sound(f.run.plan.items);
    StartUnitKeepsRows(f, e);
    StartUnitRows(f, e);
    PlacesDistinct(f.run.plan.items);
    hide *;
    StartingIsExec(f.run, e);
    StartingIsExec(g.run, g.driver.exec);
    StartingStays(f.run, g.run, waves, e, g.driver.exec);
  }

  lemma StartingStays(x: Run, y: Run, waves: seq<seq<Item>>, e: Exec, d: Exec)
    requires DistinctPlaces(waves) && StartingOk(x, waves, e) && Place(waves, e.begun - 1, e.taken)
    requires y.status == x.status && y.limit == x.limit && x.rows.Keys == y.rows.Keys
    requires var u := waves[e.begun - 1][e.taken].unitId;
             && u in y.rows && y.rows[u].status == InProgress
             && (forall v :: v in x.rows && v != u ==> x.rows[v] == y.rows[v])
             && Underway(y.rows) == Underway(x.rows) + {u}
             && d == e.(taken := e.taken + 1, running := e.running + {u})
    ensures StartingOk(y, waves, d)
  {
    StartKeepsWave(waves, x.rows, y.rows, e);
    StartKeepsOthers(waves, x.rows, y.rows, e.begun - 1, e.taken);
    SameWave(waves, y.rows, e.begun - 1, e.(taken := e.taken + 1), d);
    hide DistinctPlaces, WaveOk, WavesSucceeded, WavesPending, Underway;
  }

  lemma StartUnitRows(f: Flow, e: Exec)
    requires FlowOk(f) && f.driver == Live(e) && e.phase == Starting && MayStart(f.run, e)
    ensures var waves, g := WavesOf(f.run), StartUnit(f, e);
            && ExecutionWaves(f.run.plan.items) == waves == WavesOf(g.run) && Place(waves, e.begun - 1, e.taken)
            && g.run.status == f.run.status && g.run.limit == f.run.limit && f.run.rows.Keys == g.run.rows.Keys
            && var u := waves[e.begun - 1][e.taken].unitId;
               && u in g.run.rows && g.run.rows[u].status == InProgress
               && forall v :: v in f.run.rows && v != u ==> f.run.rows[v] == g.run.rows[v]
  {
    PlaceHasRow(f.run, e.begun - 1, e.taken);
    StartUnitKeepsRows(f, e);
    hide ExecutionWaves, FlowOk;
  }

  lemma SameWave(waves: seq<seq<Item>>, rows: Rows, w: int, d: Exec, e: Exec)
    requires WaveOk(waves, rows, w, d)
    requires d.taken == e.taken && d.failureSeen == e.failureSeen && d.cancelSeen == e.cancelSeen
    ensures WaveOk(waves, rows, w, e)
  {
    hide At;
    forall l | Place(waves, w, l) ensures InWave(At(waves, rows, w, l), l, e) {
      assert InWave(At(waves, rows, w, l), l, d);
    }
  }

  lemma StartKeepsWave(waves: seq<seq<Item>>, a: Rows, b: Rows, e: Exec)
    requires var w := e.begun - 1;
             && DistinctPlaces(waves) && Place(waves, w, e.taken) && WaveOk(waves, a, w, e)
             && a.Keys == b.Keys && waves[w][e.taken].unitId in b && b[waves[w][e.taken].unitId].status == InProgress
             && forall u :: u in a && u != waves[w][e.taken].unitId ==> a[u] == b[u]
    ensures WaveOk(waves, b, e.begun - 1, e.(taken := e.taken + 1))
  {
    var w, t, d := e.begun - 1, e.taken, e.(taken := e.taken + 1);
    assert At(waves, b, w, t) == InProgress;
    hide Place, At;
    forall l | Place(waves, w, l) ensures InWave(At(waves, b, w, l), l, d) {
      if l != t { Elsewhere(waves, a, b, w, t, w, l); }
      assert InWave(At(waves, a, w, l), l, e);
    }
  }

  lemma StartKeepsOthers(waves: seq<seq<Item>>, a: Rows, b: Rows, w: int, t: int)
    requires DistinctPlaces(waves) && Place(waves, w, t)
    requires a.Keys == b.Keys && forall u :: u in a && u != waves[w][t].unitId ==> a[u] == b[u]
    ensures WavesSucceeded(waves, a, w) ==> WavesSucceeded(waves, b, w)
    ensures WavesPending(waves, a, w + 1) ==> WavesPending(waves, b, w + 1)
  {
    hide Place, At;
    forall k, l | Place(waves, k, l) && k != w ensures At(waves, b, k, l) == At(waves, a, k, l) {
      Elsewhere(waves, a, b, w, t, k, l);
    }
  }

  lemma StartUnitKeeps(f: Flow, e: Exec)
    requires FlowOk(f) && f.driver == Live(e) && e.phase == Starting && MayStart(f.run, e)
    ensures FlowOk(StartUnit(f, e))
  {
    StartUnitKeepsRows(f, e);
    StartUnitKeepsOrder(f, e);
    StartUnitKeepsExec(f, e);
    var g := StartUnit(f, e);
    hide RowsOf, Sound, ExecutionWaves, Barrier, StartedFirst, ExecOk;
    assert |Underway(g.run.rows)| <= |Underway(f.run.rows)| + 1;
  }

  lemma JoinKeepsRows(f: Flow, u: int, o: Outcome)
    requires FlowOk(f) && Joinable(f, u)
    ensures u in f.run.rows && f.run.rows[u].status == InProgress
    ensures Join(f, u, o).run.rows == f.run.rows[u := f.run.rows[u].(status := Ended(o))]
    ensures Quiet(f.run.rows, Join(f, u, o).run.rows)
    ensures Underway(Join(f, u, o).run.rows) == Underway(f.run.rows) - {u}
  {
    hide RowsOf, Barrier, StartedFirst, Sound, ReleasesOf, WavesOf;
    assert u in Underway(f.run.rows);
  }

  lemma JoinKeepsExec(f: Flow, u: int, o: Outcome)
    requires FlowOk(f) && Joinable(f, u)
    ensures ExecOk(Join(f, u, o).run, Join(f, u, o).driver.exec)
  {
    JoinKeepsRows(f, u, o);
    hide RowsOf, Barrier, StartedFirst, Sound, ReleasesOf, ExecutionWaves, Quiet;
    var waves, a, b := WavesOf(f.run), f.run.rows, Join(f, u, o).run.rows;
    var e, d := f.driver.exec, Join(f, u, o).driver.exec;
    var w := e.begun - 1;
    forall k, l | Place(waves, k, l) && k != w ensures At(waves, b, k, l) == At(waves, a, k, l) {
      assert At(waves, a, k, l) != InProgress;
    }
    forall l | Place(waves, w, l) ensures InWave(At(waves, b, w, l), l, d) {
      assert InWave(At(waves, a, w, l), l, e);
    }
  }

  lemma JoinKeeps(f: Flow, u: int, o: Outcome)
    requires FlowOk(f)
    ensures FlowOk(Join(f, u, o))
  {
    if Joinable(f, u) {
      JoinKeepsRows(f, u, o);
      JoinKeepsExec(f, u, o);
      var g := Join(f, u, o);
      assert ReleasesOf(g.run.plan.items, g.run.rows, g.run.snapshot);
      hide RowsOf, Sound, ExecutionWaves, Barrier, StartedFirst, ExecOk, ReleasesOf, Quiet;
      QuietFlow(f, g);
    }
  }

  lemma CloseKeeps(f: Flow)
    requires FlowOk(f) && f.driver.Live? && f.driver.exec.phase == Closing
    ensures FlowOk(Advance(f))
  {
    hide Sound, ExecutionWaves, Barrier, StartedFirst;
    BulkIsQuiet(f.run.rows);
    var g, e := Advance(f), f.driver.exec;
    if !e.failed && !e.canceled {
      forall u | u in f.run.rows ensures f.run.rows[u].status != Pending {
        RowHasPlace(f.run, u);
      }
    }
    assert Closed(g.run.rows);
    QuietRows(f.run.plan.items, f.run.rows, g.run.rows);
    assert Underway(g.run.rows) == {};
    QuietFlow(f, g);
  }

  /** A row that is not skipped belongs to a place. */
  lemma RowHasPlace(run: Run, u: int)
    requires RowsOf(run.plan.items, run.rows) && u in run.rows
    ensures run.rows[u].status != Skipped ==> exists i, j :: Place(WavesOf(run), i, j) && WavesOf(run)[i][j].unitId == u
  {
    var x :| x in run.plan.items && x.unitId == u;
    if run.rows[u].status != Skipped {
      PlaceOf(run.plan.items, x);
      var i, j :| Place(ExecutionWaves(run.plan.items), i, j) && ExecutionWaves(run.plan.items)[i][j] == x;
      assert Place(WavesOf(run), i, j);
    }
  }

  /** The three counters part the rows of a run that has nothing left to do; all is well exactly when two are zero. */
  lemma CountersPartition(rows: Rows)
    requires Closed(rows)
    ensures |GoodRows(rows)| + |BadRows(rows)| + |UnknownRows(rows)| == |rows|
    ensures |BadRows(rows)| == 0 && |UnknownRows(rows)| == 0 <==> AllGood(rows)
  {
    var g, b, n := GoodRows(rows), BadRows(rows), UnknownRows(rows);
    forall u ensures u in rows.Keys <==> u in g + b + n {
      assert u in rows.Keys <==> u in rows;
      if u in rows { assert rows[u].status != Pending && rows[u].status != InProgress; }
    }
    assert rows.Keys == g + b + n;
    forall u ensures !(u in g && u in b) && !(u in g + b && u in n) {
    }
    assert g * b == {} && (g + b) * n == {};
    assert |g + b| == |g| + |b|;
    assert |rows| == |rows.Keys|;
    if |b| == 0 && |n| == 0 {
      assert b == {} && n == {};
      forall u | u in rows ensures Good(rows[u].status) {
        assert u in rows.Keys;
        assert u in g;
      }
    }
    if AllGood(rows) {
      forall u ensures u !in b && u !in n {
      }
      assert b == {} && n == {};
    }
  }

  lemma FinalizeKeeps(f: Flow, e: Exec)
    requires FlowOk(f) && f.driver == Live(e) && e.phase == Finalizing
    ensures FlowOk(Finalize(f, e))
  {
    hide Sound, RowsOf, ExecutionWaves, Barrier, StartedFirst;
    CountersPartition(f.run.rows);
    hide AllGood;
    QuietFlow(f, Finalize(f, e));
  }

  lemma AdvanceKeeps(f: Flow)
    requires FlowOk(f)
    ensures FlowOk(Advance(f))
  {
    hide RunOk, ExecOk, BeginWave, EndWave, StartUnit, Finalize;
    if f.driver.Live? {
      var e := f.driver.exec;
      match e.phase
      case NextWave => BeginWaveKeeps(f, e);
      case Checking => if !HasPending(f.run, e) && e.running == {} { EndWaveKeeps(f, e); } else { CheckKeeps(f, e); }
      case Starting => if MayStart(f.run, e) { StartUnitKeeps(f, e); } else { StopStartingKeeps(f, e); }
      case Joining => if e.running == {} { EndWaveKeeps(f, e); }
      case Closing => CloseKeeps(f);
      case Finalizing => FinalizeKeeps(f, e);
    }
  }

  lemma CancelKeeps(f: Flow)
    requires FlowOk(f)
    ensures FlowOk(RequestCancel(f))
  {
    BulkIsQuiet(f.run.rows);
    var g := RequestCancel(f);
    if f.run.status == Queued {
      NothingUnderway(f.run.rows);
    }
    hide Sound, RowsOf, ExecutionWaves, Barrier, StartedFirst, Closed, AllGood;
    if g != f { QuietFlow(f, g); }
  }

  lemma NothingUnderway(rows: Rows)
    ensures Untouched(rows) || Closed(rows) ==> Underway(rows) == {}
  {
    if Untouched(rows) || Closed(rows) {
      forall u ensures u !in Underway(rows) {
        if u in rows { assert rows[u].status != InProgress; }
      }
    }
  }

  lemma RecoverKeeps(f: Flow)
    requires FlowOk(f) && f.driver == Gone
    ensures FlowOk(Recover(f))
  {
    BulkIsQuiet(f.run.rows);
    var g := Recover(f);
    if f.run.status == Queued {
      NothingUnderway(f.run.rows);
    }
    hide Sound, RowsOf, ExecutionWaves, Barrier, StartedFirst, Closed, AllGood;
    if g != f { QuietFlow(f, g); }
  }

  lemma ConfirmKeeps(f: Flow)
    requires FlowOk(f)
    ensures FlowOk(Confirm(f))
  {
    hide Sound, RowsOf, ExecutionWaves, Barrier, StartedFirst, Closed, AllGood;
    var g := Confirm(f);
    if g != f { QuietFlow(f, g); }
  }

  lemma FailRunKeeps(f: Flow)
    requires FlowOk(f)
    ensures FlowOk(FailRun(f))
  {
    BulkIsQuiet(f.run.rows);
    hide Sound, RowsOf, ExecutionWaves, Barrier, StartedFirst, Closed, AllGood;
    var g := FailRun(f);
    if g.run != f.run { QuietFlow(f, g); }
  }

  lemma EraseKeeps(f: Flow)
    requires FlowOk(f)
    ensures FlowOk(EraseSnapshot(f))
  {
    BulkIsQuiet(f.run.rows);
    var g := EraseSnapshot(f);
    if g != f {
      assert Closed(g.run.rows);
      assert ReleasesOf(g.run.plan.items, g.run.rows, false);
      hide Sound, RowsOf, ExecutionWaves, Barrier, StartedFirst, Closed, Quiet;
      QuietFlow(f, g);
    }
  }

  lemma SignalKeeps(f: Flow)
    requires FlowOk(f)
    ensures FlowOk(Signal(f)) && FlowOk(Break(f)) && FlowOk(Crash(f))
  {
    hide RunOk;
  }

  /** Every step keeps a run sound. */
  lemma StepKeeps(f: Flow, e: FlowEvent)
    requires FlowOk(f)
    ensures FlowOk(Step(f, e))
  {
    hide FlowOk, Claim, Advance, Join, Signal, Break, RequestCancel, Crash, Recover, Confirm, FailRun, EraseSnapshot;
    match e
    case DoClaim(limit, signaled) => ClaimKeeps(f, limit, signaled);
    case DoAdvance => AdvanceKeeps(f);
    case DoJoin(u, o) => JoinKeeps(f, u, o);
    case DoSignal => SignalKeeps(f);
    case DoBreak => SignalKeeps(f);
    case DoRequestCancel => CancelKeeps(f);
    case DoCrash => SignalKeeps(f);
    case DoRecover => if f.driver == Gone { RecoverKeeps(f); }
    case DoConfirm => ConfirmKeeps(f);
    case DoFailRun => FailRunKeeps(f);
    case DoEraseSnapshot => EraseKeeps(f);
  }
}

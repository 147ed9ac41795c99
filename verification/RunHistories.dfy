/** Deployment runs over whole histories: any sequence of steps, errors, requests, crashes and restarts. */
module RunHistories {
  import opened Numbers
  import opened Options
  import opened Planning
  import opened Waves
  import opened Runs
  import opened RunSafety

  function Replay(f: Flow, es: seq<FlowEvent>): Flow
    decreases |es|
  {
    if es == [] then f else Replay(Step(f, es[0]), es[1..])
  }

  lemma {:induction false} ReplayKeeps(f: Flow, es: seq<FlowEvent>)
    requires FlowOk(f)
    ensures FlowOk(Replay(f, es))
    decreases |es|
  {
    hide FlowOk, Step;
    if es != [] {
      StepKeeps(f, es[0]);
      ReplayKeeps(Step(f, es[0]), es[1..]);
    }
  }

  // ---------------------------------------------------------------- a new run

  lemma {:induction false} NewRowOf(items: seq<Item>, x: Item)
    requires Ascending(Apart(), items) && x in items
    ensures x.unitId in NewRows(items) && NewRows(items)[x.unitId] == NewRow(x)
  {
    hide NewRow;
    var before, last := items[..|items| - 1], items[|items| - 1];
    if x != last {
      var i :| 0 <= i < |items| && items[i] == x;
      assert before[i] == x;
      NewRowOf(before, x);
      assert Apart()(items[i], items[|items| - 1]);
    }
  }

  lemma {:induction false} NewRowFor(items: seq<Item>, u: int)
    ensures u in NewRows(items) ==> exists x :: x in items && x.unitId == u
  {
    hide NewRow;
    if u in NewRows(items) {
      var before, last := items[..|items| - 1], items[|items| - 1];
      if u == last.unitId {
        assert last in items;
      } else {
        NewRowFor(before, u);
        var x :| x in before && x.unitId == u;
        assert x in items;
      }
    }
  }

  lemma NewRowsOf(items: seq<Item>)
    requires Ascending(Apart(), items)
    ensures forall x :: x in items ==> x.unitId in NewRows(items) && NewRows(items)[x.unitId] == NewRow(x)
    ensures forall u :: u in NewRows(items) ==> exists x :: x in items && x.unitId == u
  {
    hide NewRows, NewRow;
    forall x | x in items ensures x.unitId in NewRows(items) && NewRows(items)[x.unitId] == NewRow(x) {
      NewRowOf(items, x);
    }
    forall u | u in NewRows(items) ensures exists x :: x in items && x.unitId == u {
      NewRowFor(items, u);
    }
  }

  lemma NewFlowOk(plan: Plan, targets: map<int, TargetUnit>, observed: StateIndex)
    requires Sound(plan.items)
    ensures FlowOk(NewFlow(plan, targets, observed))
  {
    hide Before;
    var run := NewFlow(plan, targets, observed).run;
    NewRowsOf(plan.items);
    assert RowsOf(plan.items, run.rows);
    forall i, j | Place(WavesOf(run), i, j) ensures At(WavesOf(run), run.rows, i, j) == Pending {
      PlaceHasRow(run, i, j);
    }
    forall u | u in run.rows ensures run.rows[u].status == Pending || run.rows[u].status == Skipped {
      var x :| x in plan.items && x.unitId == u;
    }
    NothingUnderway(run.rows);
  }

  // ---------------------------------------------------------------- the scheduler

  /** In plan order the started units come first; a unit has started only if every unit of every earlier stage (the
      stops first) has succeeded; and no more units are under way than the limit read at the claim allows. */
  ghost predicate Scheduled(run: Run) {
    && (forall x, y :: (x in run.plan.items && y in run.plan.items && Executable(x) && Executable(y)
            && Before(x, y) && Started(StatusOf(run.rows, y.unitId))) ==> Started(StatusOf(run.rows, x.unitId)))
    && (forall x, y :: (x in run.plan.items && y in run.plan.items && Executable(x) && Executable(y)
            && EarlierGroup(x, y) && Started(StatusOf(run.rows, y.unitId))) ==> StatusOf(run.rows, x.unitId) == Succeeded)
    && |Underway(run.rows)| <= run.limit
  }

  lemma SchedulerSafety(f: Flow)
    requires FlowOk(f)
    ensures Scheduled(f.run)
  {
    hide ExecutionWaves, Sound, RowsOf, EarlierGroup, Before, StatusOf;
    var items, rows, waves := f.run.plan.items, f.run.rows, ExecutionWaves(f.run.plan.items);
    forall x, y | x in items && y in items && Executable(x) && Executable(y) && Started(StatusOf(rows, y.unitId))
      ensures Before(x, y) ==> Started(StatusOf(rows, x.unitId))
      ensures EarlierGroup(x, y) ==> StatusOf(rows, x.unitId) == Succeeded
    {
      PlaceOf(items, x);
      PlaceOf(items, y);
      var i, j :| Place(waves, i, j) && waves[i][j] == x;
      var k, l :| Place(waves, k, l) && waves[k][l] == y;
      PlacesInOrder(items, i, j, k, l);
      assert At(waves, rows, i, j) == StatusOf(rows, x.unitId);
      assert At(waves, rows, k, l) == StatusOf(rows, y.unitId);
    }
  }

  lemma {:induction false} LimitKept(f: Flow, es: seq<FlowEvent>, bound: int)
    requires f.run.limit <= bound && 1 <= bound && forall e :: e in es && e.DoClaim? ==> e.limit <= bound
    ensures Replay(f, es).run.limit <= bound
    decreases |es|
  {
    hide Step;
    if es != [] {
      assert es[0] in es;
      StepLimit(f, es[0], bound);
      LimitKept(Step(f, es[0]), es[1..], bound);
    }
  }

  lemma StepLimit(f: Flow, e: FlowEvent, bound: int)
    requires f.run.limit <= bound && 1 <= bound && (e.DoClaim? ==> e.limit <= bound)
    ensures Step(f, e).run.limit <= bound
  {
    hide ExecutionWaves, MarkNotStarted, Abandon, EraseReleases;
  }

  /** ... at every point of every history of a run made from a plan: and when no claim read a limit above the bound, no
      more units are ever under way than the bound, or than one. */
  lemma ScheduledThroughout(input: PlanInput, targets: map<int, TargetUnit>, observed: StateIndex,
                            es: seq<FlowEvent>, bound: int)
    requires BuildPlan(input).Ok?
    requires forall e :: e in es && e.DoClaim? ==> e.limit <= bound
    ensures var run := Replay(NewFlow(BuildPlan(input).value, targets, observed), es).run;
            Scheduled(run) && |Underway(run.rows)| <= Max(1, bound)
  {
    hide FlowOk, BuildPlan, Sound;
    var f := NewFlow(BuildPlan(input).value, targets, observed);
    PlanIsSound(input);
    NewFlowOk(BuildPlan(input).value, targets, observed);
    ReplayKeeps(f, es);
    SchedulerSafety(Replay(f, es));
    LimitKept(f, es, Max(1, bound));
  }

  // ---------------------------------------------------------------- rows only move on

  function Progress(s: UnitStatus): nat {
    match s case Pending => 0 case InProgress => 1 case _ => 2
  }

  /** Rows stay, move on, and do not change once they are done. */
  ghost predicate MovesOn(a: Rows, b: Rows) {
    && a.Keys == b.Keys
    && forall u :: u in a ==>
         && Progress(a[u].status) <= Progress(b[u].status)
         && (Progress(a[u].status) == 2 ==> b[u].status == a[u].status)
  }

  lemma BulkMovesOn(rows: Rows)
    ensures MovesOn(rows, MarkNotStarted(rows)) && MovesOn(rows, Abandon(rows)) && MovesOn(rows, EraseReleases(rows))
    ensures MovesOn(rows, rows)
  {
  }

  lemma ClaimIsStep(f: Flow, limit: int, signaled: bool)
    ensures Step(f, DoClaim(limit, signaled)) == Claim(f, limit, signaled)
  {
    hide Claim;
  }

  lemma AdvanceIsStep(f: Flow)
    ensures Step(f, DoAdvance) == Advance(f)
  {
    hide Advance;
  }

  lemma JoinIsStep(f: Flow, u: int, o: Outcome)
    ensures Step(f, DoJoin(u, o)) == Join(f, u, o)
  {
    hide Join;
  }

  lemma StepMovesOn(f: Flow, e: FlowEvent)
    ensures MovesOn(f.run.rows, Step(f, e).run.rows)
    ensures Step(f, e).run.plan == f.run.plan
  {
    BulkMovesOn(f.run.rows);
    hide MovesOn, ExecutionWaves, MarkNotStarted, Abandon, EraseReleases, Advance, Join;
    AdvanceMovesOn(f);
    if e.DoJoin? { JoinMovesOn(f, e.unit, e.outcome); }
  }

  lemma AdvanceMovesOn(f: Flow)
    ensures MovesOn(f.run.rows, Advance(f).run.rows) && Advance(f).run.plan == f.run.plan
  {
    BulkMovesOn(f.run.rows);
    hide MovesOn, MarkNotStarted, BeginWave, EndWave, StartUnit, Finalize, MayStart, HasPending;
    if f.driver.Live? {
      var e := f.driver.exec;
      BeginWaveRun(f, e);
      FinalizeRows(f, e);
      if MayStart(f.run, e) { StartMovesOn(f, e); }
    }
  }

  lemma BeginWaveRun(f: Flow, e: Exec)
    ensures BeginWave(f, e).run == f.run
  {
    hide WavesOf;
  }

  lemma FinalizeRows(f: Flow, e: Exec)
    ensures Finalize(f, e).run.rows == f.run.rows && Finalize(f, e).run.plan == f.run.plan
  {
    hide FinalStatus, TaskAfter, GoodRows, BadRows, UnknownRows;
  }

  lemma StartMovesOn(f: Flow, e: Exec)
    requires MayStart(f.run, e)
    ensures HasPending(f.run, e)
    ensures MovesOn(f.run.rows, StartUnit(f, e).run.rows) && StartUnit(f, e).run.plan == f.run.plan
  {
    hide WavesOf;
  }

  lemma JoinMovesOn(f: Flow, u: int, o: Outcome)
    ensures MovesOn(f.run.rows, Join(f, u, o).run.rows) && Join(f, u, o).run.plan == f.run.plan
  {
  }

  lemma {:induction false} ReplayMovesOn(f: Flow, es: seq<FlowEvent>)
    ensures MovesOn(f.run.rows, Replay(f, es).run.rows)
    decreases |es|
  {
    hide Step;
    if es == [] {
      BulkMovesOn(f.run.rows);
    } else {
      StepMovesOn(f, es[0]);
      var g := Step(f, es[0]);
      ReplayMovesOn(g, es[1..]);
      MovesOnTransitive(f.run.rows, g.run.rows, Replay(f, es).run.rows);
    }
  }

  lemma MovesOnTransitive(a: Rows, b: Rows, c: Rows)
    requires MovesOn(a, b) && MovesOn(b, c)
    ensures MovesOn(a, c)
  {
    forall u | u in a ensures u in b && u in c {
      assert u in b.Keys;
    }
  }

  /** How often unit u is started in a history. */
  function Starts(f: Flow, es: seq<FlowEvent>, u: int): nat
    decreases |es|
  {
    if es == [] then 0 else
    var g := Step(f, es[0]);
    (if StatusOf(f.run.rows, u) != InProgress && StatusOf(g.run.rows, u) == InProgress then 1 else 0) + Starts(g, es[1..], u)
  }

  /** No unit is ever started twice. */
  lemma {:induction false} StartedAtMostOnce(f: Flow, es: seq<FlowEvent>, u: int)
    ensures Starts(f, es, u) <= 1
    ensures StatusOf(f.run.rows, u) != Pending ==> Starts(f, es, u) == 0
    decreases |es|
  {
    hide Step;
    if es != [] {
      var g := Step(f, es[0]);
      StepMovesOn(f, es[0]);
      StartedAtMostOnce(g, es[1..], u);
      RowMoves(f.run.rows, g.run.rows, u);
    }
  }

  lemma RowMoves(a: Rows, b: Rows, u: int)
    requires MovesOn(a, b)
    ensures Progress(StatusOf(a, u)) <= Progress(StatusOf(b, u))
    ensures Progress(StatusOf(a, u)) == 2 ==> StatusOf(b, u) == StatusOf(a, u)
  {
    assert u in a <==> u in b by { assert u in a.Keys <==> u in b.Keys; }
  }

  // ---------------------------------------------------------------- after a failure or a cancellation

  /** The executor has seen a failure or a cancellation, or is not there any more. */
  predicate Halted(f: Flow) {
    match f.driver
    case Broken => true
    case Gone => true
    case Waiting => !Claimable(f.run)
    case Live(e) =>
      if e.phase == Closing || e.phase == Finalizing then true
      else if e.phase == NextWave then e.failed || e.canceled
      else e.failureSeen || e.cancelSeen
  }

  ghost predicate SameStarted(a: Rows, b: Rows) {
    forall u :: Started(StatusOf(a, u)) == Started(StatusOf(b, u))
  }

  lemma BulkStartsNothing(rows: Rows)
    ensures SameStarted(rows, MarkNotStarted(rows)) && SameStarted(rows, Abandon(rows)) && SameStarted(rows, EraseReleases(rows))
    ensures SameStarted(rows, rows)
  {
  }

  lemma HaltedStep(f: Flow, e: FlowEvent)
    requires Halted(f)
    ensures Halted(Step(f, e))
    ensures SameStarted(f.run.rows, Step(f, e).run.rows)
  {
    if e.DoAdvance? {
      HaltedAdvance(f);
      hide *;
      AdvanceIsStep(f);
    } else if e.DoJoin? {
      HaltedJoin(f, e.unit, e.outcome);
      hide *;
      JoinIsStep(f, e.unit, e.outcome);
    } else {
      BulkStartsNothing(f.run.rows);
      hide SameStarted, MarkNotStarted, Abandon, EraseReleases;
    }
  }

  lemma HaltedAdvance(f: Flow)
    requires Halted(f)
    ensures Halted(Advance(f)) && SameStarted(f.run.rows, Advance(f).run.rows)
  {
    BulkStartsNothing(f.run.rows);
    hide SameStarted, ExecutionWaves, MarkNotStarted, FinalStatus;
  }

  lemma HaltedJoin(f: Flow, u: int, o: Outcome)
    requires Halted(f)
    ensures Halted(Join(f, u, o)) && SameStarted(f.run.rows, Join(f, u, o).run.rows)
  {
  }

  /** Once a failure or a cancellation has been seen, no history starts another unit. */
  lemma {:induction false} NothingStartsAfterHalt(f: Flow, es: seq<FlowEvent>)
    requires Halted(f)
    ensures SameStarted(f.run.rows, Replay(f, es).run.rows)
    decreases |es|
  {
    hide Step, Halted;
    if es != [] {
      HaltedStep(f, es[0]);
      NothingStartsAfterHalt(Step(f, es[0]), es[1..]);
    }
  }

  /** A raised signal, or a request that is stored before the next wave, is not overlooked: the executor is not starting
      units now, and looks before it does so again. */
  predicate Noticed(f: Flow) {
    Halted(f) || (f.driver.Live? && f.driver.exec.phase != Starting &&
                  (f.driver.exec.signal || (f.run.cancelRequested && f.driver.exec.phase == NextWave)))
  }

  lemma NoticedStep(f: Flow, e: FlowEvent)
    requires Noticed(f)
    ensures Noticed(Step(f, e)) && SameStarted(f.run.rows, Step(f, e).run.rows)
  {
    if Halted(f) {
      HaltedStep(f, e);
      hide *;
      HaltedIsNoticed(Step(f, e));
    } else if e.DoAdvance? {
      NoticedAdvance(f);
      hide *;
      AdvanceIsStep(f);
    } else if e.DoJoin? {
      NoticedJoin(f, e.unit, e.outcome);
      hide *;
      JoinIsStep(f, e.unit, e.outcome);
    } else {
      BulkStartsNothing(f.run.rows);
      hide SameStarted, MarkNotStarted, Abandon, EraseReleases;
    }
  }

  lemma HaltedIsNoticed(f: Flow)
    ensures Halted(f) ==> Noticed(f)
  {
  }

  lemma NoticedAdvance(f: Flow)
    requires Noticed(f) && !Halted(f)
    ensures Noticed(Advance(f)) && SameStarted(f.run.rows, Advance(f).run.rows)
  {
    BulkStartsNothing(f.run.rows);
    hide SameStarted, ExecutionWaves, MarkNotStarted, FinalStatus, StartUnit;
  }

  lemma NoticedJoin(f: Flow, u: int, o: Outcome)
    requires Noticed(f)
    ensures Noticed(Join(f, u, o)) && SameStarted(f.run.rows, Join(f, u, o).run.rows)
  {
  }

  /** Cancellation takes effect: once the signal is raised, or cancellation is stored between two waves, no history
      starts another unit, except for those that the executor is about to start at that very moment. */
  lemma {:induction false} NothingStartsAfterSignal(f: Flow, es: seq<FlowEvent>)
    requires Noticed(f)
    ensures SameStarted(f.run.rows, Replay(f, es).run.rows)
    decreases |es|
  {
    hide Step, Noticed;
    if es != [] {
      NoticedStep(f, es[0]);
      NothingStartsAfterSignal(Step(f, es[0]), es[1..]);
    }
  }

  /** Raising the signal between two looks is noticed; so is a request stored between two waves. */
  lemma SignalNoticed(f: Flow)
    requires f.driver.Live? && f.driver.exec.phase != Starting
    ensures Noticed(Step(f, DoSignal))
    ensures f.driver.exec.phase == NextWave && f.run.status == Running ==> Noticed(Step(f, DoRequestCancel))
  {
    hide MarkNotStarted;
  }

  /** A request for cancellation is stored in a running run, once and for good, and ends a queued one; a run that is being
      reconciled or over is left as it is. */
  lemma CancelDecided(f: Flow)
    ensures var g := Step(f, DoRequestCancel);
            && g.driver == f.driver && g.run.plan == f.run.plan && g.run.snapshot == f.run.snapshot
            && (f.run.status == Running ==> g.run == f.run.(cancelRequested := true))
            && (f.run.status == Queued && !f.run.cancelRequested ==>
                  && g.run.cancelRequested && g.run.status == Canceled && (f.run.task == TaskQueued ==> g.run.task == TaskCanceled)
                  && (forall u :: u in g.run.rows <==> u in f.run.rows)
                  && forall u :: u in g.run.rows ==>
                       g.run.rows[u].status == if f.run.rows[u].status == Pending then NotStarted else f.run.rows[u].status)
            && (f.run.status != Queued && f.run.status != Running ==> g == f)
  {
  }

  lemma RequestStays(f: Flow, e: FlowEvent)
    ensures f.run.cancelRequested ==> Step(f, e).run.cancelRequested
  {
    hide ExecutionWaves, MarkNotStarted, Abandon, EraseReleases, FinalStatus, StoppedStatus;
  }

  /** A stored failure has been seen; so has a unit lost to cancellation. */
  lemma FailureHalts(f: Flow, u: int)
    requires FlowOk(f) && u in f.run.rows
    requires f.run.rows[u].status == Failed || f.run.rows[u].status == CanceledUnknown || f.run.rows[u].status == NotStarted
    ensures Halted(f)
  {
    hide ExecutionWaves, Sound, Barrier, StartedFirst, ReleasesOf;
    if f.driver.Live? && !Halted(f) {
      var e, waves := f.driver.exec, WavesOf(f.run);
      RowHasPlace(f.run, u);
      var i, j :| Place(waves, i, j) && waves[i][j].unitId == u;
      assert At(waves, f.run.rows, i, j) == f.run.rows[u].status;
      if i == e.begun - 1 {
        WaveStatus(waves, f.run.rows, i, j, e);
      }
    }
  }

  lemma WaveStatus(waves: seq<seq<Item>>, rows: Rows, i: int, j: int, e: Exec)
    requires Place(waves, i, j)
    ensures WaveOk(waves, rows, i, e) ==> InWave(At(waves, rows, i, j), j, e)
  {
  }

  lemma HaltedStartsNone(f: Flow, e: FlowEvent, u: int)
    ensures Halted(f) && StatusOf(f.run.rows, u) != InProgress ==> StatusOf(Step(f, e).run.rows, u) != InProgress
  {
    if Halted(f) {
      HaltedStep(f, e);
      StepMovesOn(f, e);
      RowMoves(f.run.rows, Step(f, e).run.rows, u);
    }
  }

  /** The unit a step starts: nothing had failed, no cancellation had been seen, and there was room. */
  lemma StartIsSafe(f: Flow, e: FlowEvent, u: int)
    requires FlowOk(f)
    requires StatusOf(f.run.rows, u) != InProgress && StatusOf(Step(f, e).run.rows, u) == InProgress
    ensures !Halted(f) && f.driver.Live? && !f.driver.exec.cancelSeen && !f.driver.exec.failureSeen
    ensures forall v :: v in f.run.rows ==> f.run.rows[v].status !in {Failed, CanceledUnknown, NotStarted}
    ensures StatusOf(f.run.rows, u) == Pending && |Underway(f.run.rows)| < f.run.limit
  {
    HaltedStartsNone(f, e, u);
    forall v | v in f.run.rows ensures f.run.rows[v].status !in {Failed, CanceledUnknown, NotStarted} {
      if f.run.rows[v].status in {Failed, CanceledUnknown, NotStarted} { FailureHalts(f, v); }
    }
    StartsOnlyHere(f, e, u);
  }

  lemma StartsOnlyHere(f: Flow, e: FlowEvent, u: int)
    requires FlowOk(f) && !Halted(f)
    requires StatusOf(f.run.rows, u) != InProgress && StatusOf(Step(f, e).run.rows, u) == InProgress
    ensures f.driver.Live? && f.driver.exec.phase == Starting && MayStart(f.run, f.driver.exec)
    ensures StatusOf(f.run.rows, u) == Pending && |Underway(f.run.rows)| < f.run.limit
  {
    hide ExecutionWaves, Sound, RowsOf, Barrier, StartedFirst, ReleasesOf;
  }

  // ---------------------------------------------------------------- the run's status

  function Rank(s: RunStatus): nat {
    match s case Queued => 0 case Running => 1 case Reconciling => 2 case _ => 3
  }

  lemma StepRanks(f: Flow, e: FlowEvent)
    requires FlowOk(f)
    ensures Rank(f.run.status) <= Rank(Step(f, e).run.status)
    ensures !Ongoing(f.run.status) ==> Step(f, e).run.status == f.run.status
  {
    hide ExecutionWaves, Sound, RowsOf, Barrier, StartedFirst, ReleasesOf, RowsFit, TaskFits;
  }

  /** A terminal status never changes, and no status goes back. */
  lemma {:induction false} StatusMovesOn(f: Flow, es: seq<FlowEvent>)
    requires FlowOk(f)
    ensures Rank(f.run.status) <= Rank(Replay(f, es).run.status)
    ensures !Ongoing(f.run.status) ==> Replay(f, es).run.status == f.run.status
    decreases |es|
  {
    hide Step, FlowOk;
    if es != [] {
      StepKeeps(f, es[0]);
      StepRanks(f, es[0]);
      StatusMovesOn(Step(f, es[0]), es[1..]);
    }
  }

  /** How often a run is claimed in a history. */
  function Claims(f: Flow, es: seq<FlowEvent>): nat
    decreases |es|
  {
    if es == [] then 0 else
    var g := Step(f, es[0]);
    (if !f.driver.Live? && g.driver.Live? then 1 else 0) + Claims(g, es[1..])
  }

  lemma ClaimOnce(f: Flow, e: FlowEvent)
    requires FlowOk(f) && !f.driver.Live? && Step(f, e).driver.Live?
    ensures f.run.status == Queued && Step(f, e).run.status == Running
  {
    hide ExecutionWaves, Sound, RowsOf, Barrier, StartedFirst, ReleasesOf, RowsFit, TaskFits;
  }

  lemma {:induction false} ClaimedAtMostOnce(f: Flow, es: seq<FlowEvent>)
    requires FlowOk(f)
    ensures Claims(f, es) <= 1
    ensures f.run.status != Queued ==> Claims(f, es) == 0
    decreases |es|
  {
    hide Step, FlowOk;
    if es != [] {
      var g := Step(f, es[0]);
      StepKeeps(f, es[0]);
      StepRanks(f, es[0]);
      if !f.driver.Live? && g.driver.Live? { ClaimOnce(f, es[0]); }
      ClaimedAtMostOnce(g, es[1..]);
    }
  }

  /** The run has lost its executor to a crash while it was running. */
  predicate Interrupted(f: Flow) {
    f.run.status == Reconciling || (f.run.status == Running && f.driver == Gone)
  }

  lemma InterruptedStep(f: Flow, e: FlowEvent)
    requires FlowOk(f) && Interrupted(f) && e != DoConfirm
    ensures Interrupted(Step(f, e))
  {
    hide ExecutionWaves, Sound, RowsOf, Barrier, StartedFirst, ReleasesOf, RowsFit, TaskFits;
  }

  /** An interrupted run stays open until an operator confirms that it has stopped. */
  lemma {:induction false} InterruptedUntilConfirmed(f: Flow, es: seq<FlowEvent>)
    requires FlowOk(f) && Interrupted(f) && DoConfirm !in es
    ensures Interrupted(Replay(f, es)) && Ongoing(Replay(f, es).run.status)
    decreases |es|
  {
    hide Step, FlowOk;
    if es != [] {
      assert es[0] in es;
      StepKeeps(f, es[0]);
      InterruptedStep(f, es[0]);
      InterruptedUntilConfirmed(Step(f, es[0]), es[1..]);
    }
  }

  // ---------------------------------------------------------------- accounting

  /** A queued run has only pending and skipped units. A run that is over, or waits for its operator, has none left to
      do, and the three counters part its units. */
  lemma Accounting(f: Flow)
    requires FlowOk(f)
    ensures f.run.status == Queued ==> Untouched(f.run.rows)
    ensures f.run.status == Reconciling || !Ongoing(f.run.status) ==>
              Closed(f.run.rows) && |GoodRows(f.run.rows)| + |BadRows(f.run.rows)| + |UnknownRows(f.run.rows)| == |f.run.rows|
  {
    if f.run.status != Queued && f.run.status != Running {
      CountersPartition(f.run.rows);
    }
  }

  /** What the executor reports at the end: success exactly when every unit succeeded or was skipped. */
  lemma FinalizeReports(f: Flow)
    requires FlowOk(f) && f.driver.Live? && f.driver.exec.phase == Finalizing
    ensures var rows, status := f.run.rows, Advance(f).run.status;
            && (status == Success <==> AllGood(rows))
            && (status == PartialFailed <==> !AllGood(rows) && GoodRows(rows) != {})
            && (status == Canceled <==> !AllGood(rows) && GoodRows(rows) == {} && (f.driver.exec.canceled || UnknownRows(rows) != {}))
            && !Ongoing(status)
    ensures var status, task := Advance(f).run.status, Advance(f).run.task;
            && (task == TaskSuccess <==> status == Success)
            && (task == TaskFailed <==> status != Success && status != Canceled && !f.driver.exec.canceled)
  {
    hide ExecutionWaves, Sound, RowsOf, Barrier, StartedFirst, ReleasesOf, AllGood;
    CountersPartition(f.run.rows);
  }

  /** Rows whose unit was under way have an unknown outcome, those that were pending were not started, and the others
      stand. */
  ghost predicate CutShort(a: Rows, b: Rows) {
    && a.Keys == b.Keys
    && forall u :: u in a ==>
         b[u].status == match a[u].status case InProgress => CanceledUnknown case Pending => NotStarted case s => s
  }

  /** A crash, a restart and the operator's confirmation, one after the other: what becomes of the units, and what the
      run is reported as. */
  lemma CrashOutcome(f: Flow)
    requires FlowOk(f) && f.run.status == Running
    ensures var g := Step(Step(Step(f, DoCrash), DoRecover), DoConfirm); var a := f.run.rows;
            && CutShort(a, g.run.rows)
            && (g.run.status == PartialFailed <==> GoodRows(a) != {})
            && (g.run.status == Canceled <==> GoodRows(a) == {} && (Underway(a) != {} || UnknownRows(a) != {}))
            && !Ongoing(g.run.status)
  {
    StoppedBy(f.run.rows);
    hide FlowOk, GoodRows, UnknownRows, Underway, CutShort, Abandon, StoppedStatus;
  }

  lemma Abandoned(a: Rows)
    ensures CutShort(a, Abandon(a)) && GoodRows(Abandon(a)) == GoodRows(a) && UnknownRows(Abandon(a)) == UnknownRows(a) + Underway(a)
  {
    var b := Abandon(a);
    forall u ensures (u in GoodRows(b) <==> u in GoodRows(a)) && (u in UnknownRows(b) <==> u in UnknownRows(a) + Underway(a)) {
    }
  }

  /** An error of the spawned task, and the clean-up that follows, cut the run short in the same way. */
  lemma ErrorOutcome(f: Flow)
    requires FlowOk(f) && f.driver.Live?
    ensures var g := Step(Step(f, DoBreak), DoFailRun); var a := f.run.rows;
            && CutShort(a, g.run.rows)
            && (g.run.status == PartialFailed <==> GoodRows(a) != {})
            && (g.run.status == Canceled <==> GoodRows(a) == {} && (Underway(a) != {} || UnknownRows(a) != {}))
            && !Ongoing(g.run.status)
  {
    assert f.run.status == Running;
    BrokenRun(f);
    StoppedBy(f.run.rows);
    hide FlowOk, GoodRows, UnknownRows, Underway, CutShort, Abandon, StoppedStatus;
  }

  lemma BrokenRun(f: Flow)
    requires f.driver.Live? && f.run.status == Running
    ensures var g := Step(Step(f, DoBreak), DoFailRun).run; var b := Abandon(f.run.rows);
            g.rows == b && g.status == StoppedStatus(|GoodRows(b)|, |UnknownRows(b)|)
  {
    hide GoodRows, UnknownRows, Abandon, StoppedStatus;
  }

  lemma StoppedBy(a: Rows)
    ensures var b := Abandon(a); var status := StoppedStatus(|GoodRows(b)|, |UnknownRows(b)|);
            && CutShort(a, b) && !Ongoing(status)
            && (status == PartialFailed <==> GoodRows(a) != {})
            && (status == Canceled <==> GoodRows(a) == {} && (Underway(a) != {} || UnknownRows(a) != {}))
  {
    Abandoned(a);
    hide GoodRows, UnknownRows, Underway, CutShort, Abandon;
    assert UnknownRows(a) + Underway(a) == {} <==> Underway(a) == {} && UnknownRows(a) == {};
  }

  /** What a restart makes of a run: a queued one is over, with its pending units not started; a running one waits for an
      operator, cut short; any other is left alone. */
  lemma RecoverDecided(f: Flow)
    requires f.driver == Gone
    ensures var g := Step(f, DoRecover); var a, b := f.run, g.run;
            && g.driver == Gone && b == a.(status := b.status, task := b.task, rows := b.rows)
            && (a.status == Queued ==>
                  && b.status == Canceled && (a.task == TaskQueued ==> b.task == TaskCanceled)
                  && (forall u :: u in b.rows <==> u in a.rows)
                  && forall u :: u in b.rows ==>
                       b.rows[u] == if a.rows[u].status == Pending then a.rows[u].(status := NotStarted) else a.rows[u])
            && (a.status == Running ==>
                  b.status == Reconciling && (a.task == TaskRunning ==> b.task == TaskFailed) && CutShort(a.rows, b.rows))
            && (a.status != Queued && a.status != Running ==> g == f)
  {
    Abandoned(f.run.rows);
    hide Abandon, CutShort;
  }

  /** What an error of the spawned task makes of a run that is still queued, or was ended by somebody else. */
  lemma BrokenDecided(f: Flow)
    requires FlowOk(f) && f.driver == Broken
    ensures var g := Step(f, DoFailRun); var a, b := f.run, g.run;
            && g.driver == Gone
            && (a.status == Queued || a.status == Running ==>
                  && b == a.(status := b.status, task := b.task, rows := b.rows) && CutShort(a.rows, b.rows)
                  && !Ongoing(b.status) && b.task == (if b.status == Canceled then TaskCanceled else TaskFailed)
                  && (b.status == PartialFailed <==> GoodRows(a.rows) != {})
                  && (b.status == Canceled <==> GoodRows(a.rows) == {} && (Underway(a.rows) != {} || UnknownRows(a.rows) != {})))
            && (a.status != Queued && a.status != Running ==> b == a)
  {
    StoppedBy(f.run.rows);
    assert f.run.status == Queued ==> f.run.task == TaskQueued;
    assert f.run.status == Running ==> f.run.task == TaskRunning;
    hide FlowOk, GoodRows, UnknownRows, Underway, CutShort, Abandon, StoppedStatus;
  }

  /** A run canceled before it was claimed is over, and no later history starts any of its units. */
  lemma CanceledBeforeClaim(f: Flow, es: seq<FlowEvent>)
    requires FlowOk(f) && f.run.status == Queued && !f.run.cancelRequested
    ensures var g := Replay(RequestCancel(f), es);
            && g.run.status == Canceled && forall u :: u in g.run.rows ==> !Started(g.run.rows[u].status)
  {
    var g := RequestCancel(f);
    CancelKeeps(f);
    assert !Claimable(g.run);
    forall u ensures !Started(StatusOf(g.run.rows, u)) {
      if u in f.run.rows { assert f.run.rows[u].status == Pending || f.run.rows[u].status == Skipped; }
    }
    hide FlowOk, RequestCancel;
    StatusMovesOn(g, es);
    NothingStartsAfterHalt(g, es);
    forall u | u in Replay(g, es).run.rows ensures !Started(Replay(g, es).run.rows[u].status) {
      assert !Started(StatusOf(Replay(g, es).run.rows, u));
    }
  }

  /** A run ends in success exactly when all its units are well and it is its executor that ends it. */
  lemma EndsInSuccess(f: Flow, e: FlowEvent)
    requires FlowOk(f) && Ongoing(f.run.status) && !Ongoing(Step(f, e).run.status)
    ensures Step(f, e).run.status == Success <==> AllGood(Step(f, e).run.rows) && f.driver.Live?
  {
    hide ExecutionWaves, Sound, RowsOf, Barrier, StartedFirst, ReleasesOf, AllGood, TaskFits;
    if f.driver.Live? && f.driver.exec.phase == Finalizing { CountersPartition(f.run.rows); }
  }

  lemma OneWave(x: Item)
    requires x.action != Skip
    ensures ExecutionWaves([x]) == [[x]] && Sound([x])
  {
    assert [x][..0] == [];
    assert ExecutionWaves([]) == [];
  }

  /** A run of one unit that works, up to the moment before its executor would close it. */
  function OneUnitWorks(plan: Plan, u: int): Flow {
    Step(Step(Step(Step(Step(Step(NewFlow(plan, map[], map[]), DoClaim(1, false)), DoAdvance), DoAdvance), DoAdvance), DoAdvance),
         DoJoin(u, Worked))
  }

  /** Where a run of one unit stands. */
  function OneUnit(plan: Plan, x: Item, status: UnitStatus, begun: nat, taken: nat, running: set<int>, phase: Phase): Flow {
    Flow(Run(plan, Running, TaskRunning, false, map[x.unitId := Row(x.release, status)], true, 1, map[], map[]),
         Live(Exec(begun, taken, running, false, false, false, false, false, phase)))
  }

  lemma OneUnitClaimed(x: Item, plan: Plan)
    requires x.action != Skip && plan.items == [x]
    ensures Claim(NewFlow(plan, map[], map[]), 1, false) == OneUnit(plan, x, Pending, 0, 0, {}, NextWave)
  {
    assert [x][..0] == [] && NewRows([]) == map[];
    assert NewRows([x]) == map[x.unitId := NewRow(x)];
  }

  lemma OneUnitBegins(x: Item, plan: Plan)
    requires x.action != Skip && plan.items == [x]
    ensures Advance(OneUnit(plan, x, Pending, 0, 0, {}, NextWave)) == OneUnit(plan, x, Pending, 1, 0, {}, Checking)
    ensures Advance(OneUnit(plan, x, Pending, 1, 0, {}, Checking)) == OneUnit(plan, x, Pending, 1, 0, {}, Starting)
  {
    OneWave(x);
    hide ExecutionWaves, Sound;
  }

  lemma OneUnitStarts(x: Item, plan: Plan)
    requires x.action != Skip && plan.items == [x]
    ensures Advance(OneUnit(plan, x, Pending, 1, 0, {}, Starting)) == OneUnit(plan, x, InProgress, 1, 1, {x.unitId}, Starting)
    ensures Advance(OneUnit(plan, x, InProgress, 1, 1, {x.unitId}, Starting))
         == OneUnit(plan, x, InProgress, 1, 1, {x.unitId}, Joining)
  {
    OneWave(x);
    hide ExecutionWaves, Sound;
    assert {} + {x.unitId} == {x.unitId};
    assert WavesOf(OneUnit(plan, x, Pending, 1, 0, {}, Starting).run) == [[x]];
  }

  lemma OneUnitEnds(x: Item, plan: Plan)
    ensures Join(OneUnit(plan, x, InProgress, 1, 1, {x.unitId}, Joining), x.unitId, Worked)
         == OneUnit(plan, x, Succeeded, 1, 1, {}, Checking)
  {
    assert {x.unitId} - {x.unitId} == {};
  }

  lemma OneUnitSucceeds(x: Item, plan: Plan)
    requires x.action != Skip && plan.items == [x]
    ensures OneUnitWorks(plan, x.unitId) == OneUnit(plan, x, Succeeded, 1, 1, {}, Checking)
  {
    OneUnitClaimed(x, plan);
    OneUnitBegins(x, plan);
    OneUnitStarts(x, plan);
    OneUnitEnds(x, plan);
    hide NewFlow, Claim, Advance, Join, OneUnit;
  }

  lemma CrashThenConfirm(f: Flow, u: int)
    requires f.run.status == Running && u in f.run.rows && AllGood(f.run.rows)
    ensures var g := Step(Step(Step(f, DoCrash), DoRecover), DoConfirm);
            g.run.rows == f.run.rows && g.run.status == PartialFailed
  {
    forall v | v in f.run.rows ensures Abandon(f.run.rows)[v] == f.run.rows[v] {
      assert Good(f.run.rows[v].status);
    }
    assert Abandon(f.run.rows) == f.run.rows;
    assert u in GoodRows(f.run.rows);
  }

  lemma ReplayNine(f: Flow, es: seq<FlowEvent>)
    requires |es| == 9
    ensures var g := Step(Step(Step(Step(Step(Step(f, es[0]), es[1]), es[2]), es[3]), es[4]), es[5]);
            Replay(f, es) == Step(Step(Step(g, es[6]), es[7]), es[8])
  {
    hide Step;
    forall k | 0 <= k < 9 ensures Replay(f, es[..k + 1]) == Step(Replay(f, es[..k]), es[k]) {
      assert es[..k + 1] == es[..k] + [es[k]];
      ReplayAppend(f, es[..k], es[k]);
    }
    assert es[..9] == es && es[..0] == [];
    assert Replay(f, es[..3]) == Step(Step(Step(f, es[0]), es[1]), es[2]);
    assert Replay(f, es[..6]) == Step(Step(Step(Replay(f, es[..3]), es[3]), es[4]), es[5]);
    assert Replay(f, es[..9]) == Step(Step(Step(Replay(f, es[..6]), es[6]), es[7]), es[8]);
  }

  /** That it is the executor matters: a crash after the last unit came back well and before the run was closed leaves
      a run whose units all succeeded, and the operator's confirmation reports it as a partial failure. */
  lemma CrashHidesSuccess(x: Item, plan: Plan)
    requires x.action != Skip && plan.items == [x]
    ensures var es := [DoClaim(1, false), DoAdvance, DoAdvance, DoAdvance, DoAdvance, DoJoin(x.unitId, Worked),
                       DoCrash, DoRecover, DoConfirm];
            var f := Replay(NewFlow(plan, map[], map[]), es);
            f.run.rows == map[x.unitId := Row(x.release, Succeeded)] && f.run.status == PartialFailed
  {
    var es := [DoClaim(1, false), DoAdvance, DoAdvance, DoAdvance, DoAdvance, DoJoin(x.unitId, Worked),
               DoCrash, DoRecover, DoConfirm];
    OneUnitSucceeds(x, plan);
    hide Step, NewFlow;
    CrashThenConfirm(OneUnitWorks(plan, x.unitId), x.unitId);
    ReplayNine(NewFlow(plan, map[], map[]), es);
  }

  lemma {:induction false} ReplayAppend(f: Flow, es: seq<FlowEvent>, e: FlowEvent)
    ensures Replay(f, es + [e]) == Step(Replay(f, es), e)
    decreases |es|
  {
    hide Step;
    if es == [] {
      assert [e][1..] == [];
    } else {
      assert (es + [e])[1..] == es[1..] + [e];
      ReplayAppend(Step(f, es[0]), es[1..], e);
    }
  }
}

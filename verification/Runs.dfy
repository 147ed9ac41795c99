/** One deployment run: its rows in the database, and the executor that works through its plan. Every function that
    changes a run is one transaction of the orchestrator, or one step of the executor between two of them. */
module Runs {
  import opened Numbers
  import opened Options
  import opened Planning
  import opened Waves

  datatype RunStatus = Queued | Running | Reconciling | Success | PartialFailed | AllFailed | Canceled

  datatype UnitStatus = Pending | InProgress | Succeeded | Failed | Skipped | NotStarted | CanceledUnknown

  datatype TaskStatus = TaskQueued | TaskRunning | TaskSuccess | TaskFailed | TaskCanceled

  /** What the execution of a unit comes back with. */
  datatype Outcome = Worked | Broke | Lost

  datatype Row = Row(release: Option<int>, status: UnitStatus)

  type Rows = map<int, Row>

  /** The stored run. The plan stays readable here after the snapshot is erased; limit, targets and observed are
      history: the parallel limit read at the claim, and what the plan was made from. */
  datatype Run = Run(plan: Plan, status: RunStatus, task: TaskStatus, cancelRequested: bool, rows: Rows,
                     snapshot: bool, limit: nat, targets: map<int, TargetUnit>, observed: StateIndex)

  datatype Phase = NextWave | Checking | Starting | Joining | Closing | Finalizing

  /** The executor's memory. Its queues are suffixes of the waves, kept as positions: begun waves have been taken off
      the queue of waves, and taken items off the queue of the current wave. */
  datatype Exec = Exec(begun: nat, taken: nat, running: set<int>, failureSeen: bool, cancelSeen: bool,
                       failed: bool, canceled: bool, signal: bool, phase: Phase)

  /** The task spawned for the run: not yet at work, at work, stopped by an error, or no longer there. */
  datatype Driver = Waiting | Live(exec: Exec) | Broken | Gone

  datatype Flow = Flow(run: Run, driver: Driver)

  predicate Ongoing(s: RunStatus) { s == Queued || s == Running || s == Reconciling }

  predicate Good(s: UnitStatus) { s == Succeeded || s == Skipped }

  predicate Bad(s: UnitStatus) { s == Failed || s == NotStarted }

  /** The unit has been handed to the executor of units. */
  predicate Started(s: UnitStatus) { s == InProgress || s == Succeeded || s == Failed || s == CanceledUnknown }

  // ---------------------------------------------------------------- rows

  function StatusOf(rows: Rows, u: int): UnitStatus { if u in rows then rows[u].status else NotStarted }

  function GoodRows(rows: Rows): set<int> { set u | u in rows && Good(rows[u].status) }

  function BadRows(rows: Rows): set<int> { set u | u in rows && Bad(rows[u].status) }

  function UnknownRows(rows: Rows): set<int> { set u | u in rows && rows[u].status == CanceledUnknown }

  function Underway(rows: Rows): set<int> { set u | u in rows && rows[u].status == InProgress }

  function Settle(s: UnitStatus, from: UnitStatus, to: UnitStatus): UnitStatus { if s == from then to else s }

  /** Units still pending are marked as not started. */
  function MarkNotStarted(rows: Rows): Rows {
    map u | u in rows :: rows[u].(status := Settle(rows[u].status, Pending, NotStarted))
  }

  /** ... and units under way as canceled in an unknown state. */
  function Abandon(rows: Rows): Rows {
    map u | u in rows :: rows[u].(status := Settle(Settle(rows[u].status, Pending, NotStarted), InProgress, CanceledUnknown))
  }

  function EraseReleases(rows: Rows): Rows {
    map u | u in rows :: rows[u].(release := None)
  }

  function FinalStatus(good: nat, bad: nat, unknown: nat, canceled: bool): RunStatus {
    if bad == 0 && unknown == 0 then Success
    else if good > 0 then PartialFailed
    else if canceled || unknown > 0 then Canceled
    else AllFailed
  }

  /** The status of a run that ends without its executor. */
  function StoppedStatus(good: nat, unknown: nat): RunStatus {
    if good > 0 then PartialFailed else if unknown > 0 then Canceled else AllFailed
  }

  // ---------------------------------------------------------------- creation and claim

  function NewRow(x: Item): Row { Row(x.release, if x.action == Skip then Skipped else Pending) }

  function NewRows(items: seq<Item>): Rows {
    if items == [] then map[] else
    var last := items[|items| - 1];
    NewRows(items[..|items| - 1])[last.unitId := NewRow(last)]
  }

  function NewFlow(plan: Plan, targets: map<int, TargetUnit>, observed: StateIndex): Flow {
    Flow(Run(plan, Queued, TaskQueued, false, NewRows(plan.items), true, 0, targets, observed), Waiting)
  }

  predicate Claimable(run: Run) { run.status == Queued && run.task == TaskQueued }

  /** The spawned task claims the run; signaled says whether cancellation was signaled before. */
  function Claim(f: Flow, limit: int, signaled: bool): Flow {
    if f.driver != Waiting then f
    else if !Claimable(f.run) then f.(driver := Broken)
    else
      var signal := signaled || f.run.cancelRequested;
      Flow(f.run.(status := Running, task := TaskRunning, limit := Max(1, limit)),
           Live(Exec(0, 0, {}, false, false, false, signal, signal, NextWave)))
  }

  // ---------------------------------------------------------------- the executor

  function WavesOf(run: Run): seq<seq<Item>> { ExecutionWaves(run.plan.items) }

  predicate HasPending(run: Run, e: Exec) { Place(WavesOf(run), e.begun - 1, e.taken) }

  function EndWave(e: Exec): Exec {
    e.(canceled := e.canceled || e.cancelSeen, failed := e.failed || (e.failureSeen && !e.cancelSeen), phase := NextWave)
  }

  /** The head of the loop over waves. */
  function BeginWave(f: Flow, e: Exec): Flow {
    if e.begun >= |WavesOf(f.run)| || e.failed || e.canceled then f.(driver := Live(e.(phase := Closing)))
    else if f.run.cancelRequested then f.(driver := Live(e.(signal := true, canceled := true, phase := Closing)))
    else f.(driver := Live(e.(begun := e.begun + 1, taken := 0, running := {}, failureSeen := false,
                              cancelSeen := e.signal, phase := Checking)))
  }

  predicate MayStart(run: Run, e: Exec) {
    !e.failureSeen && !e.cancelSeen && |e.running| < run.limit && HasPending(run, e)
  }

  /** The next pending unit is started, unless its row is not pending. */
  function StartUnit(f: Flow, e: Exec): Flow
    requires HasPending(f.run, e)
  {
    var u := WavesOf(f.run)[e.begun - 1][e.taken].unitId;
    if StatusOf(f.run.rows, u) != Pending || u !in f.run.rows then f.(driver := Broken)
    else f.(run := f.run.(rows := f.run.rows[u := f.run.rows[u].(status := InProgress)]),
            driver := Live(e.(taken := e.taken + 1, running := e.running + {u})))
  }

  function TaskAfter(status: RunStatus, canceled: bool): TaskStatus {
    if status == Success then TaskSuccess
    else if canceled || status == Canceled then TaskCanceled
    else TaskFailed
  }

  function Finalize(f: Flow, e: Exec): Flow {
    var rows := f.run.rows;
    var status := FinalStatus(|GoodRows(rows)|, |BadRows(rows)|, |UnknownRows(rows)|, e.canceled);
    Flow(f.run.(status := if f.run.status == Running then status else f.run.status, task := TaskAfter(status, e.canceled)),
         Gone)
  }

  /** The executor's next step, where the code leaves it no choice. */
  function Advance(f: Flow): Flow {
    if !f.driver.Live? then f else
    var e := f.driver.exec;
    match e.phase
    case NextWave => BeginWave(f, e)
    case Checking =>
      if !HasPending(f.run, e) && e.running == {} then f.(driver := Live(EndWave(e)))
      else f.(driver := Live(e.(cancelSeen := e.cancelSeen || e.signal, phase := Starting)))
    case Starting =>
      if MayStart(f.run, e) then StartUnit(f, e) else f.(driver := Live(e.(phase := Joining)))
    case Joining => if e.running == {} then f.(driver := Live(EndWave(e))) else f
    case Closing =>
      f.(run := if e.failed || e.canceled then f.run.(rows := MarkNotStarted(f.run.rows)) else f.run,
         driver := Live(e.(phase := Finalizing)))
    case Finalizing => Finalize(f, e)
  }

  function Ended(o: Outcome): UnitStatus {
    match o case Worked => Succeeded case Broke => Failed case Lost => CanceledUnknown
  }

  predicate Joinable(f: Flow, u: int) {
    f.driver.Live? && f.driver.exec.phase == Joining && u in f.driver.exec.running
  }

  /** A unit under way comes back and its outcome is stored. */
  function Join(f: Flow, u: int, o: Outcome): Flow {
    if !Joinable(f, u) then f else
    var e := f.driver.exec;
    f.(run := f.run.(rows := if u in f.run.rows && f.run.rows[u].status == InProgress
                             then f.run.rows[u := f.run.rows[u].(status := Ended(o))] else f.run.rows),
       driver := Live(e.(running := e.running - {u}, failureSeen := e.failureSeen || o == Broke,
                         cancelSeen := e.cancelSeen || o == Lost, phase := Checking)))
  }

  /** Cancellation is signaled to the executor. */
  function Signal(f: Flow): Flow {
    if f.driver.Live? then f.(driver := Live(f.driver.exec.(signal := true))) else f
  }

  /** The spawned task fails: the claim, a transaction or a unit's task came back with an error. */
  function Break(f: Flow): Flow {
    if f.driver.Live? || f.driver == Waiting then f.(driver := Broken) else f
  }

  // ---------------------------------------------------------------- operators and restarts

  /** An operator asks for cancellation. */
  function RequestCancel(f: Flow): Flow {
    var run := f.run;
    if (run.status != Queued && run.status != Running) || run.cancelRequested then f
    else if run.status == Queued then
      f.(run := run.(cancelRequested := true, rows := MarkNotStarted(run.rows), status := Canceled,
                     task := if run.task == TaskQueued then TaskCanceled else run.task))
    else f.(run := run.(cancelRequested := true))
  }

  /** The process dies. */
  function Crash(f: Flow): Flow { f.(driver := Gone) }

  /** A restart looks through the runs the dead process left. */
  function Recover(f: Flow): Flow {
    var run := f.run;
    if run.status == Queued then
      f.(run := run.(rows := MarkNotStarted(run.rows), status := Canceled,
                     task := if run.task == TaskQueued || run.task == TaskRunning then TaskCanceled else run.task))
    else if run.status == Running then
      f.(run := run.(rows := Abandon(run.rows), status := Reconciling,
                     task := if run.task == TaskRunning then TaskFailed else run.task))
    else f
  }

  function StoppedTask(status: RunStatus): TaskStatus { if status == Canceled then TaskCanceled else TaskFailed }

  /** An operator confirms that the interrupted run has stopped. */
  function Confirm(f: Flow): Flow {
    var run := f.run;
    if run.status != Reconciling then f else
    var status := StoppedStatus(|GoodRows(run.rows)|, |UnknownRows(run.rows)|);
    f.(run := run.(status := status, task := StoppedTask(status)))
  }

  /** The spawned task, stopped by an error, ends its run. */
  function FailRun(f: Flow): Flow {
    var run := f.run;
    if f.driver != Broken then f
    else if run.status != Queued && run.status != Running then f.(driver := Gone)
    else
      var rows := Abandon(run.rows);
      var status := StoppedStatus(|GoodRows(rows)|, |UnknownRows(rows)|);
      Flow(run.(rows := rows, status := status,
                task := if run.task == TaskQueued || run.task == TaskRunning then StoppedTask(status) else run.task), Gone)
  }

  /** The snapshot of a run that has ended is erased. */
  function EraseSnapshot(f: Flow): Flow {
    if Ongoing(f.run.status) || !f.run.snapshot then f
    else f.(run := f.run.(rows := EraseReleases(f.run.rows), snapshot := false))
  }

  datatype FlowEvent = DoClaim(limit: int, signaled: bool) | DoAdvance | DoJoin(unit: int, outcome: Outcome) | DoSignal
                     | DoBreak | DoRequestCancel | DoCrash | DoRecover | DoConfirm | DoFailRun | DoEraseSnapshot

  /** Recovery happens in a new process, where no spawned task is left. */
  function Step(f: Flow, e: FlowEvent): Flow {
    match e
    case DoClaim(limit, signaled) => Claim(f, limit, signaled)
    case DoAdvance => Advance(f)
    case DoJoin(u, o) => Join(f, u, o)
    case DoSignal => Signal(f)
    case DoBreak => Break(f)
    case DoRequestCancel => RequestCancel(f)
    case DoCrash => Crash(f)
    case DoRecover => if f.driver == Gone then Recover(f) else f
    case DoConfirm => Confirm(f)
    case DoFailRun => FailRun(f)
    case DoEraseSnapshot => EraseSnapshot(f)
  }
}

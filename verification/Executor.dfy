/** The executor of a run as it runs: loops over waves and units, while other tasks may ask for cancellation. */
module Executor {
  import opened Numbers
  import opened Options
  import opened Planning
  import opened Waves
  import opened Runs
  import S = RunSafety
  import H = RunHistories

  datatype WaveOutcome = WaveSuccess | WaveFailed | WaveCanceled

  /** The units in the join set, which are pairwise different. */
  function Members(running: seq<int>): set<int> { set u | u in running }

  predicate AllDifferent(running: seq<int>) { forall i, j :: 0 <= i < j < |running| ==> running[i] != running[j] }

  /** What other tasks do between two transactions of the executor. */
  datatype Interference = Interference(request: bool, raise: bool)

  /** Other tasks never ask for cancellation. */
  ghost predicate Silent(others: nat -> Interference) {
    forall n: nat :: others(n) == Interference(false, false)
  }

  /** No unit that the plan executes fails or is lost. */
  ghost predicate AllWork(items: seq<Item>, outcomes: int -> Outcome) {
    forall x :: x in items && x.action != Skip ==> outcomes(x.unitId) == Worked
  }

  /** A unit that came back has what it came back with. */
  ghost predicate Faithful(rows: Rows, outcomes: int -> Outcome) {
    forall u :: u in rows ==> rows[u].status in {Skipped, Pending, NotStarted, InProgress, Ended(outcomes(u))}
  }

  /** run is the stored run and signal the cancellation signal, both shared with other tasks. What each unit comes back
      with is given, and so is what the other tasks do at each tick. flow, events and start are history: where the run
      stands, and the steps that led there. */
  class RunExecutor {
    const outcomes: int -> Outcome
    const others: nat -> Interference
    var run: Run
    var signal: bool
    var clock: nat
    ghost var flow: Flow
    ghost var events: seq<FlowEvent>
    ghost const start: Flow

    ghost predicate Valid()
      reads this
    {
      && run == flow.run && S.FlowOk(flow) && S.FlowOk(start) && flow == H.Replay(start, events)
      && (flow.driver.Live? ==> flow.driver.exec.signal == signal)
    }

    /** Nobody has asked for cancellation, and nobody is going to. */
    ghost predicate Undisturbed()
      reads this
    {
      !signal && !run.cancelRequested && Silent(others)
    }

    constructor (f: Flow, outcomes: int -> Outcome, others: nat -> Interference)
      requires S.FlowOk(f) && f.driver == Waiting
      ensures Valid() && flow == f && start == f && !signal
      ensures this.outcomes == outcomes && this.others == others
    {
      this.outcomes, this.others := outcomes, others;
      run := f.run;
      signal, clock := false, 0;
      flow := f;
      start := f;
      events := [];
    }

    /** History takes one more step. */
    ghost method Record(e: FlowEvent)
      requires S.FlowOk(flow) && S.FlowOk(start) && flow == H.Replay(start, events)
      modifies this`flow, this`events
      ensures flow == Step(old(flow), e) && events == old(events) + [e]
      ensures S.FlowOk(flow) && flow == H.Replay(start, events)
    {
      hide *;
      S.StepKeeps(flow, e);
      H.ReplayAppend(start, events, e);
      flow := Step(flow, e);
      events := events + [e];
    }

    /** Other tasks have their turn: an operator may ask for cancellation, and the signal may be raised. */
    method Others()
      requires Valid() && flow.driver.Live?
      modifies this
      ensures Valid() && flow.driver == Live(old(flow).driver.exec.(signal := signal)) && clock == old(clock) + 1
      ensures signal == (old(signal) || others(old(clock)).raise)
      ensures run == old(run).(cancelRequested := old(run).cancelRequested || others(old(clock)).request)
      ensures old(events) <= events
      ensures Queue(flow.run, flow.driver.exec) == Queue(old(flow).run, old(flow).driver.exec)
      ensures old(Undisturbed()) ==> Undisturbed()
    {
      hide S.FlowOk, H.Replay, Step, Queue, Silent;
      var now := others(clock);
      NothingNow(others, clock);
      clock := clock + 1;
      if now.request {
        AskCancellation();
      }
      if now.raise {
        RaiseSignal();
      }
    }

    method AskCancellation()
      requires Valid() && flow.driver.Live?
      modifies this`run, this`flow, this`events
      ensures Valid() && flow.driver == old(flow).driver && run == old(run).(cancelRequested := true)
      ensures old(events) <= events && Queue(flow.run, flow.driver.exec) == Queue(old(flow).run, old(flow).driver.exec)
    {
      LiveRuns(flow);
      RequestStep(flow);
      hide S.FlowOk, H.Replay, Step, Queue;
      Record(DoRequestCancel);
      run := run.(cancelRequested := true);
    }

    method RaiseSignal()
      requires Valid() && flow.driver.Live?
      modifies this`signal, this`flow, this`events
      ensures Valid() && flow.driver == Live(old(flow).driver.exec.(signal := true)) && signal
      ensures old(events) <= events && Queue(flow.run, flow.driver.exec) == Queue(old(flow).run, old(flow).driver.exec)
    {
      RaiseStep(flow);
      hide S.FlowOk, H.Replay, Step, Queue;
      Record(DoSignal);
      signal := true;
    }

    /** The executor stands in wave e.begun with these queues and flags. */
    ghost predicate InWave(phase: Phase, pending: seq<Item>, running: seq<int>, failureSeen: bool, cancelSeen: bool)
      reads this
    {
      && flow.driver.Live? && flow.driver.exec.phase == phase
      && Queue(flow.run, flow.driver.exec) == pending && flow.driver.exec.running == Members(running) && AllDifferent(running)
      && flow.driver.exec.failureSeen == failureSeen && flow.driver.exec.cancelSeen == cancelSeen
    }

    /** Starts the first pending unit: its row, which is pending, becomes in progress. */
    method StartUnitResult(pending: seq<Item>, running: seq<int>)
      requires Valid() && InWave(Starting, pending, running, false, false) && pending != [] && |running| < run.limit
      modifies this
      ensures Valid() && InWave(Starting, pending[1..], running + [pending[0].unitId], false, false)
      ensures flow.driver.exec.begun == old(flow).driver.exec.begun && run.limit == old(run).limit && run.plan == old(run).plan
      ensures signal == old(signal) && old(events) <= events
      ensures StatusOf(old(run).rows, pending[0].unitId) == Pending && pending[0].unitId in old(run).rows
      ensures run == old(run).(rows := old(run).rows[pending[0].unitId := old(run).rows[pending[0].unitId].(status := InProgress)])
      ensures clock == old(clock) && (Faithful(old(run).rows, outcomes) ==> Faithful(run.rows, outcomes))
    {
      var u := pending[0].unitId;
      CountMembers(running);
      OneStarted(run.rows, outcomes, u);
      StartStep(flow, flow.driver.exec);
      NotUnderway(flow, flow.driver.exec, u);
      AddMember(running, u);
      hide Faithful, S.FlowOk, H.Replay, Step, Queue, Members;
      Record(DoAdvance);
      run := run.(rows := run.rows[u := run.rows[u].(status := InProgress)]);
    }

    /** Stores what unit u came back with. */
    method PersistUnitOutcome(i: nat, outcome: Outcome, pending: seq<Item>, running: seq<int>, failureSeen: bool,
                              cancelSeen: bool)
      requires Valid() && InWave(Joining, pending, running, failureSeen, cancelSeen) && i < |running|
      modifies this
      ensures Valid() && InWave(Checking, pending, Without(running, i), failureSeen || outcome == Broke, cancelSeen || outcome == Lost)
      ensures flow.driver.exec.begun == old(flow).driver.exec.begun && run.limit == old(run).limit && run.plan == old(run).plan
      ensures signal == old(signal) && old(events) <= events
      ensures running[i] in old(run).rows && old(run).rows[running[i]].status == InProgress
      ensures run == old(run).(rows := old(run).rows[running[i] := old(run).rows[running[i]].(status := Ended(outcome))])
      ensures clock == old(clock) && (Faithful(old(run).rows, outcomes) && outcome == outcomes(running[i]) ==> Faithful(run.rows, outcomes))
    {
      var u := running[i];
      DropMember(running, i);
      JoinStep(flow, flow.driver.exec, u, outcome);
      OneEnded(run.rows, outcomes, u);
      hide Faithful, S.FlowOk, H.Replay, Step, Queue, Members, Without;
      Record(DoJoin(u, outcome));
      run := run.(rows := run.rows[u := run.rows[u].(status := Ended(outcome))]);
    }

    /** Starts pending units while nothing has gone wrong and there is room; then the executor waits. */
    method StartUnits(items: seq<Item>, started: seq<int>, failureSeen: bool, cancelSeen: bool)
      returns (pending: seq<Item>, running: seq<int>)
      requires Valid() && InWave(Starting, items, started, failureSeen, cancelSeen)
      modifies this
      ensures Valid() && InWave(Joining, pending, running, failureSeen, cancelSeen)
      ensures flow.driver.exec.begun == old(flow).driver.exec.begun && run.plan == old(run).plan && old(events) <= events
      ensures 2 * |pending| + |running| <= 2 * |items| + |started|
      ensures failureSeen || cancelSeen || |running| >= run.limit || pending == []
      ensures run.limit == old(run).limit && (old(Undisturbed()) ==> Undisturbed()) && (Faithful(old(run).rows, outcomes) ==> Faithful(run.rows, outcomes))
    {
      hide S.FlowOk, H.Replay, Step, Queue, Members, AllDifferent, Silent, Faithful, AllWork;
      pending, running := items, started;
      while !failureSeen && !cancelSeen && |running| < run.limit && pending != []
        invariant Valid() && InWave(Starting, pending, running, failureSeen, cancelSeen)
        invariant flow.driver.exec.begun == old(flow).driver.exec.begun && run.plan == old(run).plan && old(events) <= events
        invariant 2 * |pending| + |running| <= 2 * |items| + |started|
        invariant run.limit == old(run).limit && (old(Undisturbed()) ==> Undisturbed()) && (Faithful(old(run).rows, outcomes) ==> Faithful(run.rows, outcomes))
        decreases |pending|
      {
        StartUnitResult(pending, running);
        running := running + [pending[0].unitId];
        pending := pending[1..];
        Others();
      }
      CountMembers(running);
      StopStartingStep(flow, flow.driver.exec);
      Record(DoAdvance);
    }

    /** The head of the loop over a wave: the signal is looked at. */
    method CheckSignal(pending: seq<Item>, running: seq<int>, failureSeen: bool, cancelSeen: bool) returns (seen: bool)
      requires Valid() && InWave(Checking, pending, running, failureSeen, cancelSeen) && (pending != [] || running != [])
      modifies this
      ensures Valid() && InWave(Starting, pending, running, failureSeen, seen) && seen == (cancelSeen || signal)
      ensures flow.driver.exec.begun == old(flow).driver.exec.begun && run.plan == old(run).plan && old(events) <= events
      ensures run.rows == old(run).rows && run.limit == old(run).limit && (old(Undisturbed()) ==> Undisturbed())
    {
      CountMembers(running);
      hide S.FlowOk, H.Replay, Step, Queue, Members, AllDifferent, Silent, Faithful, AllWork;
      Others();
      CheckStep(flow, flow.driver.exec);
      Record(DoAdvance);
      seen := cancelSeen;
      if signal {
        seen := true;
      }
    }

    method ExecuteWave(items: seq<Item>) returns (outcome: WaveOutcome)
      requires Valid() && InWave(Checking, items, [], false, signal)
      modifies this
      ensures Valid() && flow.driver.Live? && flow.driver.exec.phase == NextWave && old(events) <= events
      ensures flow.driver.exec.begun == old(flow).driver.exec.begun && run.plan == old(run).plan
      ensures flow.driver.exec.canceled <==> outcome == WaveCanceled
      ensures flow.driver.exec.failed <==> outcome == WaveFailed
      ensures run.limit == old(run).limit && (old(Undisturbed()) ==> Undisturbed()) && (Faithful(old(run).rows, outcomes) ==> Faithful(run.rows, outcomes))
      ensures old(Undisturbed()) && AllWork(old(run).plan.items, outcomes) ==> outcome == WaveSuccess
    {
      hide S.FlowOk, H.Replay, Step, Queue, Members, AllDifferent, Silent, Faithful, AllWork;
      var pending, running: seq<int> := items, [];
      var failureSeen, cancelSeen := false, signal;
      while |pending| > 0 || |running| > 0
        invariant Valid() && InWave(Checking, pending, running, failureSeen, cancelSeen)
        invariant flow.driver.exec.begun == old(flow).driver.exec.begun && run.plan == old(run).plan && old(events) <= events
        invariant run.limit == old(run).limit && (old(Undisturbed()) ==> Undisturbed()) && (Faithful(old(run).rows, outcomes) ==> Faithful(run.rows, outcomes))
        invariant old(Undisturbed()) && AllWork(old(run).plan.items, outcomes) ==> !failureSeen && !cancelSeen
        decreases 2 * |pending| + |running|
      {
        cancelSeen := CheckSignal(pending, running, failureSeen, cancelSeen);
        pending, running := StartUnits(pending, running, failureSeen, cancelSeen);
        Others();
        if running == [] {
          break;
        }
        var i: int := *;
        i := if 0 <= i < |running| then i else 0;
        var o := outcomes(running[i]);
        DropMember(running, i);
        UnderwayWorks(flow, outcomes, running[i]);
        PersistUnitOutcome(i, o, pending, running, failureSeen, cancelSeen);
        running := Without(running, i);
        failureSeen := failureSeen || o == Broke;
        cancelSeen := cancelSeen || o == Lost;
      }
      NoMembers(running);
      EndStep(flow, flow.driver.exec);
      Record(DoAdvance);
      outcome := if cancelSeen then WaveCanceled else if failureSeen then WaveFailed else WaveSuccess;
    }

    method ClaimRun(limit: int)
      requires Valid() && flow.driver == Waiting && Claimable(run)
      modifies this
      ensures Valid() && run == old(run).(status := Running, task := TaskRunning, limit := Max(1, limit))
      ensures signal == (old(signal) || run.cancelRequested) && (old(Undisturbed()) ==> Undisturbed())
      ensures flow.driver == Live(Exec(0, 0, {}, false, false, false, signal, signal, NextWave))
    {
      ClaimStep(flow, limit, signal);
      hide S.FlowOk, H.Replay, Step, Silent;
      Record(DoClaim(limit, signal));
      run := run.(status := Running, task := TaskRunning, limit := Max(1, limit));
      if run.cancelRequested {
        signal := true;
      }
    }

    /** Claims the run and works through its plan. Left to itself, and whatever other tasks ask for meanwhile, the
        executor always comes to an end, and then the run is over: every unit was skipped, was not started, or ended with
        what it came back with. A run that nobody cancels ends in success exactly when all of its units work. */
    method ExecuteRun(limit: int)
      requires Valid() && flow.driver == Waiting && Claimable(run)
      modifies this
      ensures Valid() && flow.driver == Gone && !Ongoing(run.status)
      ensures run.plan == old(run).plan && run.limit == Max(1, limit)
      ensures run.status == Success <==> S.AllGood(run.rows)
      ensures forall u :: u in run.rows ==> run.rows[u].status in {Skipped, NotStarted, Ended(outcomes(u))}
      ensures old(Undisturbed()) ==> (run.status == Success <==> AllWork(old(run).plan.items, outcomes))
    {
      NoneBack(flow, outcomes);
      hide S.FlowOk, H.Replay, Step, Queue, ExecutionWaves, S.AllGood, Silent, Faithful, AllWork;
      ClaimRun(limit);
      var waves := ComputeWaves(run.plan.items);
      var failed, canceled, asked := false, signal, false;
      ghost var plan := run.plan;
      while waves != []
        invariant Valid() && flow.driver.Live? && flow.driver.exec.phase == NextWave && run.plan == plan
        invariant flow.driver.exec.begun <= |ExecutionWaves(plan.items)| && waves == ExecutionWaves(plan.items)[flow.driver.exec.begun..]
        invariant flow.driver.exec.failed == failed && flow.driver.exec.canceled == canceled && !asked
        invariant run.limit == Max(1, limit) && Faithful(run.rows, outcomes) && (old(Undisturbed()) ==> Undisturbed())
        invariant old(Undisturbed()) && AllWork(old(run).plan.items, outcomes) ==> !failed && !canceled
        decreases |waves|
      {
        var items := waves[0];
        if failed || canceled {
          break;
        }
        Others();
        if run.cancelRequested {
          canceled, asked := true, true;
          break;
        }
        waves := waves[1..];
        BeginStep(flow, flow.driver.exec);
        Record(DoAdvance);
        var outcome := ExecuteWave(items);
        match outcome {
          case WaveSuccess =>
          case WaveFailed => failed := true;
          case WaveCanceled => canceled := true;
        }
      }
      CloseRun(failed, canceled, asked);
      FinalizeRun(canceled);
      Ends(flow, outcomes);
    }

    /** Out of the loop over waves: what is still pending will not be started. */
    method CloseRun(failed: bool, canceled: bool, asked: bool)
      requires Valid() && flow.driver.Live? && flow.driver.exec.phase == NextWave
      requires flow.driver.exec.failed == failed && flow.driver.exec.begun <= |WavesOf(run)|
      requires asked ==> canceled && run.cancelRequested && !failed && !flow.driver.exec.canceled
      requires asked ==> flow.driver.exec.begun < |WavesOf(run)|
      requires !asked ==> flow.driver.exec.canceled == canceled
      requires !asked ==> failed || canceled || flow.driver.exec.begun == |WavesOf(run)|
      modifies this
      ensures Valid() && flow.driver.Live? && flow.driver.exec.phase == Finalizing && flow.driver.exec.canceled == canceled
      ensures run.plan == old(run).plan && run.limit == old(run).limit && (Faithful(old(run).rows, outcomes) ==> Faithful(run.rows, outcomes))
      ensures !failed && !canceled ==> S.AllGood(run.rows)
    {
      LeaveStep(flow, flow.driver.exec);
      CloseStep(Step(flow, DoAdvance));
      RestNotStarted(run.rows, outcomes);
      hide Faithful, MarkNotStarted, S.AllGood, S.FlowOk, H.Replay, Step, ExecutionWaves;
      Record(DoAdvance);
      if asked {
        signal := true;
      }
      ClosingGood(flow);
      Record(DoAdvance);
      if failed || canceled {
        run := run.(rows := MarkNotStarted(run.rows));
      }
    }

    method FinalizeRun(canceled: bool)
      requires Valid() && flow.driver.Live? && flow.driver.exec.phase == Finalizing && flow.driver.exec.canceled == canceled
      modifies this
      ensures Valid() && flow.driver == Gone && !Ongoing(run.status) && (run.status == Success <==> S.AllGood(run.rows))
      ensures run.rows == old(run).rows && run.plan == old(run).plan && run.limit == old(run).limit
    {
      H.FinalizeReports(flow);
      LiveRuns(flow);
      FinalizeStep(flow, flow.driver.exec);
      hide S.FlowOk, H.Replay, Step, S.AllGood;
      Record(DoAdvance);
      var status := FinalStatus(|GoodRows(run.rows)|, |BadRows(run.rows)|, |UnknownRows(run.rows)|, canceled);
      run := run.(status := status, task := TaskAfter(status, canceled));
    }
  }

  /** The items of the current wave that have not been taken off its queue. */
  function Queue(run: Run, e: Exec): seq<Item> {
    var waves := WavesOf(run);
    if 1 <= e.begun <= |waves| && e.taken <= |waves[e.begun - 1]| then waves[e.begun - 1][e.taken..] else []
  }

  lemma NothingNow(others: nat -> Interference, n: nat)
    ensures Silent(others) ==> others(n) == Interference(false, false)
  {
  }

  lemma OneStarted(rows: Rows, outcomes: int -> Outcome, u: int)
    ensures Faithful(rows, outcomes) && u in rows ==> Faithful(rows[u := rows[u].(status := InProgress)], outcomes)
  {
  }

  lemma OneEnded(rows: Rows, outcomes: int -> Outcome, u: int)
    ensures Faithful(rows, outcomes) && u in rows ==> Faithful(rows[u := rows[u].(status := Ended(outcomes(u)))], outcomes)
  {
  }

  lemma RestNotStarted(rows: Rows, outcomes: int -> Outcome)
    ensures Faithful(rows, outcomes) ==> Faithful(MarkNotStarted(rows), outcomes)
  {
  }

  /** A unit under way is one that the plan executes. */
  lemma UnderwayWorks(f: Flow, outcomes: int -> Outcome, u: int)
    requires S.FlowOk(f) && f.driver.Live? && u in f.driver.exec.running
    requires f.driver.exec.phase == Joining
    ensures AllWork(f.run.plan.items, outcomes) ==> outcomes(u) == Worked
  {
    hide S.Barrier, S.StartedFirst, Sound, ExecutionWaves, S.ReleasesOf;
    assert u in f.run.rows && f.run.rows[u].status == InProgress;
  }

  lemma NoneBack(f: Flow, outcomes: int -> Outcome)
    requires S.FlowOk(f) && f.run.status == Queued
    ensures Faithful(f.run.rows, outcomes)
  {
  }

  /** When all waves have succeeded all rows are good. */
  lemma ClosingGood(f: Flow)
    requires S.FlowOk(f) && f.driver.Live? && f.driver.exec.phase == Closing
    ensures !f.driver.exec.failed && !f.driver.exec.canceled ==> S.AllGood(f.run.rows)
  {
    hide S.Barrier, S.StartedFirst, S.ReleasesOf, ExecutionWaves, Sound;
    if !f.driver.exec.failed && !f.driver.exec.canceled {
      var waves := WavesOf(f.run);
      forall u | u in f.run.rows ensures Good(f.run.rows[u].status) {
        var x :| x in f.run.plan.items && x.unitId == u;
        if x.action != Skip {
          PlaceOf(f.run.plan.items, x);
          var i, j :| Place(waves, i, j) && waves[i][j] == x;
          assert S.At(waves, f.run.rows, i, j) == Succeeded;
        }
      }
    }
  }

  /** A run that is over has nothing pending or under way; and one that ended in success has had all its units work. */
  lemma Ends(f: Flow, outcomes: int -> Outcome)
    requires S.FlowOk(f) && !Ongoing(f.run.status)
    requires Faithful(f.run.rows, outcomes)
    ensures forall u :: u in f.run.rows ==> f.run.rows[u].status in {Skipped, NotStarted, Ended(outcomes(u))}
    ensures f.run.status == Success ==> AllWork(f.run.plan.items, outcomes)
  {
    hide S.Barrier, S.StartedFirst, S.ReleasesOf, ExecutionWaves, Sound;
  }

  lemma LiveRuns(f: Flow)
    requires S.FlowOk(f) && f.driver.Live?
    ensures f.run.status == Running
  {
  }

  function Without(running: seq<int>, i: nat): seq<int>
    requires i < |running|
  {
    running[..i] + running[i + 1..]
  }

  lemma {:induction false} CountMembers(running: seq<int>)
    requires AllDifferent(running)
    ensures |Members(running)| == |running|
  {
    if running == [] {
      NoMembers(running);
    } else {
      var before, last := running[..|running| - 1], running[|running| - 1];
      CountMembers(before);
      AddMember(before, last);
      assert running == before + [last];
    }
  }

  lemma NoMembers(running: seq<int>)
    ensures running == [] ==> Members(running) == {}
  {
    assert forall u :: u in Members(running) <==> u in running;
  }

  lemma AddMember(running: seq<int>, u: int)
    requires AllDifferent(running)
    ensures Members(running + [u]) == Members(running) + {u}
    ensures u !in running ==> AllDifferent(running + [u])
  {
    var more := running + [u];
    assert forall v :: v in more <==> v in running || v == u;
    assert forall v :: v in Members(more) <==> v in Members(running) + {u};
  }

  lemma DropMember(running: seq<int>, i: nat)
    requires AllDifferent(running) && i < |running|
    ensures AllDifferent(Without(running, i)) && Members(Without(running, i)) == Members(running) - {running[i]}
    ensures running[i] in Members(running)
  {
    var less := Without(running, i);
    forall v ensures v in less <==> v in running && v != running[i] {
      if v in running && v != running[i] {
        var k :| 0 <= k < |running| && running[k] == v;
        assert v == if k < i then less[k] else less[k - 1];
      }
    }
  }

  /** A unit whose row is pending is not under way. */
  lemma NotUnderway(f: Flow, e: Exec, u: int)
    requires S.FlowOk(f) && f.driver == Live(e) && e.phase == Starting && u in f.run.rows && f.run.rows[u].status == Pending
    ensures u !in e.running
  {
  }

  lemma QueueHead(run: Run, e: Exec)
    ensures HasPending(run, e) <==> Queue(run, e) != []
    ensures HasPending(run, e) ==> Queue(run, e)[0] == WavesOf(run)[e.begun - 1][e.taken]
                                   && Queue(run, e.(taken := e.taken + 1)) == Queue(run, e)[1..]
  {
    hide ExecutionWaves;
  }

  lemma StartStep(f: Flow, e: Exec)
    requires S.FlowOk(f) && f.driver == Live(e) && e.phase == Starting && Queue(f.run, e) != []
    requires !e.failureSeen && !e.cancelSeen && |e.running| < f.run.limit
    ensures var u := Queue(f.run, e)[0].unitId;
            && u in f.run.rows && f.run.rows[u].status == Pending
            && Step(f, DoAdvance) == f.(run := f.run.(rows := f.run.rows[u := f.run.rows[u].(status := InProgress)]),
                                       driver := Live(e.(taken := e.taken + 1, running := e.running + {u})))
            && Queue(Step(f, DoAdvance).run, Step(f, DoAdvance).driver.exec) == Queue(f.run, e)[1..]
  {
    QueueHead(f.run, e);
    S.StartUnitKeepsRows(f, e);
    hide ExecutionWaves, S.FlowOk;
  }

  lemma JoinStep(f: Flow, e: Exec, u: int, o: Outcome)
    requires S.FlowOk(f) && f.driver == Live(e) && e.phase == Joining && u in e.running
    ensures u in f.run.rows && f.run.rows[u].status == InProgress
    ensures Step(f, DoJoin(u, o)) == f.(run := f.run.(rows := f.run.rows[u := f.run.rows[u].(status := Ended(o))]),
                                       driver := Live(e.(running := e.running - {u}, failureSeen := e.failureSeen || o == Broke,
                                                         cancelSeen := e.cancelSeen || o == Lost, phase := Checking)))
    ensures Queue(Step(f, DoJoin(u, o)).run, Step(f, DoJoin(u, o)).driver.exec) == Queue(f.run, e)
  {
    S.JoinKeepsRows(f, u, o);
    hide ExecutionWaves, S.FlowOk;
  }

  lemma CheckStep(f: Flow, e: Exec)
    requires f.driver == Live(e) && e.phase == Checking && (Queue(f.run, e) != [] || e.running != {})
    ensures Step(f, DoAdvance) == f.(driver := Live(e.(cancelSeen := e.cancelSeen || e.signal, phase := Starting)))
    ensures Queue(f.run, e.(cancelSeen := e.cancelSeen || e.signal, phase := Starting)) == Queue(f.run, e)
  {
    QueueHead(f.run, e);
    hide ExecutionWaves;
  }

  lemma StopStartingStep(f: Flow, e: Exec)
    requires f.driver == Live(e) && e.phase == Starting
    requires e.failureSeen || e.cancelSeen || |e.running| >= f.run.limit || Queue(f.run, e) == []
    ensures Step(f, DoAdvance) == f.(driver := Live(e.(phase := Joining)))
    ensures Queue(f.run, e.(phase := Joining)) == Queue(f.run, e)
  {
    QueueHead(f.run, e);
    hide ExecutionWaves;
  }

  lemma EndStep(f: Flow, e: Exec)
    requires S.FlowOk(f) && f.driver == Live(e) && e.running == {}
    requires e.phase == Joining || (e.phase == Checking && Queue(f.run, e) == [])
    ensures var d := e.(canceled := e.cancelSeen, failed := e.failureSeen && !e.cancelSeen, phase := NextWave);
            Step(f, DoAdvance) == f.(driver := Live(d))
  {
    QueueHead(f.run, e);
    hide ExecutionWaves;
  }

  lemma ClaimStep(f: Flow, limit: int, signaled: bool)
    requires f.driver == Waiting && Claimable(f.run)
    ensures var signal := signaled || f.run.cancelRequested;
            Step(f, DoClaim(limit, signaled)) == Flow(f.run.(status := Running, task := TaskRunning, limit := Max(1, limit)),
                                                      Live(Exec(0, 0, {}, false, false, false, signal, signal, NextWave)))
  {
  }

  lemma BeginStep(f: Flow, e: Exec)
    requires f.driver == Live(e) && e.phase == NextWave && e.begun < |WavesOf(f.run)|
    requires !e.failed && !e.canceled && !f.run.cancelRequested
    ensures var d := e.(begun := e.begun + 1, taken := 0, running := {}, failureSeen := false, cancelSeen := e.signal,
                        phase := Checking);
            Step(f, DoAdvance) == f.(driver := Live(d)) && Queue(f.run, d) == WavesOf(f.run)[e.begun]
  {
    hide ExecutionWaves;
  }

  lemma LeaveStep(f: Flow, e: Exec)
    requires f.driver == Live(e) && e.phase == NextWave
    requires e.failed || e.canceled || f.run.cancelRequested || e.begun >= |WavesOf(f.run)|
    ensures var seen := !e.failed && !e.canceled && e.begun < |WavesOf(f.run)|;
            Step(f, DoAdvance) == f.(driver := Live(if seen then e.(signal := true, canceled := true, phase := Closing)
                                                    else e.(phase := Closing)))
  {
    hide ExecutionWaves;
  }

  lemma CloseStep(f: Flow)
    ensures f.driver.Live? && f.driver.exec.phase == Closing ==>
              var e := f.driver.exec;
              Step(f, DoAdvance) == f.(run := if e.failed || e.canceled then f.run.(rows := MarkNotStarted(f.run.rows)) else f.run,
                                       driver := Live(e.(phase := Finalizing)))
  {
    hide ExecutionWaves;
  }

  lemma FinalizeStep(f: Flow, e: Exec)
    requires f.driver == Live(e) && e.phase == Finalizing && f.run.status == Running
    ensures var rows := f.run.rows;
            var status := FinalStatus(|GoodRows(rows)|, |BadRows(rows)|, |UnknownRows(rows)|, e.canceled);
            Step(f, DoAdvance) == Flow(f.run.(status := status, task := TaskAfter(status, e.canceled)), Gone)
  {
    hide ExecutionWaves;
  }

  lemma RequestStep(f: Flow)
    requires f.run.status == Running && f.driver.Live?
    ensures Step(f, DoRequestCancel) == f.(run := f.run.(cancelRequested := true))
    ensures Queue(f.run.(cancelRequested := true), f.driver.exec) == Queue(f.run, f.driver.exec)
  {
    hide ExecutionWaves;
  }

  lemma RaiseStep(f: Flow)
    requires f.driver.Live?
    ensures Step(f, DoSignal) == f.(driver := Live(f.driver.exec.(signal := true)))
    ensures Queue(f.run, f.driver.exec.(signal := true)) == Queue(f.run, f.driver.exec)
  {
    hide ExecutionWaves;
  }
}

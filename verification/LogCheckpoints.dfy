/** Checkpoints of a task's step logs: snapshots of one history may reach the database late, repeatedly and in
    any order, and the rows still end up at the latest one. */
module LogCheckpoints {
  import opened Numbers
  import opened Bytes
  import opened Options
  import opened LogBuffers

  // ---------------------------------------------------------------- the history in memory

  /** The live log of a task: its buffers and budget, and which steps are finished. */
  datatype Log = Log(task: Task, finished: seq<bool>)

  /** A write to a step, or its end with the bytes its redactor still held. */
  datatype Mutation = Write(op: Op) | Close(i: nat, rest: seq<byte>)

  predicate WellFormed(s: Log) {
    |s.finished| == |s.task.buffers|
  }

  /** A finished step accepts no more; closing it again changes nothing. */
  function Mutate(s: Log, m: Mutation): (s': Log)
    requires WellFormed(s)
    ensures WellFormed(s')
  {
    match m
    case Write(op) =>
      if op.i >= |s.finished| || s.finished[op.i] then s else Log(Apply(s.task, op), s.finished)
    case Close(i, rest) =>
      if i >= |s.finished| || s.finished[i] then s
      else Log(Apply(s.task, Append(i, rest)), s.finished[i := true])
  }

  function History(start: Log, ms: seq<Mutation>): (s: Log)
    requires WellFormed(start)
    ensures WellFormed(s)
  {
    if ms == [] then start else Mutate(History(start, ms[..|ms| - 1]), ms[|ms| - 1])
  }

  /** The state after the first k mutations. */
  function At(start: Log, ms: seq<Mutation>, k: nat): (s: Log)
    requires WellFormed(start) && k <= |ms|
    ensures WellFormed(s)
  {
    History(start, ms[..k])
  }

  // ---------------------------------------------------------------- the rows

  datatype StepRow = StepRow(head: seq<byte>, tail: seq<byte>, stored: nat, received: nat, dropped: nat,
                             headLimit: nat, tailLimit: nat, truncated: bool, finished: bool)

  datatype TaskRow = TaskRow(stored: nat, received: nat, dropped: nat, max: nat, truncated: bool)

  function RowOf(b: Buffer, finished: bool): StepRow {
    StepRow(b.head, b.tail, b.Stored(), b.received, b.dropped, b.headLimit, b.tailLimit, b.dropped > 0, finished)
  }

  function TaskRowOf(g: Budget): TaskRow {
    TaskRow(g.stored, g.received, g.dropped, g.max, g.dropped > 0)
  }

  function RowAt(s: Log, j: nat): StepRow
    requires WellFormed(s) && j < |s.finished|
  {
    RowOf(s.task.buffers[j], s.finished[j])
  }

  /** The step row after an upsert: a snapshot that has received less is ignored, an end is never taken back. */
  function UpsertStep(kept: Option<StepRow>, row: StepRow): StepRow {
    if kept.None? then row
    else if row.received >= kept.value.received then
      row.(headLimit := kept.value.headLimit, tailLimit := kept.value.tailLimit,
           finished := kept.value.finished || row.finished)
    else kept.value
  }

  /** The task row keeps the largest counters it has seen. */
  function UpsertTask(kept: Option<TaskRow>, row: TaskRow): TaskRow {
    if kept.None? then row
    else TaskRow(Max(kept.value.stored, row.stored), Max(kept.value.received, row.received),
                 Max(kept.value.dropped, row.dropped), row.max, kept.value.truncated || row.truncated)
  }

  datatype Rows = Rows(steps: map<nat, StepRow>, task: Option<TaskRow>)

  function StepOf(rows: Rows, j: nat): Option<StepRow> {
    if j in rows.steps then Some(rows.steps[j]) else None
  }

  function Persist(rows: Rows, j: nat, row: StepRow, task: TaskRow): Rows {
    Rows(rows.steps[j := UpsertStep(StepOf(rows, j), row)], Some(UpsertTask(rows.task, task)))
  }

  /** A checkpoint of step j, taken after k mutations. */
  datatype Checkpoint = Checkpoint(k: nat, j: nat)

  /** The rows after the checkpoints have arrived, in this order. */
  function Arrive(start: Log, ms: seq<Mutation>, cs: seq<Checkpoint>): Rows
    requires WellFormed(start)
    requires forall c :: c in cs ==> c.k <= |ms| && c.j < |start.finished|
  {
    if cs == [] then Rows(map[], None) else
    var c := cs[|cs| - 1];
    SameSteps(start, ms[..c.k]);
    var s := At(start, ms, c.k);
    Persist(Arrive(start, ms, cs[..|cs| - 1]), c.j, RowAt(s, c.j), TaskRowOf(s.task.budget))
  }

  /** The latest of the checkpoints that concern step j. */
  function Latest(cs: seq<Checkpoint>, j: nat): Option<nat> {
    if cs == [] then None else
    var before, c := Latest(cs[..|cs| - 1], j), cs[|cs| - 1];
    if c.j != j then before
    else if before.None? then Some(c.k) else Some(Max(before.value, c.k))
  }

  function LatestOfAll(cs: seq<Checkpoint>): Option<nat> {
    if cs == [] then None else
    var before, c := LatestOfAll(cs[..|cs| - 1]), cs[|cs| - 1];
    if before.None? then Some(c.k) else Some(Max(before.value, c.k))
  }

  // ---------------------------------------------------------------- histories only move forward

  /** Later states have received at least as much, and exactly as much only while nothing was stored or dropped. */
  predicate Forward(a: Buffer, b: Buffer) {
    && a.received <= b.received
    && (a.received == b.received ==> a == b)
    && a.headLimit == b.headLimit && a.tailLimit == b.tailLimit
  }

  predicate ForwardLog(a: Log, b: Log) {
    && WellFormed(a) && WellFormed(b) && |a.finished| == |b.finished|
    && (forall j :: 0 <= j < |a.finished| ==> Forward(a.task.buffers[j], b.task.buffers[j]))
    && (forall j :: 0 <= j < |a.finished| ==> a.finished[j] ==> b.finished[j])
    && a.task.budget.stored <= b.task.budget.stored
    && a.task.budget.received <= b.task.budget.received
    && a.task.budget.dropped <= b.task.budget.dropped
    && a.task.budget.max == b.task.budget.max
  }

  lemma SameSteps(start: Log, ms: seq<Mutation>)
    requires WellFormed(start)
    ensures |History(start, ms).finished| == |start.finished|
  {
    if ms != [] {
      SameSteps(start, ms[..|ms| - 1]);
    }
  }

  lemma StoredForward(b: Buffer, g: Budget, bytes: seq<byte>)
    ensures Forward(b, Stored(b, g, bytes))
    ensures g.stored <= Charged(b, g, |bytes|).stored && g.dropped <= Charged(b, g, |bytes|).dropped
    ensures g.received <= Charged(b, g, |bytes|).received && g.max == Charged(b, g, |bytes|).max
  {
    Gains(b, g, |bytes|);
    var t := TailGain(b, g, |bytes|);
    hide HeadGain, TailGain, HeadClaim;
    if bytes == [] {
      assert b.tail + bytes[0..] == b.tail;
    }
  }

  lemma ApplyForward(s: Log, op: Op, finished: seq<bool>)
    requires WellFormed(s) && |finished| == |s.finished|
    requires forall j :: 0 <= j < |finished| ==> s.finished[j] ==> finished[j]
    ensures ForwardLog(s, Log(Apply(s.task, op), finished))
  {
    if op.i < |s.finished| && op.Append? {
      StoredForward(s.task.buffers[op.i], s.task.budget, op.bytes);
    }
    hide Stored, Charged;
  }

  lemma MutateForward(s: Log, m: Mutation)
    requires WellFormed(s)
    ensures ForwardLog(s, Mutate(s, m))
  {
    hide Apply;
    match m
    case Write(op) => ApplyForward(s, op, s.finished);
    case Close(i, rest) =>
      if i < |s.finished| {
        ApplyForward(s, Append(i, rest), s.finished[i := true]);
      }
  }

  lemma {:induction false} HistoryForward(start: Log, ms: seq<Mutation>, k: nat, l: nat)
    requires WellFormed(start) && k <= l <= |ms|
    ensures ForwardLog(At(start, ms, k), At(start, ms, l))
    decreases l - k
  {
    if k < l {
      HistoryForward(start, ms, k, l - 1);
      assert ms[..l][..l - 1] == ms[..l - 1];
      MutateForward(At(start, ms, l - 1), ms[l - 1]);
      hide Mutate, History;
      assert At(start, ms, l) == Mutate(At(start, ms, l - 1), ms[l - 1]) by { assert ms[..l][l - 1] == ms[l - 1]; }
    }
  }

  // ---------------------------------------------------------------- what a step's log is the log of

  /** The writes among the mutations. */
  function WritesIn(ms: seq<Mutation>): seq<Op> {
    if ms == [] then [] else
    var last := ms[|ms| - 1];
    WritesIn(ms[..|ms| - 1]) + if last.Write? then [last.op] else []
  }

  predicate Closes(ms: seq<Mutation>, j: nat) { exists k :: 0 <= k < |ms| && ms[k].Close? && ms[k].i == j }

  /** What a mutation comes to: an append or a drop, or nothing when its step is finished. */
  function AcceptedBy(s: Log, m: Mutation): seq<Op> {
    var op := if m.Write? then m.op else Append(m.i, m.rest);
    if op.i >= |s.finished| || s.finished[op.i] then [] else [op]
  }

  function Accepted(start: Log, ms: seq<Mutation>): seq<Op>
    requires WellFormed(start)
  {
    if ms == [] then [] else
    Accepted(start, ms[..|ms| - 1]) + AcceptedBy(History(start, ms[..|ms| - 1]), ms[|ms| - 1])
  }

  lemma RunsOn(t: Task, ops: seq<Op>, op: Op)
    ensures Run(t, ops + [op]) == Apply(Run(t, ops), op)
  {
    hide Apply;
    assert (ops + [op])[..|ops|] == ops;
  }

  lemma MutationRuns(s: Log, m: Mutation)
    requires WellFormed(s)
    ensures var ops := AcceptedBy(s, m);
            if ops == [] then Mutate(s, m).task == s.task else ops == [ops[0]] && Mutate(s, m).task == Apply(s.task, ops[0])
  {
    hide Apply;
  }

  lemma {:induction false} HistoryRuns(start: Log, ms: seq<Mutation>)
    requires WellFormed(start)
    ensures History(start, ms).task == Run(start.task, Accepted(start, ms))
  {
    if ms != [] {
      var before, m := ms[..|ms| - 1], ms[|ms| - 1];
      HistoryRuns(start, before);
      var s, ops := History(start, before), Accepted(start, before);
      assert History(start, ms) == Mutate(s, m) && Accepted(start, ms) == ops + AcceptedBy(s, m);
      MutationRuns(s, m);
      hide Apply, Run, History, Accepted, AcceptedBy, Mutate;
      if AcceptedBy(s, m) == [] {
        assert ops + [] == ops;
      } else {
        RunsOn(start.task, ops, AcceptedBy(s, m)[0]);
      }
    }
  }

  lemma {:induction false} FinishedWhenClosed(start: Log, ms: seq<Mutation>, j: nat)
    requires WellFormed(start) && j < |start.finished| && !start.finished[j]
    ensures j < |History(start, ms).finished| && (History(start, ms).finished[j] <==> Closes(ms, j))
  {
    hide Apply;
    SameSteps(start, ms);
    if ms != [] {
      var before, m := ms[..|ms| - 1], ms[|ms| - 1];
      SameSteps(start, before);
      FinishedWhenClosed(start, before, j);
      ClosesNext(before, m, j);
      assert ms == before + [m];
    }
  }

  lemma ClosesNext(ms: seq<Mutation>, m: Mutation, j: nat)
    ensures Closes(ms + [m], j) <==> Closes(ms, j) || (m.Close? && m.i == j)
  {
    var more := ms + [m];
    if Closes(ms, j) { var k :| 0 <= k < |ms| && ms[k].Close? && ms[k].i == j; assert more[k] == ms[k]; }
    if m.Close? && m.i == j { assert more[|ms|] == m; }
    if Closes(more, j) { var k :| 0 <= k < |more| && more[k].Close? && more[k].i == j; assert k < |ms| ==> more[k] == ms[k]; }
  }

  /** One more mutation, as far as step j is concerned. */
  lemma AcceptedNext(start: Log, ms: seq<Mutation>, m: Mutation, j: nat)
    requires WellFormed(start) && j < |start.finished| && !start.finished[j]
    ensures var ops, more := Accepted(start, ms), Accepted(start, ms + [m]);
            if Closes(ms, j) || (if m.Write? then m.op.i else m.i) != j
            then StreamOf(more, j) == StreamOf(ops, j) && LostBefore(more, j) == LostBefore(ops, j)
            else
              var op := if m.Write? then m.op else Append(j, m.rest);
              StreamOf(more, j) == StreamOf(ops + [op], j) && LostBefore(more, j) == LostBefore(ops + [op], j)
  {
    FinishedWhenClosed(start, ms, j);
    SameSteps(start, ms);
    assert (ms + [m])[..|ms|] == ms;
    var ops, s := Accepted(start, ms), History(start, ms);
    var op := if m.Write? then m.op else Append(m.i, m.rest);
    var taken := AcceptedBy(s, m);
    assert Accepted(start, ms + [m]) == ops + taken;
    assert taken == [] || taken == [op];
    assert op.i == j ==> (taken == [] <==> Closes(ms, j));
    hide StreamOf, LostBefore, History, Closes, Accepted, AcceptedBy;
    if taken == [] {
      assert ops + [] == ops;
    } else {
      Streamed(ops, op, j);
    }
  }

  /** As long as a step is not closed its log is that of all that was written to it. */
  lemma {:induction false} OpenStream(start: Log, ms: seq<Mutation>, j: nat)
    requires WellFormed(start) && j < |start.finished| && !start.finished[j] && !Closes(ms, j)
    ensures StreamOf(Accepted(start, ms), j) == StreamOf(WritesIn(ms), j)
    ensures LostBefore(Accepted(start, ms), j) == LostBefore(WritesIn(ms), j)
  {
    if ms != [] {
      var before, m := ms[..|ms| - 1], ms[|ms| - 1];
      assert ms == before + [m];
      ClosesNext(before, m, j);
      OpenStream(start, before, j);
      AcceptedNext(start, before, m, j);
      hide Accepted, StreamOf, LostBefore, Closes;
      assert WritesIn(before) + [] == WritesIn(before);
      if m.Write? {
        Streamed(Accepted(start, before), m.op, j);
        Streamed(WritesIn(before), m.op, j);
      }
    }
  }

  /** Closing adds what the redactor still held; nothing that comes later counts. */
  lemma {:induction false} ClosedStream(start: Log, a: seq<Mutation>, rest: seq<byte>, b: seq<Mutation>, j: nat)
    requires WellFormed(start) && j < |start.finished| && !start.finished[j] && !Closes(a, j)
    ensures var ms := a + [Close(j, rest)] + b;
            && Closes(ms, j)
            && StreamOf(Accepted(start, ms), j) == StreamOf(WritesIn(a), j) + rest
            && LostBefore(Accepted(start, ms), j) == LostBefore(WritesIn(a), j)
    decreases |b|
  {
    hide Accepted, StreamOf, LostBefore, WritesIn, Closes;
    var ms := a + [Close(j, rest)] + b;
    if b == [] {
      assert ms == a + [Close(j, rest)];
      ClosesNext(a, Close(j, rest), j);
      OpenStream(start, a, j);
      AcceptedNext(start, a, Close(j, rest), j);
      Streamed(Accepted(start, a), Append(j, rest), j);
    } else {
      var before, m := b[..|b| - 1], b[|b| - 1];
      var ns := a + [Close(j, rest)] + before;
      assert ms == ns + [m];
      ClosedStream(start, a, rest, before, j);
      ClosesNext(ns, m, j);
      AcceptedNext(start, ns, m, j);
    }
  }

  /** What the log of a step holds, for every history of a task's log: prefix and suffix, and an exact count, of all that
      was written to it before it was closed and of what its redactor still held then. */
  lemma StepLogHolds(start: Log, a: seq<Mutation>, rest: seq<byte>, b: seq<Mutation>, j: nat)
    requires WellFormed(start) && Fresh(start.task) && j < |start.finished| && !start.finished[j] && !Closes(a, j)
    ensures var open, closed := History(start, a), History(start, a + [Close(j, rest)] + b);
            && j < |open.finished| && !open.finished[j]
            && Holds(open.task.buffers[j], StreamOf(WritesIn(a), j))
            && Accounts(open.task.buffers[j], |StreamOf(WritesIn(a), j)|, LostBefore(WritesIn(a), j), Free(open.task.budget))
            && j < |closed.finished| && closed.finished[j]
            && Holds(closed.task.buffers[j], StreamOf(WritesIn(a), j) + rest)
            && Accounts(closed.task.buffers[j], |StreamOf(WritesIn(a), j)| + |rest|, LostBefore(WritesIn(a), j),
                        Free(closed.task.budget))
  {
    var ms := a + [Close(j, rest)] + b;
    hide Accepted, StreamOf, LostBefore, WritesIn, Closes, Holds, Accounts, Free, Fresh, History, Run;
    OpenStream(start, a, j);
    ClosedStream(start, a, rest, b, j);
    FinishedWhenClosed(start, a, j);
    FinishedWhenClosed(start, ms, j);
    StepBufferKept(start, a, j);
    StepBufferKept(start, ms, j);
  }

  lemma StepBufferKept(start: Log, ms: seq<Mutation>, j: nat)
    requires WellFormed(start) && Fresh(start.task) && j < |start.finished|
    ensures var s, ops := History(start, ms), Accepted(start, ms);
            && j < |s.finished|
            && Holds(s.task.buffers[j], StreamOf(ops, j))
            && Accounts(s.task.buffers[j], |StreamOf(ops, j)|, LostBefore(ops, j), Free(s.task.budget))
  {
    HistoryRuns(start, ms);
    SameSteps(start, ms);
    var ops := Accepted(start, ms);
    hide Accepted, StreamOf, LostBefore, Holds, Accounts, Free, Fresh, History, Run;
    SharedBudget(start.task, ops);
    assert BufferKept(start.task.buffers[j], Run(start.task, ops).buffers[j], Run(start.task, ops).budget, ops, j);
  }

  // ---------------------------------------------------------------- arrival order does not matter

  lemma StepLate(a: Log, b: Log, j: nat)
    requires ForwardLog(a, b) && j < |a.finished|
    ensures UpsertStep(Some(RowAt(a, j)), RowAt(b, j)) == RowAt(b, j)
    ensures UpsertStep(Some(RowAt(b, j)), RowAt(a, j)) == RowAt(b, j)
  {
    assert Forward(a.task.buffers[j], b.task.buffers[j]);
  }

  lemma TaskLate(a: Log, b: Log)
    requires ForwardLog(a, b)
    ensures UpsertTask(Some(TaskRowOf(a.task.budget)), TaskRowOf(b.task.budget)) == TaskRowOf(b.task.budget)
    ensures UpsertTask(Some(TaskRowOf(b.task.budget)), TaskRowOf(a.task.budget)) == TaskRowOf(b.task.budget)
  {
  }

  lemma {:induction false} LatestBound(cs: seq<Checkpoint>, n: nat)
    requires forall c :: c in cs ==> c.k <= n
    ensures LatestOfAll(cs).Some? ==> LatestOfAll(cs).value <= n
    ensures forall j :: Latest(cs, j).Some? ==> Latest(cs, j).value <= n
  {
    if cs != [] {
      LatestBound(cs[..|cs| - 1], n);
    }
  }

  /** The rows are those of the latest checkpoints. */
  ghost predicate UpToDate(start: Log, ms: seq<Mutation>, cs: seq<Checkpoint>, rows: Rows)
    requires WellFormed(start)
  {
    && (rows.task == match LatestOfAll(cs)
                     case None => None
                     case Some(k) => if k <= |ms| then Some(TaskRowOf(At(start, ms, k).task.budget)) else None)
    && forall j :: 0 <= j < |start.finished| ==> StepUpToDate(start, ms, cs, rows, j)
  }

  predicate StepUpToDate(start: Log, ms: seq<Mutation>, cs: seq<Checkpoint>, rows: Rows, j: nat)
    requires WellFormed(start)
  {
    match Latest(cs, j)
    case None => j !in rows.steps
    case Some(k) =>
      && k <= |ms| && j in rows.steps
      && var s := At(start, ms, k);
         j < |s.finished| && rows.steps[j] == RowAt(s, j)
  }

  lemma {:induction false} ArrivalStep(start: Log, ms: seq<Mutation>, cs: seq<Checkpoint>, j: nat)
    requires WellFormed(start) && j < |start.finished|
    requires forall c :: c in cs ==> c.k <= |ms| && c.j < |start.finished|
    ensures StepUpToDate(start, ms, cs, Arrive(start, ms, cs), j)
    decreases |cs|
  {
    if cs != [] {
      var before, c := cs[..|cs| - 1], cs[|cs| - 1];
      ArrivalStep(start, ms, before, j);
      LatestBound(before, |ms|);
      if c.j == j {
        SameSteps(start, ms[..c.k]);
        hide History, Mutate, UpsertTask, UpsertStep;
        if Latest(before, j).Some? {
          var k := Latest(before, j).value;
          SameSteps(start, ms[..k]);
          if k <= c.k {
            HistoryForward(start, ms, k, c.k);
            StepLate(At(start, ms, k), At(start, ms, c.k), j);
          } else {
            HistoryForward(start, ms, c.k, k);
            StepLate(At(start, ms, c.k), At(start, ms, k), j);
          }
        } else {
          NewRow(RowAt(At(start, ms, c.k), j));
        }
      }
    }
  }

  lemma NewRow(row: StepRow)
    ensures UpsertStep(None, row) == row
  {
  }

  lemma {:induction false} ArrivalTask(start: Log, ms: seq<Mutation>, cs: seq<Checkpoint>)
    requires WellFormed(start)
    requires forall c :: c in cs ==> c.k <= |ms| && c.j < |start.finished|
    ensures cs != [] ==>
              && LatestOfAll(cs).Some? && LatestOfAll(cs).value <= |ms|
              && Arrive(start, ms, cs).task == Some(TaskRowOf(At(start, ms, LatestOfAll(cs).value).task.budget))
    ensures cs == [] ==> Arrive(start, ms, cs).task == None && LatestOfAll(cs) == None
    decreases |cs|
  {
    if cs != [] {
      var before, c := cs[..|cs| - 1], cs[|cs| - 1];
      ArrivalTask(start, ms, before);
      hide History, Mutate, UpsertStep;
      if before != [] {
        var k := LatestOfAll(before).value;
        if k <= c.k {
          HistoryForward(start, ms, k, c.k);
          TaskLate(At(start, ms, k), At(start, ms, c.k));
        } else {
          HistoryForward(start, ms, c.k, k);
          TaskLate(At(start, ms, c.k), At(start, ms, k));
        }
      }
    }
  }

  /** Whatever checkpoints were taken along one history, however they are repeated and reordered on their way: each
      step's row is that of the latest one for the step, the task's counters are those of the latest one of all. */
  lemma ArrivalOrderIrrelevant(start: Log, ms: seq<Mutation>, cs: seq<Checkpoint>)
    requires WellFormed(start)
    requires forall c :: c in cs ==> c.k <= |ms| && c.j < |start.finished|
    ensures UpToDate(start, ms, cs, Arrive(start, ms, cs))
  {
    ArrivalTask(start, ms, cs);
    forall j | 0 <= j < |start.finished|
      ensures StepUpToDate(start, ms, cs, Arrive(start, ms, cs), j)
    {
      ArrivalStep(start, ms, cs, j);
    }
  }

  // ---------------------------------------------------------------- loading a row again

  /** The buffer and the budget that a restarted process builds from the rows. */
  function Reload(row: StepRow): Buffer {
    Buffer(row.headLimit, row.tailLimit, row.head[..Min(|row.head|, row.headLimit)], Last(row.tail, row.tailLimit),
           row.received, row.dropped)
  }

  function ReloadBudget(row: TaskRow): Budget {
    Budget(Max(row.max, 1), Min(row.stored, Max(row.max, 1)), row.received, row.dropped)
  }

  lemma ReloadSame(b: Buffer, finished: bool)
    requires |b.head| <= b.headLimit && |b.tail| <= b.tailLimit
    ensures Reload(RowOf(b, finished)) == b
  {
  }

  /** Saving and loading a log of a fresh start gives it back unchanged. */
  lemma ReloadIsExact(start: Task, ops: seq<Op>, i: nat, finished: bool)
    requires Fresh(start) && i < |start.buffers| && start.budget.max > 0
    ensures var s := Run(start, ops);
            && i < |s.buffers|
            && Reload(RowOf(s.buffers[i], finished)) == s.buffers[i]
            && ReloadBudget(TaskRowOf(s.budget)) == s.budget
  {
    SharedBudget(start, ops);
    var s := Run(start, ops);
    hide Run, StreamOf, LostBefore, Holds, Reload, RowOf;
    assert BufferKept(start.buffers[i], s.buffers[i], s.budget, ops, i);
    ReloadSame(s.buffers[i], finished);
  }

  /** What the rows of a log say: how many bytes are stored, which are the bytes of head and tail and no more than the
      budget in all; and they are marked as truncated exactly when fewer bytes are stored than were received. */
  lemma RowsSayWhatIsLost(start: Task, ops: seq<Op>, i: nat, finished: bool)
    requires Fresh(start) && i < |start.buffers|
    ensures var s := Run(start, ops);
            && i < |s.buffers|
            && var row, task := RowOf(s.buffers[i], finished), TaskRowOf(s.budget);
               && row.finished == finished
               && row.stored == |row.head| + |row.tail|
               && row.received == |StreamOf(ops, i)| + LostBefore(ops, i)
               && row.dropped == row.received - row.stored && (row.truncated <==> row.stored < row.received)
               && task.stored == TotalStored(s.buffers) && task.received == TotalReceived(s.buffers)
               && task.max == start.budget.max && task.stored <= task.max
               && task.dropped == TotalDropped(s.buffers) == task.received - task.stored
               && (task.truncated <==> task.stored < task.received)
  {
    SharedBudget(start, ops);
    var s := Run(start, ops);
    hide Run, StreamOf, LostBefore, Holds, TotalStored, TotalReceived, TotalDropped;
    assert forall j :: 0 <= j < |s.buffers| ==> BufferKept(start.buffers[j], s.buffers[j], s.budget, ops, j);
    BuffersBalance(s.buffers);
  }

  /** What was received is stored or dropped, in every buffer and so in all of them. */
  lemma {:induction false} BuffersBalance(bs: seq<Buffer>)
    requires forall j :: 0 <= j < |bs| ==> bs[j].received == bs[j].Stored() + bs[j].dropped
    ensures TotalReceived(bs) == TotalStored(bs) + TotalDropped(bs)
  {
    if bs != [] {
      assert forall j :: 0 <= j < |bs[1..]| ==> bs[1..][j] == bs[j + 1];
      BuffersBalance(bs[1..]);
    }
  }

  // ---------------------------------------------------------------- the mutable table

  class LogTable {
    var steps: map<nat, StepRow>
    var task: Option<TaskRow>

    function Model(): Rows
      reads this
    {
      Rows(steps, task)
    }

    constructor ()
      ensures Model() == Rows(map[], None)
    {
      steps := map[];
      task := None;
    }

    /** One transaction: both upserts. */
    method Save(j: nat, row: StepRow, budget: TaskRow)
      modifies this
      ensures Model() == Persist(old(Model()), j, row, budget)
    {
      match task {
        case None => task := Some(budget);
        case Some(t) =>
          task := Some(TaskRow(Max(t.stored, budget.stored), Max(t.received, budget.received),
                               Max(t.dropped, budget.dropped), budget.max, t.truncated || budget.truncated));
      }
      if j !in steps {
        steps := steps[j := row];
      } else if steps[j].received <= row.received {
        var kept := steps[j];
        steps := steps[j := row.(headLimit := kept.headLimit, tailLimit := kept.tailLimit,
                                 finished := kept.finished || row.finished)];
      } else {
        assert steps == steps[j := steps[j]];
      }
    }
  }
}

/** Step log buffers that share one task budget: what any interleaving of appends and drops leaves in them. */
module LogBuffers {
  import opened Numbers
  import opened Bytes

  datatype Budget = Budget(max: nat, stored: nat, received: nat, dropped: nat)

  datatype Buffer = Buffer(headLimit: nat, tailLimit: nat, head: seq<byte>, tail: seq<byte>,
                           received: nat, dropped: nat)
  {
    function Stored(): nat { |head| + |tail| }
  }

  function Free(g: Budget): nat {
    if g.stored <= g.max then g.max - g.stored else 0
  }

  function FreshBuffer(headLimit: nat, tailLimit: nat): Buffer {
    Buffer(headLimit, tailLimit, [], [], 0, 0)
  }

  function FreshBudget(max: nat): Budget {
    Budget(max, 0, 0, 0)
  }

  /** How many of n more bytes the head takes, how many of m further ones the tail grows by. */
  function HeadGain(b: Buffer, g: Budget, n: nat): nat {
    if |b.head| < b.headLimit then Min(Min(b.headLimit - |b.head|, n), Free(g)) else 0
  }

  /** The bytes the head lays claim to, stored or not. */
  function HeadClaim(b: Buffer, n: nat): nat {
    if |b.head| < b.headLimit then Min(b.headLimit - |b.head|, n) else 0
  }

  function TailGain(b: Buffer, g: Budget, n: nat): nat {
    var rest := n - HeadClaim(b, n);
    if |b.tail| < b.tailLimit then Min(Min(b.tailLimit - |b.tail|, rest), Free(g) - HeadGain(b, g, n)) else 0
  }

  /** The buffer after more redacted bytes: the head grows while it may, the tail keeps the latest bytes. */
  function Stored(b: Buffer, g: Budget, bytes: seq<byte>): Buffer {
    var n := |bytes|;
    var h, t := HeadGain(b, g, n), TailGain(b, g, n);
    b.(head := b.head + bytes[..h],
       tail := Last(b.tail + bytes[HeadClaim(b, n)..], |b.tail| + t),
       received := b.received + n,
       dropped := b.dropped + n - h - t)
  }

  function Charged(b: Buffer, g: Budget, n: nat): Budget {
    var h, t := HeadGain(b, g, n), TailGain(b, g, n);
    g.(stored := g.stored + h + t, received := g.received + n, dropped := g.dropped + n - h - t)
  }

  // ---------------------------------------------------------------- runs over many buffers

  /** Redacted bytes reach buffer i, or count bytes for it were lost on the way. */
  datatype Op = Append(i: nat, bytes: seq<byte>) | ExternalDrop(i: nat, count: nat)

  datatype Task = Task(buffers: seq<Buffer>, budget: Budget)

  function Apply(s: Task, op: Op): Task {
    if op.i >= |s.buffers| then s else
    var b := s.buffers[op.i];
    match op
    case Append(i, bytes) =>
      Task(s.buffers[i := Stored(b, s.budget, bytes)], Charged(b, s.budget, |bytes|))
    case ExternalDrop(i, count) =>
      Task(s.buffers[i := b.(received := b.received + count, dropped := b.dropped + count)],
           s.budget.(received := s.budget.received + count, dropped := s.budget.dropped + count))
  }

  function Run(s: Task, ops: seq<Op>): Task {
    if ops == [] then s else Apply(Run(s, ops[..|ops| - 1]), ops[|ops| - 1])
  }

  /** The redacted stream of buffer i. */
  function StreamOf(ops: seq<Op>, i: nat): seq<byte> {
    if ops == [] then [] else
    var last := ops[|ops| - 1];
    StreamOf(ops[..|ops| - 1], i) + if last.Append? && last.i == i then last.bytes else []
  }

  function LostBefore(ops: seq<Op>, i: nat): nat {
    if ops == [] then 0 else
    var last := ops[|ops| - 1];
    LostBefore(ops[..|ops| - 1], i) + if last.ExternalDrop? && last.i == i then last.count else 0
  }

  function TotalStored(bs: seq<Buffer>): nat {
    if bs == [] then 0 else bs[0].Stored() + TotalStored(bs[1..])
  }

  function TotalReceived(bs: seq<Buffer>): nat {
    if bs == [] then 0 else bs[0].received + TotalReceived(bs[1..])
  }

  function TotalDropped(bs: seq<Buffer>): nat {
    if bs == [] then 0 else bs[0].dropped + TotalDropped(bs[1..])
  }

  lemma {:induction false} TotalsUpdate(bs: seq<Buffer>, i: nat, b: Buffer)
    requires i < |bs|
    ensures TotalStored(bs[i := b]) == TotalStored(bs) - bs[i].Stored() + b.Stored()
    ensures TotalReceived(bs[i := b]) == TotalReceived(bs) - bs[i].received + b.received
    ensures TotalDropped(bs[i := b]) == TotalDropped(bs) - bs[i].dropped + b.dropped
  {
    if i == 0 {
      assert bs[0 := b][1..] == bs[1..];
    } else {
      assert bs[i := b][1..] == bs[1..][i - 1 := b];
      TotalsUpdate(bs[1..], i - 1, b);
    }
  }

  /** The buffer holds a prefix and a suffix of its stream s, which do not overlap. */
  predicate Holds(b: Buffer, s: seq<byte>) {
    && |b.head| + |b.tail| <= |s|
    && b.head == s[..|b.head|]
    && b.tail == s[|s| - |b.tail|..]
  }

  /** Limits are kept, every byte is accounted for, and bytes are missing only for want of space: n bytes were
      streamed to the buffer and lost ones were dropped before they reached it. */
  predicate Accounts(b: Buffer, n: nat, lost: nat, free: nat) {
    Tally(b.headLimit, b.tailLimit, |b.head|, |b.tail|, b.received, b.dropped, n, lost, free)
  }

  predicate Tally(headLimit: nat, tailLimit: nat, head: nat, tail: nat, received: nat, dropped: nat,
                  n: nat, lost: nat, free: nat)
  {
    && head <= headLimit && tail <= tailLimit
    && received == n + lost == head + tail + dropped
    && (head < headLimit ==> tail == 0)
    && (head < Min(headLimit, n) ==> free == 0)
    && (tail < Min(tailLimit, n - head) ==> free == 0)
  }

  lemma Gains(b: Buffer, g: Budget, n: nat)
    ensures var h, t, c := HeadGain(b, g, n), TailGain(b, g, n), HeadClaim(b, n);
            && h <= c <= n && t <= n - c && h + t <= Free(g)
            && (h < c ==> h == Free(g))
            && (c == 0 || |b.head| + c <= b.headLimit)
            && (c < n ==> |b.head| + c >= b.headLimit)
            && (t == 0 || |b.tail| + t <= b.tailLimit)
            && (t == n - c || |b.tail| + t >= b.tailLimit || h + t == Free(g))
  {
  }

  lemma AppendCounts(b: Buffer, g: Budget, n: nat, lost: nat, m: nat)
    requires Accounts(b, n, lost, Free(g)) && |b.head| + |b.tail| <= n
    ensures var h, t := HeadGain(b, g, m), TailGain(b, g, m);
            && h + t <= m && h + t <= Free(g)
            && Tally(b.headLimit, b.tailLimit, |b.head| + h, |b.tail| + t, b.received + m, b.dropped + m - h - t,
                     n + m, lost, Free(g) - h - t)
  {
    Gains(b, g, m);
    hide HeadGain, TailGain, HeadClaim, Free;
  }

  lemma AppendHead(b: Buffer, g: Budget, s: seq<byte>, lost: nat, bytes: seq<byte>)
    requires Holds(b, s) && Accounts(b, |s|, lost, Free(g))
    ensures var h := HeadGain(b, g, |bytes|);
            h <= |bytes| && b.head + bytes[..h] == (s + bytes)[..|b.head| + h]
  {
    Gains(b, g, |bytes|);
    var h := HeadGain(b, g, |bytes|);
    hide HeadGain, TailGain, HeadClaim, Free;
    if h > 0 {
      assert |b.head| == |s|;
      assert b.head == s;
    }
  }

  lemma AppendTail(b: Buffer, g: Budget, s: seq<byte>, lost: nat, bytes: seq<byte>)
    requires Holds(b, s) && Accounts(b, |s|, lost, Free(g))
    ensures var c, t := HeadClaim(b, |bytes|), TailGain(b, g, |bytes|);
            && c <= |bytes| && t <= |bytes| - c
            && Last(b.tail + bytes[c..], |b.tail| + t) == (s + bytes)[|s| + |bytes| - |b.tail| - t..]
  {
    Gains(b, g, |bytes|);
    var c, t := HeadClaim(b, |bytes|), TailGain(b, g, |bytes|);
    assert c > 0 ==> |b.tail| == 0;
    hide HeadGain, TailGain, HeadClaim, Free, Accounts, Last;
    LastOfSuffix(b.tail, s, bytes, c, t);
  }

  lemma LastOfSuffix(tail: seq<byte>, s: seq<byte>, bytes: seq<byte>, c: nat, t: nat)
    requires |tail| <= |s| && tail == s[|s| - |tail|..] && c <= |bytes| && t <= |bytes| - c && (c > 0 ==> tail == [])
    ensures Last(tail + bytes[c..], |tail| + t) == (s + bytes)[|s| + |bytes| - |tail| - t..]
  {
    var joined := tail + bytes[c..];
    assert joined == (s + bytes)[|s| + |bytes| - |joined|..];
  }

  lemma AppendHolds(b: Buffer, g: Budget, s: seq<byte>, lost: nat, bytes: seq<byte>)
    requires Holds(b, s) && Accounts(b, |s|, lost, Free(g))
    ensures Holds(Stored(b, g, bytes), s + bytes)
    ensures |Stored(b, g, bytes).head| == |b.head| + HeadGain(b, g, |bytes|)
    ensures |Stored(b, g, bytes).tail| == |b.tail| + TailGain(b, g, |bytes|)
  {
    AppendHead(b, g, s, lost, bytes);
    AppendTail(b, g, s, lost, bytes);
    AppendCounts(b, g, |s|, lost, |bytes|);
    var r := Stored(b, g, bytes);
    var h, t := HeadGain(b, g, |bytes|), TailGain(b, g, |bytes|);
    assert r.head == b.head + bytes[..h] && r.tail == Last(b.tail + bytes[HeadClaim(b, |bytes|)..], |b.tail| + t);
    assert |b.head| + h + (|b.tail| + t) <= |s + bytes|;
    hide *;
    HeldParts(r, s + bytes, |b.head| + h, |b.tail| + t);
  }

  lemma HeldParts(b: Buffer, s: seq<byte>, head: nat, tail: nat)
    requires head + tail <= |s| && b.head == s[..head] && b.tail == s[|s| - tail..]
    ensures Holds(b, s) && |b.head| == head && |b.tail| == tail
  {
  }

  /** What a buffer and its budget charge each other. */
  predicate Agree(b: Buffer, g: Budget, b': Buffer, g': Budget) {
    && g'.stored - g.stored == b'.Stored() - b.Stored()
    && g'.received - g.received == b'.received - b.received
    && g'.dropped - g.dropped == b'.dropped - b.dropped
    && g'.max == g.max && g.stored <= g'.stored <= g'.max
  }

  lemma AppendAccounts(b: Buffer, g: Budget, s: seq<byte>, lost: nat, bytes: seq<byte>)
    requires Holds(b, s) && Accounts(b, |s|, lost, Free(g)) && g.stored <= g.max
    ensures Accounts(Stored(b, g, bytes), |s| + |bytes|, lost, Free(Charged(b, g, |bytes|)))
    ensures Agree(b, g, Stored(b, g, bytes), Charged(b, g, |bytes|))
  {
    AppendHolds(b, g, s, lost, bytes);
    AppendCounts(b, g, |s|, lost, |bytes|);
    hide HeadGain, TailGain, HeadClaim, Last, Tally, Holds;
  }

  predicate Balanced(s: Task) {
    && s.budget.stored == TotalStored(s.buffers) <= s.budget.max
    && s.budget.received == TotalReceived(s.buffers)
    && s.budget.dropped == TotalDropped(s.buffers)
  }

  /** Empty buffers, whatever their limits, on an unused budget. */
  predicate Fresh(s: Task) {
    && s.budget == FreshBudget(s.budget.max)
    && forall i :: 0 <= i < |s.buffers| ==>
         s.buffers[i] == FreshBuffer(s.buffers[i].headLimit, s.buffers[i].tailLimit)
  }

  ghost predicate Kept(start: Task, s: Task, ops: seq<Op>) {
    && |s.buffers| == |start.buffers| && s.budget.max == start.budget.max
    && forall i :: 0 <= i < |s.buffers| ==> BufferKept(start.buffers[i], s.buffers[i], s.budget, ops, i)
  }

  ghost predicate BufferKept(start: Buffer, b: Buffer, g: Budget, ops: seq<Op>, i: nat) {
    && b.headLimit == start.headLimit && b.tailLimit == start.tailLimit
    && Holds(b, StreamOf(ops, i))
    && Accounts(b, |StreamOf(ops, i)|, LostBefore(ops, i), Free(g))
  }

  lemma Streamed(ops: seq<Op>, op: Op, i: nat)
    ensures StreamOf(ops + [op], i) == if op.Append? && op.i == i then StreamOf(ops, i) + op.bytes else StreamOf(ops, i)
    ensures LostBefore(ops + [op], i) ==
            if op.ExternalDrop? && op.i == i then LostBefore(ops, i) + op.count else LostBefore(ops, i)
  {
    assert (ops + [op])[..|ops|] == ops;
    assert StreamOf(ops, i) + [] == StreamOf(ops, i);
  }

  lemma SameLimits(b: Buffer, g: Budget, bytes: seq<byte>)
    ensures Stored(b, g, bytes).headLimit == b.headLimit && Stored(b, g, bytes).tailLimit == b.tailLimit
  {
  }

  lemma AppendKeeps(start: Buffer, b: Buffer, g: Budget, ops: seq<Op>, i: nat, bytes: seq<byte>)
    requires g.stored <= g.max && BufferKept(start, b, g, ops, i)
    ensures BufferKept(start, Stored(b, g, bytes), Charged(b, g, |bytes|), ops + [Append(i, bytes)], i)
  {
    var stream, lost := StreamOf(ops, i), LostBefore(ops, i);
    Streamed(ops, Append(i, bytes), i);
    AppendHolds(b, g, stream, lost, bytes);
    AppendAccounts(b, g, stream, lost, bytes);
    SameLimits(b, g, bytes);
    hide StreamOf, LostBefore, Holds, Accounts, Stored, Free, Charged;
  }

  lemma DropKeeps(start: Buffer, b: Buffer, g: Budget, ops: seq<Op>, i: nat, count: nat)
    requires BufferKept(start, b, g, ops, i)
    ensures BufferKept(start, b.(received := b.received + count, dropped := b.dropped + count),
                       g.(received := g.received + count, dropped := g.dropped + count),
                       ops + [ExternalDrop(i, count)], i)
  {
    Streamed(ops, ExternalDrop(i, count), i);
    hide StreamOf, LostBefore;
  }

  lemma OpKeeps(start: Buffer, s: Task, ops: seq<Op>, op: Op)
    requires op.i < |s.buffers| && s.budget.stored <= s.budget.max
    requires BufferKept(start, s.buffers[op.i], s.budget, ops, op.i)
    ensures BufferKept(start, Apply(s, op).buffers[op.i], Apply(s, op).budget, ops + [op], op.i)
  {
    hide Stored, Charged, BufferKept;
    if op.Append? {
      AppendKeeps(start, s.buffers[op.i], s.budget, ops, op.i, op.bytes);
      assert op == Append(op.i, op.bytes);
    } else {
      DropKeeps(start, s.buffers[op.i], s.budget, ops, op.i, op.count);
      assert op == ExternalDrop(op.i, op.count);
    }
  }

  lemma OpAgrees(start: Buffer, s: Task, ops: seq<Op>, op: Op)
    requires op.i < |s.buffers| && s.budget.stored <= s.budget.max
    requires BufferKept(start, s.buffers[op.i], s.budget, ops, op.i)
    ensures Agree(s.buffers[op.i], s.budget, Apply(s, op).buffers[op.i], Apply(s, op).budget)
  {
    hide Stored, Charged, Agree, Holds, Accounts, Free, StreamOf, LostBefore;
    var b, g := s.buffers[op.i], s.budget;
    if op.Append? {
      AppendAccounts(b, g, StreamOf(ops, op.i), LostBefore(ops, op.i), op.bytes);
    } else {
      DropAgrees(b, g, op.count);
    }
  }

  lemma DropAgrees(b: Buffer, g: Budget, count: nat)
    requires g.stored <= g.max
    ensures Agree(b, g, b.(received := b.received + count, dropped := b.dropped + count),
                  g.(received := g.received + count, dropped := g.dropped + count))
  {
  }

  lemma OpFrames(start: Buffer, b: Buffer, g: Budget, g': Budget, ops: seq<Op>, op: Op, i: nat)
    requires op.i != i && Free(g') <= Free(g)
    requires BufferKept(start, b, g, ops, i)
    ensures BufferKept(start, b, g', ops + [op], i)
  {
    Streamed(ops, op, i);
  }

  lemma StepBalanced(s: Task, op: Op)
    requires op.i < |s.buffers| && Balanced(s)
    requires Agree(s.buffers[op.i], s.budget, Apply(s, op).buffers[op.i], Apply(s, op).budget)
    ensures Balanced(Apply(s, op))
    ensures Free(Apply(s, op).budget) <= Free(s.budget) && Apply(s, op).budget.max == s.budget.max
  {
    var s' := Apply(s, op);
    assert s'.buffers == s.buffers[op.i := s'.buffers[op.i]];
    TotalsUpdate(s.buffers, op.i, s'.buffers[op.i]);
    hide Apply, TotalStored, TotalReceived, TotalDropped;
  }

  lemma StepKept(start: Task, s: Task, ops: seq<Op>, op: Op)
    requires Kept(start, s, ops) && Balanced(s)
    ensures Kept(start, Apply(s, op), ops + [op]) && Balanced(Apply(s, op))
  {
    hide BufferKept, Agree, Free, Stored, Charged;
    var s' := Apply(s, op);
    if op.i < |s.buffers| {
      OpKeeps(start.buffers[op.i], s, ops, op);
      OpAgrees(start.buffers[op.i], s, ops, op);
      StepBalanced(s, op);
    }
    forall i | 0 <= i < |s'.buffers| && i != op.i
      ensures BufferKept(start.buffers[i], s'.buffers[i], s'.budget, ops + [op], i)
    {
      assert s'.buffers[i] == s.buffers[i];
      OpFrames(start.buffers[i], s.buffers[i], s.budget, s'.budget, ops, op, i);
    }
  }

  /** Shared-budget storage, for every interleaving of appends and external drops over fresh buffers: each buffer
      keeps a prefix and a suffix of its stream and accounts for the rest, the task's counters are the sums over
      its buffers, and the bytes stored never exceed the budget. */
  lemma {:induction false} SharedBudget(start: Task, ops: seq<Op>)
    requires Fresh(start)
    ensures Kept(start, Run(start, ops), ops)
    ensures Balanced(Run(start, ops))
    decreases |ops|
  {
    if ops == [] {
      FreshTotals(start.buffers);
    } else {
      hide Apply, Fresh, Kept, Balanced;
      var before, op := ops[..|ops| - 1], ops[|ops| - 1];
      assert ops == before + [op];
      SharedBudget(start, before);
      StepKept(start, Run(start, before), before, op);
    }
  }

  lemma {:induction false} FreshTotals(bs: seq<Buffer>)
    requires forall i :: 0 <= i < |bs| ==> bs[i] == FreshBuffer(bs[i].headLimit, bs[i].tailLimit)
    ensures TotalStored(bs) == TotalReceived(bs) == TotalDropped(bs) == 0
  {
    if bs != [] {
      FreshTotals(bs[1..]);
    }
  }

  // ---------------------------------------------------------------- one buffer on its own budget

  function HeadSize(headLimit: nat, max: nat, n: nat): nat {
    Min(n, Min(headLimit, max))
  }

  function TailSize(headLimit: nat, tailLimit: nat, max: nat, n: nat): nat {
    if n <= headLimit || max <= headLimit then 0 else Min(n - headLimit, Min(tailLimit, max - headLimit))
  }

  lemma SizesForced(b: Buffer, n: nat, lost: nat, max: nat)
    requires |b.head| + |b.tail| <= n && b.Stored() <= max
    requires Accounts(b, n, lost, max - b.Stored())
    ensures |b.head| == HeadSize(b.headLimit, max, n)
    ensures |b.tail| == TailSize(b.headLimit, b.tailLimit, max, n)
  {
  }

  lemma Alone(start: Task, ops: seq<Op>)
    requires Fresh(start) && |start.buffers| == 1
    ensures var bs := Run(start, ops).buffers;
            && |bs| == 1 && bs[0].headLimit == start.buffers[0].headLimit && bs[0].tailLimit == start.buffers[0].tailLimit
            && bs[0].Stored() <= start.budget.max && Holds(bs[0], StreamOf(ops, 0))
            && Accounts(bs[0], |StreamOf(ops, 0)|, LostBefore(ops, 0), start.budget.max - bs[0].Stored())
  {
    hide Run, Holds, Accounts, StreamOf, LostBefore, Fresh, TotalReceived, TotalDropped;
    SharedBudget(start, ops);
    var end := Run(start, ops);
    assert BufferKept(start.buffers[0], end.buffers[0], end.budget, ops, 0);
    assert end.buffers[1..] == [] && TotalStored([]) == 0;
    assert TotalStored(end.buffers) == end.buffers[0].Stored();
  }

  lemma Spelled(b: Buffer, s: seq<byte>, lost: nat, free: nat)
    requires Holds(b, s) && Accounts(b, |s|, lost, free)
    ensures |b.head| <= |s| && |b.tail| <= |s|
    ensures b == Buffer(b.headLimit, b.tailLimit, s[..|b.head|], s[|s| - |b.tail|..], |s| + lost,
                        |s| + lost - |b.head| - |b.tail|)
  {
  }

  lemma LoneBuffer(b: Buffer, s: seq<byte>, lost: nat, max: nat)
    requires b.Stored() <= max && Holds(b, s) && Accounts(b, |s|, lost, max - b.Stored())
    ensures var h, t := HeadSize(b.headLimit, max, |s|), TailSize(b.headLimit, b.tailLimit, max, |s|);
            h + t <= |s| && b == Buffer(b.headLimit, b.tailLimit, s[..h], s[|s| - t..], |s| + lost, |s| + lost - h - t)
  {
    hide HeadSize, TailSize, Accounts;
    SizesForced(b, |s|, lost, max);
    Spelled(b, s, lost, max - b.Stored());
  }

  lemma StartsFresh(headLimit: nat, tailLimit: nat, max: nat)
    ensures Fresh(Task([FreshBuffer(headLimit, tailLimit)], FreshBudget(max)))
    ensures var b := FreshBuffer(headLimit, tailLimit); b.headLimit == headLimit && b.tailLimit == tailLimit
    ensures FreshBudget(max).max == max
  {
  }

  /** A buffer alone on its budget keeps the first bytes of its stream, the last ones, and an exact count of the
      others: how the stream was cut and when drops were reported does not matter. */
  lemma ClosedForm(headLimit: nat, tailLimit: nat, max: nat, ops: seq<Op>)
    ensures var end := Run(Task([FreshBuffer(headLimit, tailLimit)], FreshBudget(max)), ops);
            var s, lost := StreamOf(ops, 0), LostBefore(ops, 0);
            var h, t := HeadSize(headLimit, max, |s|), TailSize(headLimit, tailLimit, max, |s|);
            end.buffers == [Buffer(headLimit, tailLimit, s[..h], s[|s| - t..], |s| + lost, |s| + lost - h - t)]
  {
    hide *;
    StartsFresh(headLimit, tailLimit, max);
    var start := Task([FreshBuffer(headLimit, tailLimit)], FreshBudget(max));
    Alone(start, ops);
    var bs := Run(start, ops).buffers;
    assert bs == [bs[0]];
    LoneBuffer(bs[0], StreamOf(ops, 0), LostBefore(ops, 0), max);
  }
}

/** The mutable step log: a task budget and the bounded buffers that draw on it, each behind its redactor. */
module StepLogs {
  import opened Numbers
  import opened Bytes
  import opened Streaming
  import opened LogBuffers
  import opened StreamingRedactors

  lemma NothingStored(b: Buffer, g: Budget)
    ensures Stored(b, g, []) == b && Charged(b, g, 0) == g
  {
    Gains(b, g, 0);
  }

  /** How many of n more bytes a part of the log may take that holds size bytes. */
  function Grant(limit: nat, size: nat, n: nat, free: nat): (t: nat)
    ensures t <= n && t <= free
  {
    if size < limit then Min(Min(limit - size, n), free) else 0
  }

  /** Head first, then what the head leaves over. */
  lemma StoredParts(b: Buffer, g: Budget, bytes: seq<byte>)
    ensures var n := |bytes|;
            var h, c := HeadGain(b, g, n), HeadClaim(b, n);
            && h <= c <= n && h <= Free(g)
            && var t := Grant(b.tailLimit, |b.tail|, n - c, Free(g) - h);
               && t <= n - c
               && Stored(b, g, bytes) ==
                    Buffer(b.headLimit, b.tailLimit, b.head + bytes[..h], Last(b.tail + bytes[c..], |b.tail| + t),
                           b.received + n, b.dropped + (c - h) + (n - c - t))
               && Charged(b, g, n) ==
                    Budget(g.max, g.stored + h + t, g.received + n, g.dropped + (c - h) + (n - c - t))
  {
    TailGainIsGrant(b, g, |bytes|);
    hide Last, HeadGain, HeadClaim, TailGain, Free, Grant;
  }

  lemma TailGainIsGrant(b: Buffer, g: Budget, n: nat)
    ensures var h, c := HeadGain(b, g, n), HeadClaim(b, n);
            && h <= c <= n && h <= Free(g)
            && TailGain(b, g, n) == Grant(b.tailLimit, |b.tail|, n - c, Free(g) - h)
  {
    Gains(b, g, n);
    hide HeadGain, HeadClaim, Free;
  }

  class TaskLogBudget {
    var maxBytes: nat
    var storedBytes: nat
    var receivedBytes: nat
    var droppedBytes: nat

    function Model(): Budget
      reads this
    {
      Budget(maxBytes, storedBytes, receivedBytes, droppedBytes)
    }

    constructor (max: nat)
      ensures Model() == FreshBudget(max)
    {
      maxBytes := max;
      storedBytes, receivedBytes, droppedBytes := 0, 0, 0;
    }

    /** Grants what is left of the budget. Nothing is ever given back. */
    method Allocate(requested: nat) returns (granted: nat)
      modifies this`storedBytes
      ensures granted == Min(requested, Free(old(Model())))
      ensures Model() == old(Model()).(stored := old(storedBytes) + granted)
      ensures Free(Model()) == Free(old(Model())) - granted
    {
      granted := Min(requested, Max(maxBytes - storedBytes, 0));
      storedBytes := storedBytes + granted;
    }
  }

  class BoundedLogBuffer {
    const headLimit: nat
    const tailLimit: nat
    var head: seq<byte>
    var tail: seq<byte>
    var receivedBytes: nat
    var droppedBytes: nat
    const redactor: StreamingRedactor

    function Model(): Buffer
      reads this
    {
      Buffer(headLimit, tailLimit, head, tail, receivedBytes, droppedBytes)
    }

    constructor (headLimit: nat, tailLimit: nat, secrets: seq<seq<byte>>)
      ensures Model() == FreshBuffer(headLimit, tailLimit)
      ensures fresh(redactor) && redactor.Valid() && redactor.configured == secrets
      ensures redactor.pending == [] && !redactor.maskingAssignment
    {
      this.headLimit, this.tailLimit := headLimit, tailLimit;
      head, tail := [], [];
      receivedBytes, droppedBytes := 0, 0;
      redactor := new StreamingRedactor(secrets);
    }

    /** Redacts the chunk as far as the redactor can decide and stores what it wrote. */
    method Append(chunk: seq<byte>, budget: TaskLogBudget)
      requires redactor.Valid()
      modifies this, budget, redactor`pending, redactor`maskingAssignment
      ensures redactor.Valid()
      ensures var p := Process(redactor.configured, redactor.overlap, old(redactor.pending) + chunk,
                               old(redactor.maskingAssignment), false);
              && redactor.pending == p.pending && redactor.maskingAssignment == p.masking
              && Model() == Stored(old(Model()), old(budget.Model()), p.out)
              && budget.Model() == Charged(old(Model()), old(budget.Model()), |p.out|)
    {
      var redacted := redactor.Push(chunk);
      AppendRedacted(redacted, budget);
    }

    method Finish(budget: TaskLogBudget)
      requires redactor.Valid()
      modifies this, budget, redactor`pending, redactor`maskingAssignment
      ensures redactor.Valid()
      ensures var p := Process(redactor.configured, redactor.overlap, old(redactor.pending),
                               old(redactor.maskingAssignment), true);
              && redactor.pending == p.pending && redactor.maskingAssignment == p.masking
              && Model() == Stored(old(Model()), old(budget.Model()), p.out)
              && budget.Model() == Charged(old(Model()), old(budget.Model()), |p.out|)
    {
      var redacted := redactor.Finish();
      AppendRedacted(redacted, budget);
    }

    method RecordExternalDrop(count: nat, budget: TaskLogBudget)
      modifies this, budget
      ensures Model() == old(Model()).(received := old(receivedBytes) + count, dropped := old(droppedBytes) + count)
      ensures budget.Model() == old(budget.Model()).(received := old(budget.receivedBytes) + count,
                                                     dropped := old(budget.droppedBytes) + count)
    {
      receivedBytes := receivedBytes + count;
      budget.receivedBytes := budget.receivedBytes + count;
      RecordDrop(count, budget);
    }

    method RecordDrop(count: nat, budget: TaskLogBudget)
      modifies this`droppedBytes, budget`droppedBytes
      ensures droppedBytes == old(droppedBytes) + count
      ensures budget.droppedBytes == old(budget.droppedBytes) + count
    {
      droppedBytes := droppedBytes + count;
      budget.droppedBytes := budget.droppedBytes + count;
    }

    method AppendRedacted(bytes: seq<byte>, budget: TaskLogBudget)
      modifies this, budget
      ensures Model() == Stored(old(Model()), old(budget.Model()), bytes)
      ensures budget.Model() == Charged(old(Model()), old(budget.Model()), |bytes|)
    {
      if bytes == [] {
        NothingStored(Model(), budget.Model());
        return;
      }
      StoredParts(Model(), budget.Model(), bytes);
      hide Last, Stored, Charged, HeadGain, HeadClaim, Grant;
      StoreBytes(bytes, budget);
      receivedBytes := receivedBytes + |bytes|;
      budget.receivedBytes := budget.receivedBytes + |bytes|;
    }

    /** The head takes what it may, and what it leaves over rolls through the tail. */
    method StoreBytes(bytes: seq<byte>, budget: TaskLogBudget)
      modifies this`head, this`tail, this`droppedBytes, budget`storedBytes, budget`droppedBytes
      ensures var b, g, n := old(Model()), old(budget.Model()), |bytes|;
              var h, c := HeadGain(b, g, n), HeadClaim(b, n);
              && h <= c <= n && h <= Free(g)
              && var t := Grant(b.tailLimit, |b.tail|, n - c, Free(g) - h);
                 && t <= n - c
                 && head == b.head + bytes[..h] && tail == Last(b.tail + bytes[c..], |b.tail| + t)
                 && droppedBytes == b.dropped + (c - h) + (n - c - t)
                 && budget.storedBytes == g.stored + h + t && budget.droppedBytes == g.dropped + (c - h) + (n - c - t)
    {
      StoredParts(Model(), budget.Model(), bytes);
      hide Last, Stored, Charged, HeadGain, HeadClaim, Free, Grant;
      var offset := GrowHead(bytes, budget);
      KeepLatest(bytes[offset..], budget);
    }

    /** Returns how many bytes the head took or gave up. */
    method GrowHead(bytes: seq<byte>, budget: TaskLogBudget) returns (offset: nat)
      modifies this`head, this`droppedBytes, budget`storedBytes, budget`droppedBytes
      ensures offset == HeadClaim(old(Model()), |bytes|) <= |bytes|
      ensures var h := HeadGain(old(Model()), old(budget.Model()), |bytes|);
              && h <= offset
              && head == old(head) + bytes[..h]
              && droppedBytes == old(droppedBytes) + offset - h
              && budget.storedBytes == old(budget.storedBytes) + h
              && budget.droppedBytes == old(budget.droppedBytes) + offset - h
              && Free(budget.Model()) == Free(old(budget.Model())) - h
    {
      offset := 0;
      if |head| < headLimit {
        var requested := Min(headLimit - |head|, |bytes|);
        var granted := budget.Allocate(requested);
        head := head + bytes[..granted];
        offset := offset + granted;
        if granted < requested {
          RecordDrop(requested - granted, budget);
          offset := offset + (requested - granted);
        }
      }
    }

    /** The tail grows while limit and budget allow; then it rolls. */
    method KeepLatest(rest: seq<byte>, budget: TaskLogBudget)
      modifies this`tail, this`droppedBytes, budget`storedBytes, budget`droppedBytes
      ensures var t := Grant(tailLimit, |old(tail)|, |rest|, Free(old(budget.Model())));
              && tail == Last(old(tail) + rest, |old(tail)| + t)
              && droppedBytes == old(droppedBytes) + |rest| - t
              && budget.storedBytes == old(budget.storedBytes) + t
              && budget.droppedBytes == old(budget.droppedBytes) + |rest| - t
    {
      hide Last;
      var remaining := rest;
      if |tail| < tailLimit && remaining != [] {
        var requested := Min(tailLimit - |tail|, |remaining|);
        var granted := budget.Allocate(requested);
        tail := tail + remaining[..granted];
        remaining := remaining[granted..];
      }
      assert tail + remaining == old(tail) + rest;
      RollTail(remaining, budget);
    }

    /** A full tail makes room for more bytes, and as many are dropped. */
    method RollTail(remaining: seq<byte>, budget: TaskLogBudget)
      modifies this`tail, this`droppedBytes, budget`droppedBytes
      ensures tail == Last(old(tail) + remaining, |old(tail)|)
      ensures droppedBytes == old(droppedBytes) + |remaining|
      ensures budget.droppedBytes == old(budget.droppedBytes) + |remaining|
    {
      RollIsLast(tail, remaining);
      var retained := |tail|;
      if remaining != [] && retained > 0 {
        if |remaining| >= retained {
          tail := remaining[|remaining| - retained..];
        } else {
          tail := tail[|remaining|..] + remaining;
        }
      }
      RecordDrop(|remaining|, budget);
    }
  }
}

/** The way of a step's output: from its redactor through a bounded channel, which may drop, to the writer, which
    gathers bytes and hands them to the step's buffer. */
module LogWriter {
  import opened Numbers
  import opened Bytes
  import opened Options
  import opened Redaction
  import opened Streaming
  import opened StreamingRedactors
  import RedactionSafety

  const CAPACITY: nat := 256
  const CHUNK_BYTES: nat := 16384
  const FLUSH_BYTES: nat := 1048576

  datatype Message = Chunk(bytes: seq<byte>) | Barrier

  /** A piece of redacted output, and whether the channel took it. */
  datatype Piece = Piece(bytes: seq<byte>, taken: bool)

  /** No chunk is empty, and none is longer than the channel's messages may be. */
  predicate ChunkSized(bytes: seq<byte>) { 0 < |bytes| <= CHUNK_BYTES }

  ghost predicate SizedQueue(queue: seq<Message>) {
    forall m :: m in queue && m.Chunk? ==> ChunkSized(m.bytes)
  }

  ghost predicate SizedPieces(pieces: seq<Piece>) {
    forall p :: p in pieces ==> ChunkSized(p.bytes)
  }

  function Queued(queue: seq<Message>): seq<byte> {
    if queue == [] then [] else (if queue[0].Chunk? then queue[0].bytes else []) + Queued(queue[1..])
  }

  function Produced(pieces: seq<Piece>): seq<byte> {
    if pieces == [] then [] else Produced(pieces[..|pieces| - 1]) + pieces[|pieces| - 1].bytes
  }

  function Taken(pieces: seq<Piece>): seq<byte> {
    if pieces == [] then [] else
    var last := pieces[|pieces| - 1];
    Taken(pieces[..|pieces| - 1]) + if last.taken then last.bytes else []
  }

  function Refused(pieces: seq<Piece>): nat {
    if pieces == [] then 0 else
    var last := pieces[|pieces| - 1];
    Refused(pieces[..|pieces| - 1]) + if last.taken then 0 else |last.bytes|
  }

  /** What the redactor has written after these chunks, and what it holds. */
  function Pushed(secrets: seq<seq<byte>>, overlap: nat, chunks: seq<seq<byte>>): Progress {
    if chunks == [] then Progress([], [], false) else
    var p := Pushed(secrets, overlap, chunks[..|chunks| - 1]);
    var q := Process(secrets, overlap, p.pending + chunks[|chunks| - 1], p.masking, false);
    Progress(p.out + q.out, q.pending, q.masking)
  }

  lemma PushedNext(secrets: seq<seq<byte>>, overlap: nat, chunks: seq<seq<byte>>, chunk: seq<byte>)
    ensures var p := Pushed(secrets, overlap, chunks);
            var q := Process(secrets, overlap, p.pending + chunk, p.masking, false);
            Pushed(secrets, overlap, chunks + [chunk]) == Progress(p.out + q.out, q.pending, q.masking)
  {
    hide Process;
    assert (chunks + [chunk])[..|chunks|] == chunks;
  }

  lemma {:induction false} QueuedAppend(queue: seq<Message>, m: Message)
    ensures Queued(queue + [m]) == Queued(queue) + if m.Chunk? then m.bytes else []
  {
    if queue == [] {
      assert [m][1..] == [];
    } else {
      assert (queue + [m])[1..] == queue[1..] + [m];
      QueuedAppend(queue[1..], m);
    }
  }

  lemma QueuedFirst(queue: seq<Message>)
    requires queue != []
    ensures Queued(queue) == (if queue[0].Chunk? then queue[0].bytes else []) + Queued(queue[1..])
    ensures SizedQueue(queue) ==> SizedQueue(queue[1..])
  {
  }

  lemma OnePiece(pieces: seq<Piece>, p: Piece)
    ensures Produced(pieces + [p]) == Produced(pieces) + p.bytes
    ensures Taken(pieces + [p]) == Taken(pieces) + if p.taken then p.bytes else []
    ensures Refused(pieces + [p]) == Refused(pieces) + if p.taken then 0 else |p.bytes|
  {
    assert (pieces + [p])[..|pieces|] == pieces;
  }

  /** Nothing is counted twice and nothing is forgotten; what was refused is all that is missing. */
  lemma {:induction false} Conserved(pieces: seq<Piece>)
    ensures |Taken(pieces)| + Refused(pieces) == |Produced(pieces)|
    ensures Refused(pieces) == 0 ==> Taken(pieces) == Produced(pieces)
  {
    if pieces != [] {
      Conserved(pieces[..|pieces| - 1]);
    }
  }

  /** How many messages n bytes take. */
  function Chunks(n: nat): nat { (n + CHUNK_BYTES - 1) / CHUNK_BYTES }

  lemma NoChunks()
    ensures Chunks(0) == 0
  {
  }

  lemma OneChunkLess(n: nat, taken: nat)
    requires 0 < n && taken == Min(CHUNK_BYTES, n)
    ensures Chunks(n) == 1 + Chunks(n - taken)
  {
    if n <= CHUNK_BYTES {
      assert Chunks(n) == 1;
    } else {
      assert n + CHUNK_BYTES - 1 == (n - CHUNK_BYTES + CHUNK_BYTES - 1) + CHUNK_BYTES;
    }
  }

  /** Pushing chunk by chunk and then finishing writes the redacted stream. */
  lemma {:induction false} PushedStream(secrets: seq<seq<byte>>, overlap: nat, chunks: seq<seq<byte>>,
                                        more: seq<seq<byte>>)
    ensures var p := Pushed(secrets, overlap, chunks);
            Stream(secrets, overlap, chunks + more, [], false) == p.out + Stream(secrets, overlap, more, p.pending, p.masking)
    decreases |chunks|
  {
    hide Process;
    if chunks == [] {
      assert [] + more == more;
    } else {
      var before, last := chunks[..|chunks| - 1], chunks[|chunks| - 1];
      PushedStream(secrets, overlap, before, [last] + more);
      assert before + ([last] + more) == chunks + more;
      assert ([last] + more)[1..] == more;
    }
  }

  lemma PushedThenFinished(secrets: seq<seq<byte>>, overlap: nat, chunks: seq<seq<byte>>)
    ensures var p := Pushed(secrets, overlap, chunks);
            Stream(secrets, overlap, chunks, [], false) == p.out + Process(secrets, overlap, p.pending, p.masking, true).out
  {
    hide Process, Pushed;
    PushedStream(secrets, overlap, chunks, []);
    assert chunks + [] == chunks;
  }

  /** What a sink has handed on when nothing is on its way any more. */
  lemma HandedOn(secrets: seq<seq<byte>>, writes: seq<seq<byte>>, pieces: seq<Piece>, appended: seq<seq<byte>>,
                 reported: nat)
    requires Produced(pieces) == Stream(secrets, Overlap(secrets), writes, [], false)
    requires Taken(pieces) == Flatten(appended) && Refused(pieces) == reported
    ensures |Flatten(appended)| + reported == |Stream(secrets, Overlap(secrets), writes, [], false)|
    ensures reported == 0 ==> Flatten(appended) == Stream(secrets, Overlap(secrets), writes, [], false)
    ensures reported == 0 && Conforms(secrets, Overlap(secrets), Flatten(writes), false) ==>
              Stream([], Overlap([]), appended, [], false) == Scan(secrets, Flatten(writes), false)
  {
    hide Stream, Conforms, Scan, Overlap;
    Conserved(pieces);
    if reported == 0 && Conforms(secrets, Overlap(secrets), Flatten(writes), false) {
      RedactionSafety.PipelineRedacts(secrets, writes, appended);
    }
  }

  class StepOutputSink {
    const redactor: StreamingRedactor
    var queue: seq<Message>
    var droppedBytes: nat
    var pending: seq<byte>
    /** What the writer has handed on: appended chunks, and drops it has reported. */
    var appended: seq<seq<byte>>
    var reported: nat
    ghost var pieces: seq<Piece>
    ghost var writes: seq<seq<byte>>

    ghost predicate Valid()
      reads this, redactor
    {
      && redactor.Valid() && |queue| <= CAPACITY && SizedQueue(queue) && SizedPieces(pieces)
      && Taken(pieces) == Flatten(appended) + pending + Queued(queue)
      && Refused(pieces) == droppedBytes + reported
    }

    /** Everything the redactor wrote for the writes so far was offered to the channel. */
    ghost predicate Offered()
      reads this, redactor
    {
      var p := Pushed(redactor.configured, redactor.overlap, writes);
      Produced(pieces) == p.out && redactor.pending == p.pending && redactor.maskingAssignment == p.masking
    }

    constructor (secrets: seq<seq<byte>>)
      ensures Valid() && Offered() && writes == [] && pieces == [] && redactor.configured == secrets && fresh(redactor)
    {
      redactor := new StreamingRedactor(secrets);
      queue, pending, appended := [], [], [];
      droppedBytes, reported := 0, 0;
      pieces, writes := [], [];
    }

    /** A channel with room takes the chunk; a full one refuses it, which is counted. */
    method Offer(chunk: seq<byte>)
      requires Valid() && ChunkSized(chunk)
      modifies this`queue, this`droppedBytes, this`pieces
      ensures Valid() && pieces == old(pieces) + [Piece(chunk, |old(queue)| < CAPACITY)]
      ensures Produced(pieces) == Produced(old(pieces)) + chunk
      ensures |old(queue)| < CAPACITY ==>
                && queue == old(queue) + [Chunk(chunk)] && droppedBytes == old(droppedBytes)
                && Refused(pieces) == Refused(old(pieces))
      ensures |old(queue)| == CAPACITY ==>
                && queue == old(queue) && droppedBytes == old(droppedBytes) + |chunk|
                && Refused(pieces) == Refused(old(pieces)) + |chunk|
    {
      OnePiece(pieces, Piece(chunk, |queue| < CAPACITY));
      QueuedAppend(queue, Chunk(chunk));
      hide Taken, Refused, Produced, Queued;
      pieces := pieces + [Piece(chunk, |queue| < CAPACITY)];
      if |queue| < CAPACITY {
        queue := queue + [Chunk(chunk)];
      } else {
        droppedBytes := droppedBytes + |chunk|;
      }
    }

    /** Offers redacted bytes to the channel, in chunks; the writer may run between any two of them. When there is room
        for all of them, none is refused, however slow the writer is. */
    method Enqueue(redacted: seq<byte>)
      requires Valid()
      modifies this`queue, this`droppedBytes, this`pieces, this`pending, this`appended, this`reported
      ensures Valid() && Produced(pieces) == Produced(old(pieces)) + redacted
      ensures |queue| <= |old(queue)| + Chunks(|redacted|)
      ensures |old(queue)| + Chunks(|redacted|) <= CAPACITY ==> Refused(pieces) == Refused(old(pieces))
    {
      hide Taken, Refused, Produced, Queued, SizedQueue, SizedPieces, Chunks;
      var offset := 0;
      NoChunks();
      while offset < |redacted|
        invariant offset <= |redacted| && Valid() && Produced(pieces) == Produced(old(pieces)) + redacted[..offset]
        invariant |queue| + Chunks(|redacted| - offset) <= |old(queue)| + Chunks(|redacted|)
        invariant |old(queue)| + Chunks(|redacted|) <= CAPACITY ==> Refused(pieces) == Refused(old(pieces))
      {
        var next := Min(offset + CHUNK_BYTES, |redacted|);
        assert redacted[..next] == redacted[..offset] + redacted[offset..next];
        OneChunkLess(|redacted| - offset, next - offset);
        Offer(redacted[offset..next]);
        offset := next;
        WriterRuns();
      }
      assert redacted[..offset] == redacted;
    }

    /** What the redactor writes for a chunk goes to the channel. */
    method Write(chunk: seq<byte>)
      requires Valid() && Offered()
      modifies this`queue, this`droppedBytes, this`pieces, this`pending, this`appended, this`reported, this`writes,
               redactor`pending, redactor`maskingAssignment
      ensures Valid() && Offered()
      ensures writes == if chunk == [] then old(writes) else old(writes) + [chunk]
      ensures var out := |Produced(pieces)| - |Produced(old(pieces))|;
              && out >= 0 && |queue| <= |old(queue)| + Chunks(out)
              && (|old(queue)| + Chunks(out) <= CAPACITY ==> Refused(pieces) == Refused(old(pieces)))
    {
      hide Taken, Refused, Produced, Queued, SizedQueue, SizedPieces, Chunks, Process, Pushed;
      if chunk == [] {
        NoChunks();
        return;
      }
      PushedNext(redactor.configured, redactor.overlap, writes, chunk);
      var redacted := redactor.Push(chunk);
      Enqueue(redacted);
      writes := writes + [chunk];
    }

    /** The writer works beside the sink: it takes any number of messages and, when its timer fires, hands on what it
        has gathered. */
    method WriterRuns()
      requires Valid()
      modifies this`queue, this`pending, this`appended, this`droppedBytes, this`reported
      ensures Valid() && |queue| <= |old(queue)|
    {
      var turns: nat := *;
      while turns > 0
        invariant Valid() && |queue| <= |old(queue)|
      {
        var timer, appendWorks, reportWorks := *, *, *;
        if timer {
          var ignored := Flush(appendWorks, reportWorks);
        } else if queue != [] {
          var ignored := Receive(appendWorks, reportWorks);
        }
        turns := turns - 1;
      }
    }

    /** The writer hands the gathered bytes on, then the drops; either may fail, and is then tried again later. */
    method Flush(appendWorks: bool, reportWorks: bool) returns (r: Result<bool, string>)
      requires Valid()
      modifies this`pending, this`appended, this`droppedBytes, this`reported
      ensures Valid()
      ensures r.Ok? <==> (old(pending) == [] || appendWorks) && (old(droppedBytes) == 0 || reportWorks)
      ensures r.Ok? ==> pending == [] && droppedBytes == 0 && (r.value <==> old(pending) != [] || old(droppedBytes) > 0)
      ensures if old(pending) == [] || appendWorks
              then pending == [] && appended == old(appended) + if old(pending) == [] then [] else [old(pending)]
              else pending == old(pending) && appended == old(appended)
      ensures if r.Ok? then reported == old(reported) + old(droppedBytes)
              else reported == old(reported) && droppedBytes == old(droppedBytes)
    {
      var changed := false;
      if pending != [] {
        if !appendWorks {
          return Err("append");
        }
        FlattenSplit(appended, [pending]);
        assert Flatten([pending]) == pending by { assert [pending][1..] == []; }
        appended := appended + [pending];
        pending := [];
        changed := true;
      }
      var dropped := droppedBytes;
      droppedBytes := 0;
      if dropped > 0 {
        if !reportWorks {
          droppedBytes := droppedBytes + dropped;
          return Err("report");
        }
        reported := reported + dropped;
        changed := true;
      }
      r := Ok(changed);
    }

    /** The writer takes the next message. */
    method Receive(appendWorks: bool, reportWorks: bool) returns (barrier: Option<Result<bool, string>>)
      requires Valid() && queue != []
      modifies this`queue, this`pending, this`appended, this`droppedBytes, this`reported
      ensures Valid() && queue == old(queue)[1..]
      ensures barrier.Some? <==> old(queue)[0] == Barrier
      ensures barrier.Some? ==>
                (barrier.value.Ok? <==> (old(pending) == [] || appendWorks) && (old(droppedBytes) == 0 || reportWorks))
      ensures barrier.Some? && barrier.value.Ok? ==> pending == [] && droppedBytes == 0
      ensures old(queue)[0].Chunk? ==>
                var gathered := old(pending) + old(queue)[0].bytes;
                if |gathered| < FLUSH_BYTES || !appendWorks then pending == gathered && appended == old(appended)
                else pending == [] && appended == old(appended) + [gathered]
    {
      QueuedFirst(queue);
      hide Taken, Refused, Queued, SizedQueue, SizedPieces;
      var message := queue[0];
      queue := queue[1..];
      barrier := None;
      match message {
        case Chunk(bytes) =>
          assert Flatten(appended) + pending + (bytes + Queued(queue)) == Flatten(appended) + (pending + bytes) + Queued(queue);
          pending := pending + bytes;
          if |pending| >= FLUSH_BYTES {
            var ignored := Flush(appendWorks, reportWorks);
          }
        case Barrier =>
          var result := Flush(appendWorks, reportWorks);
          barrier := Some(result);
      }
    }

    /** The last bytes of the redactor go the same way, and a barrier waits until the writer has handed all of it on;
        it succeeds when nothing fails at the barrier. When nothing was refused before and there is room for the last
        bytes, the step's own redactor then leaves the writes redacted as a whole. */
    method FinishRedaction(appendWorks: bool, reportWorks: bool) returns (r: Result<bool, string>)
      requires Valid() && Offered()
      modifies this`queue, this`pending, this`appended, this`droppedBytes, this`reported, this`pieces,
               redactor`pending, redactor`maskingAssignment
      ensures Valid() && Produced(pieces) == Stream(redactor.configured, redactor.overlap, writes, [], false)
      ensures appendWorks && reportWorks ==> r.Ok?
      ensures r.Ok? ==> |Flatten(appended)| + reported == |Stream(redactor.configured, redactor.overlap, writes, [], false)|
      ensures r.Ok? && reported == 0 ==> Flatten(appended) == Stream(redactor.configured, redactor.overlap, writes, [], false)
      ensures r.Ok? && reported == 0 && Conforms(redactor.configured, redactor.overlap, Flatten(writes), false) ==>
                Stream([], Overlap([]), appended, [], false) == Scan(redactor.configured, Flatten(writes), false)
      ensures var last := |Produced(pieces)| - |Produced(old(pieces))|;
              && last >= 0
              && (r.Ok? && Refused(old(pieces)) == 0 && |old(queue)| + Chunks(last) <= CAPACITY ==>
                    reported == 0 && Flatten(appended) == Stream(redactor.configured, redactor.overlap, writes, [], false))
    {
      hide Taken, Refused, Produced, Queued, SizedQueue, SizedPieces, Stream, Conforms, Scan, Overlap, Chunks;
      ghost var secrets, overlap := redactor.configured, redactor.overlap;
      PushedThenFinished(secrets, overlap, writes);
      var rest := redactor.Finish();
      Enqueue(rest);
      r := Drain(appendWorks, reportWorks);
      if r.Ok? {
        HandedOn(secrets, writes, pieces, appended, reported);
      }
    }

    /** A barrier is sent once the channel has room, and answered after everything before it. */
    method Drain(appendWorks: bool, reportWorks: bool) returns (r: Result<bool, string>)
      requires Valid()
      modifies this`queue, this`pending, this`appended, this`droppedBytes, this`reported
      ensures Valid() && queue == []
      ensures appendWorks && reportWorks ==> r.Ok?
      ensures r.Ok? ==> Taken(pieces) == Flatten(appended) && Refused(pieces) == reported
    {
      hide Taken, Refused, SizedQueue, SizedPieces;
      WriterRuns();
      if |queue| == CAPACITY {
        var now, later := *, *;
        var ignored := Receive(now, later);
      }
      SendBarrier();
      while |queue| > 1
        invariant Valid() && queue != [] && queue[|queue| - 1] == Barrier
        decreases |queue|
      {
        var now, later := *, *;
        var ignored := Receive(now, later);
      }
      var answer := Receive(appendWorks, reportWorks);
      r := answer.value;
      assert Queued(queue) == [];
    }

    method SendBarrier()
      requires Valid() && |queue| < CAPACITY
      modifies this`queue
      ensures Valid() && queue == old(queue) + [Barrier]
    {
      QueuedAppend(queue, Barrier);
      queue := queue + [Barrier];
    }
  }
}

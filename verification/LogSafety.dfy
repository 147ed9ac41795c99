/** From a command's writes to the log that is stored: redaction, the second redactor and the shared budget together. */
module LogSafety {
  import opened Bytes
  import opened Redaction
  import opened RedactionSafety
  import opened Streaming
  import opened LogBuffers

  lemma OccursInPart(x: seq<byte>, s: seq<byte>, a: nat, b: nat)
    requires a <= b <= |s| && Occurs(x, s[a..b])
    ensures Occurs(x, s)
  {
    var part := s[a..b];
    var k: nat :| k <= |part| && OccursAt(x, part, k);
    assert part[k..] == s[a + k..b];
    assert x <= s[a + k..];
    assert OccursAt(x, s, a + k);
  }

  /** The head and the tail that a buffer stores are parts of its stream, whatever else shares its budget. */
  lemma StoredIsPart(start: Task, ops: seq<Op>, i: nat, x: seq<byte>)
    requires Fresh(start) && i < |start.buffers| && !Occurs(x, StreamOf(ops, i))
    ensures i < |Run(start, ops).buffers|
    ensures !Occurs(x, Run(start, ops).buffers[i].head) && !Occurs(x, Run(start, ops).buffers[i].tail)
  {
    hide Run, StreamOf, Occurs, Fresh, Balanced;
    SharedBudget(start, ops);
    var b, s := Run(start, ops).buffers[i], StreamOf(ops, i);
    assert BufferKept(start.buffers[i], b, Run(start, ops).budget, ops, i);
    assert b.head == s[0..|b.head|] && b.tail == s[|s| - |b.tail|..|s|];
    if Occurs(x, b.head) { OccursInPart(x, s, 0, |b.head|); }
    if Occurs(x, b.tail) { OccursInPart(x, s, |s| - |b.tail|, |s|); }
  }

  /** No secret that redaction can hide is stored: when nothing was dropped on the way to the buffer, and the
      assignments of the output fit the window, then at every point of the stream neither the head nor the tail that
      is kept holds one, however the writes and the appends were cut and whatever shares the task's budget. */
  lemma NoSecretStored(secrets: seq<seq<byte>>, writes: seq<seq<byte>>, appends: seq<seq<byte>>, start: Task,
                       ops: seq<Op>, i: nat, x: seq<byte>)
    requires x in secrets && Hideable(x)
    requires Conforms(secrets, Overlap(secrets), Flatten(writes), false)
    requires Flatten(appends) == Stream(secrets, Overlap(secrets), writes, [], false)
    requires Fresh(start) && i < |start.buffers|
    requires StreamOf(ops, i) <= Stream([], Overlap([]), appends, [], false)
    ensures i < |Run(start, ops).buffers|
    ensures !Occurs(x, Run(start, ops).buffers[i].head) && !Occurs(x, Run(start, ops).buffers[i].tail)
  {
    hide Run, StreamOf, Occurs, Fresh, Conforms, Scan, Stream, Hideable, Overlap;
    PipelineRedacts(secrets, writes, appends);
    NoSecretInScan(secrets, Flatten(writes), x);
    var s, text := StreamOf(ops, i), Scan(secrets, Flatten(writes), false);
    assert s == text[0..|s|];
    if Occurs(x, s) { OccursInPart(x, text, 0, |s|); }
    StoredIsPart(start, ops, i, x);
  }
}

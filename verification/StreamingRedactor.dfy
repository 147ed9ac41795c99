/** The streaming redactor itself: secrets kept longest first, a pending window, and a masking flag. */
module StreamingRedactors {
  import opened Numbers
  import opened Bytes
  import opened Redaction
  import opened Streaming

  // ---------------------------------------------------------------- the prepared secret list

  function NonEmpty(raw: seq<seq<byte>>): seq<seq<byte>> {
    if raw == [] then [] else (if raw[0] == [] then [] else [raw[0]]) + NonEmpty(raw[1..])
  }

  function InsertByLength(x: seq<byte>, xs: seq<seq<byte>>): seq<seq<byte>> {
    if xs == [] || |x| >= |xs[0]| then [x] + xs else [xs[0]] + InsertByLength(x, xs[1..])
  }

  function SortByLength(xs: seq<seq<byte>>): seq<seq<byte>> {
    if xs == [] then [] else InsertByLength(xs[0], SortByLength(xs[1..]))
  }

  /** Drops repetitions that stand next to each other. */
  function Dedup(xs: seq<seq<byte>>): seq<seq<byte>> {
    if |xs| < 2 then xs
    else if xs[0] == xs[1] then Dedup(xs[1..])
    else [xs[0]] + Dedup(xs[1..])
  }

  function Prepare(raw: seq<seq<byte>>): seq<seq<byte>> {
    Dedup(SortByLength(NonEmpty(raw)))
  }

  predicate LongestFirst(xs: seq<seq<byte>>) {
    forall i, j :: 0 <= i < j < |xs| ==> |xs[i]| >= |xs[j]|
  }

  /** The length of the first listed secret that starts s, 0 if none does. */
  function FirstMatch(xs: seq<seq<byte>>, s: seq<byte>): nat {
    if xs == [] then 0 else if xs[0] <= s then |xs[0]| else FirstMatch(xs[1..], s)
  }

  lemma {:induction false} NonEmptyKeeps(raw: seq<seq<byte>>)
    ensures forall x :: x in NonEmpty(raw) <==> x in raw && x != []
  {
    if raw != [] {
      NonEmptyKeeps(raw[1..]);
      assert raw == [raw[0]] + raw[1..];
    }
  }

  lemma {:induction false} InsertKeeps(x: seq<byte>, xs: seq<seq<byte>>)
    requires LongestFirst(xs)
    ensures LongestFirst(InsertByLength(x, xs))
    ensures forall y :: y in InsertByLength(x, xs) <==> y == x || y in xs
  {
    if xs != [] && |x| < |xs[0]| {
      InsertKeeps(x, xs[1..]);
      assert xs == [xs[0]] + xs[1..];
      var ys := InsertByLength(x, xs[1..]);
      assert forall j :: 0 <= j < |ys| ==> ys[j] in ys;
    }
  }

  lemma {:induction false} SortKeeps(xs: seq<seq<byte>>)
    ensures LongestFirst(SortByLength(xs))
    ensures forall y :: y in SortByLength(xs) <==> y in xs
  {
    if xs != [] {
      SortKeeps(xs[1..]);
      InsertKeeps(xs[0], SortByLength(xs[1..]));
      assert xs == [xs[0]] + xs[1..];
    }
  }

  lemma {:induction false} DedupMembers(xs: seq<seq<byte>>, y: seq<byte>)
    ensures y in Dedup(xs) <==> y in xs
  {
    if |xs| >= 2 {
      DedupMembers(xs[1..], y);
      assert xs == [xs[0]] + xs[1..];
      assert xs[1..][0] == xs[1];
    }
  }

  lemma {:induction false} DedupOrder(xs: seq<seq<byte>>)
    requires LongestFirst(xs)
    ensures LongestFirst(Dedup(xs))
  {
    if |xs| >= 2 {
      DedupOrder(xs[1..]);
      var ys := Dedup(xs[1..]);
      forall j | 0 <= j < |ys| ensures |ys[j]| <= |xs[0]| {
        DedupMembers(xs[1..], ys[j]);
      }
    }
  }

  /** The prepared list holds the configured secrets, longest first. */
  lemma PrepareKeeps(raw: seq<seq<byte>>)
    ensures LongestFirst(Prepare(raw))
    ensures forall y :: y in Prepare(raw) <==> y in raw && y != []
  {
    NonEmptyKeeps(raw);
    SortKeeps(NonEmpty(raw));
    var sorted := SortByLength(NonEmpty(raw));
    DedupOrder(sorted);
    forall y ensures y in Dedup(sorted) <==> y in sorted {
      DedupMembers(sorted, y);
    }
  }

  lemma {:induction false} FirstIsLongest(xs: seq<seq<byte>>, s: seq<byte>)
    requires LongestFirst(xs)
    ensures FirstMatch(xs, s) == MatchLength(xs, s)
  {
    if xs != [] {
      FirstIsLongest(xs[1..], s);
      if xs[0] <= s {
        MatchFacts(xs, s);
        MatchFacts(xs[1..], s);
        var m := MatchLength(xs[1..], s);
        assert m > 0 ==> s[..m] in xs;
      }
    }
  }

  /** Taking the first listed match takes the longest configured one. */
  lemma PreparedMatch(raw: seq<seq<byte>>, xs: seq<seq<byte>>, s: seq<byte>)
    requires LongestFirst(xs)
    requires forall y :: y in xs <==> y in raw && y != []
    ensures FirstMatch(xs, s) == MatchLength(raw, s)
  {
    FirstIsLongest(xs, s);
    SameSecrets(xs, raw, s);
  }

  lemma SameLongest(xs: seq<seq<byte>>, raw: seq<seq<byte>>)
    requires forall y :: y in xs <==> y in raw && y != []
    ensures Longest(xs) == Longest(raw)
  {
    LongestFacts(xs);
    LongestFacts(raw);
  }

  // ---------------------------------------------------------------- the assignment prefix

  method SkipBlanks(v: seq<byte>, from: nat) returns (offset: nat)
    requires from <= |v|
    ensures offset == BlankEnd(v, from)
  {
    offset := from;
    while offset < |v| && IsWhitespace(v[offset])
      invariant from <= offset <= |v|
      invariant BlankEnd(v, from) == BlankEnd(v, offset)
    {
      offset := offset + 1;
    }
  }

  /** The keys are tried in turn; 0 stands for no sensitive assignment. */
  method SensitiveAssignmentPrefix(v: seq<byte>) returns (length: nat)
    ensures length == Prefix(v)
  {
    var k := 0;
    while k < |KEYS|
      invariant k <= |KEYS|
      invariant KeyRun(v) == FirstRun(KEYS[k..], v)
    {
      var key := KEYS[k];
      assert KEYS[k..][0] == key && KEYS[k..][1..] == KEYS[k + 1..];
      k := k + 1;
      if !HasKey(key, v) {
        continue;
      }
      var offset := SkipBlanks(v, |key|);
      if offset == |v| || !IsSeparator(v[offset]) {
        continue;
      }
      assert RunOf(key, v) == offset + 1;
      length := SkipBlanks(v, offset + 1);
      return;
    }
    length := 0;
  }

  // ---------------------------------------------------------------- the redactor

  /** All that a pass over text writes, when it has written out and stands at offset. */
  function Rest(secrets: seq<seq<byte>>, overlap: nat, out: seq<byte>, text: seq<byte>, offset: nat, masking: bool, last: bool)
    : Progress
    requires offset <= |text|
  {
    var p := Process(secrets, overlap, text[offset..], masking, last);
    Progress(out + p.out, p.pending, p.masking)
  }

  /** Enough of the text is left to decide on the next byte. */
  predicate Open(overlap: nat, text: seq<byte>, offset: nat, last: bool) {
    offset < |text| && (last || |text| - offset > overlap)
  }

  lemma Start(secrets: seq<seq<byte>>, overlap: nat, text: seq<byte>, masking: bool, last: bool)
    ensures Rest(secrets, overlap, [], text, 0, masking, last) == Process(secrets, overlap, text, masking, last)
  {
    hide Process;
    assert text[0..] == text;
    var p := Process(secrets, overlap, text, masking, last);
    assert [] + p.out == p.out;
  }

  lemma Stop(secrets: seq<seq<byte>>, overlap: nat, out: seq<byte>, text: seq<byte>, offset: nat, masking: bool, last: bool)
    requires offset <= |text|
    requires !Open(overlap, text, offset, last)
             || (!masking && !last && MatchLength(secrets, text[offset..]) == 0 && Prefix(text[offset..]) > 0
                 && Prefix(text[offset..]) + overlap > |text| - offset)
    ensures Rest(secrets, overlap, out, text, offset, masking, last) == Progress(out, text[offset..], masking)
  {
    hide Process, MatchLength, Prefix;
    ProcessStep(secrets, overlap, text[offset..], masking, last);
  }

  /** The step at offset is taken. */
  lemma Go(secrets: seq<seq<byte>>, overlap: nat, out: seq<byte>, text: seq<byte>, offset: nat, masking: bool, last: bool)
    requires offset < |text| && !Waits(secrets, overlap, text[offset..], masking, last)
    ensures var st := StepAt(secrets, text[offset..], masking);
            Rest(secrets, overlap, out, text, offset, masking, last) ==
            Rest(secrets, overlap, out + st.out, text, offset + st.width, st.masking, last)
  {
    hide Process, Waits, StepAt;
    var window := text[offset..];
    ProcessStep(secrets, overlap, window, masking, last);
    var st := StepAt(secrets, window, masking);
    assert window[st.width..] == text[offset + st.width..];
  }

  lemma GoMasked(secrets: seq<seq<byte>>, overlap: nat, out: seq<byte>, text: seq<byte>, offset: nat, last: bool)
    requires Open(overlap, text, offset, last)
    ensures Rest(secrets, overlap, out, text, offset, true, last)
            == if IsTerminator(text[offset]) then Rest(secrets, overlap, out + [text[offset]], text, offset + 1, false, last)
               else Rest(secrets, overlap, out, text, offset + 1, true, last)
  {
    hide Rest;
    Go(secrets, overlap, out, text, offset, true, last);
    assert out + [] == out;
  }

  lemma GoSecret(secrets: seq<seq<byte>>, overlap: nat, out: seq<byte>, text: seq<byte>, offset: nat, last: bool)
    requires Open(overlap, text, offset, last) && MatchLength(secrets, text[offset..]) > 0
    ensures var n := MatchLength(secrets, text[offset..]);
            && offset + n <= |text|
            && Rest(secrets, overlap, out, text, offset, false, last)
               == Rest(secrets, overlap, out + MARKER, text, offset + n, false, last)
  {
    hide Rest, Prefix, MatchLength;
    Go(secrets, overlap, out, text, offset, false, last);
  }

  lemma GoPlain(secrets: seq<seq<byte>>, overlap: nat, out: seq<byte>, text: seq<byte>, offset: nat, last: bool)
    requires Open(overlap, text, offset, last)
    requires MatchLength(secrets, text[offset..]) == 0 && Prefix(text[offset..]) == 0
    ensures Rest(secrets, overlap, out, text, offset, false, last)
            == Rest(secrets, overlap, out + [text[offset]], text, offset + 1, false, last)
  {
    hide Rest, Prefix, MatchLength;
    Go(secrets, overlap, out, text, offset, false, last);
  }

  lemma GoPrefix(secrets: seq<seq<byte>>, overlap: nat, out: seq<byte>, text: seq<byte>, offset: nat, last: bool)
    requires Open(overlap, text, offset, last)
    requires MatchLength(secrets, text[offset..]) == 0 && Prefix(text[offset..]) > 0
    requires last || Prefix(text[offset..]) + overlap <= |text| - offset
    ensures var n := Prefix(text[offset..]);
            && offset + n <= |text|
            && Rest(secrets, overlap, out, text, offset, false, last)
               == Rest(secrets, overlap, out + (text[offset..offset + n] + MARKER), text, offset + n, true, last)
  {
    hide Rest, Prefix, MatchLength;
    Go(secrets, overlap, out, text, offset, false, last);
    assert text[offset..offset + Prefix(text[offset..])] == text[offset..][..Prefix(text[offset..])];
  }

  class StreamingRedactor {
    var secrets: seq<seq<byte>>
    var pending: seq<byte>
    var overlap: nat
    var maskingAssignment: bool
    /** The secrets as they were configured. */
    ghost const configured: seq<seq<byte>>

    ghost predicate Valid()
      reads this
    {
      && LongestFirst(secrets)
      && (forall y :: y in secrets <==> y in configured && y != [])
      && overlap == Overlap(configured)
    }

    constructor (raw: seq<seq<byte>>)
      ensures Valid() && configured == raw
      ensures pending == [] && !maskingAssignment
    {
      secrets := Prepare(raw);
      configured := raw;
      pending := [];
      maskingAssignment := false;
      PrepareKeeps(raw);
      SameLongest(Prepare(raw), raw);
      overlap := Max(Longest(Prepare(raw)) - 1, MIN_OVERLAP);
    }

    method Push(chunk: seq<byte>) returns (out: seq<byte>)
      requires Valid()
      modifies this`pending, this`maskingAssignment
      ensures Valid()
      ensures Progress(out, pending, maskingAssignment) ==
              Process(configured, overlap, old(pending) + chunk, old(maskingAssignment), false)
    {
      pending := pending + chunk;
      out := Advance(false);
    }

    method Finish() returns (out: seq<byte>)
      requires Valid()
      modifies this`pending, this`maskingAssignment
      ensures Valid()
      ensures Progress(out, pending, maskingAssignment) ==
              Process(configured, overlap, old(pending), old(maskingAssignment), true)
    {
      out := Advance(true);
    }

    method Advance(last: bool) returns (output: seq<byte>)
      requires Valid()
      modifies this`pending, this`maskingAssignment
      ensures Valid()
      ensures Progress(output, pending, maskingAssignment) ==
              Process(configured, overlap, old(pending), old(maskingAssignment), last)
    {
      hide Process, KeyRun, MatchLength, Prefix, Rest, Overlap;
      Start(configured, overlap, pending, maskingAssignment, last);
      ghost var whole := Process(configured, overlap, pending, maskingAssignment, last);
      var safeEnd := if last then |pending| else Max(|pending| - overlap, 0);
      output := [];
      var offset := 0;
      while offset < safeEnd
        invariant offset <= |pending| && pending == old(pending)
        invariant whole == Rest(configured, overlap, output, pending, offset, maskingAssignment, last)
      {
        if maskingAssignment {
          GoMasked(configured, overlap, output, pending, offset, last);
          if IsTerminator(pending[offset]) {
            maskingAssignment := false;
            output := output + [pending[offset]];
          }
          offset := offset + 1;
          continue;
        }
        PreparedMatch(configured, secrets, pending[offset..]);
        var secretLength := FirstMatch(secrets, pending[offset..]);
        if secretLength > 0 {
          GoSecret(configured, overlap, output, pending, offset, last);
          output := output + MARKER;
          offset := offset + secretLength;
          continue;
        }
        var prefixLength := SensitiveAssignmentPrefix(pending[offset..]);
        if prefixLength > 0 {
          if offset + prefixLength > safeEnd && !last {
            break;
          }
          GoPrefix(configured, overlap, output, pending, offset, last);
          output := output + (pending[offset..offset + prefixLength] + MARKER);
          maskingAssignment := true;
          offset := offset + prefixLength;
          continue;
        }
        GoPlain(configured, overlap, output, pending, offset, last);
        output := output + [pending[offset]];
        offset := offset + 1;
      }
      Stop(configured, overlap, output, pending, offset, maskingAssignment, last);
      pending := pending[offset..];
    }
  }

  /** Redaction of a complete text, one push and a finish, is the scan of the text. */
  method RedactLogText(secrets: seq<seq<byte>>, content: seq<byte>) returns (redacted: seq<byte>)
    ensures redacted == Scan(secrets, content, false)
    ensures redacted == Stream(secrets, Overlap(secrets), [content], [], false)
  {
    var redactor := new StreamingRedactor(secrets);
    redacted := redactor.Push(content);
    var rest := redactor.Finish();
    redacted := redacted + rest;
    OneChunk(secrets, Overlap(secrets), content);
  }

  /** A stream that comes in one chunk is redacted as a whole. */
  lemma OneChunk(secrets: seq<seq<byte>>, overlap: nat, content: seq<byte>)
    ensures var p := Process(secrets, overlap, [] + content, false, false);
            p.out + Process(secrets, overlap, p.pending, p.masking, true).out == Scan(secrets, content, false)
    ensures Stream(secrets, overlap, [content], [], false) == Scan(secrets, content, false)
  {
    hide Process, Scan;
    assert [content][1..] == [];
    assert [] + content == content;
    PushThenFinish(secrets, overlap, content, false);
  }
}

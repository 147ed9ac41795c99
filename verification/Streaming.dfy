/** Redaction of a stream that arrives in chunks: what the streaming redactor computes, and exactly when
    it agrees with the scan of the whole stream. */
module Streaming {
  import opened Bytes
  import opened Redaction

  /** What one call wrote, what it keeps for later, and whether it stopped inside a masked value. */
  datatype Progress = Progress(out: seq<byte>, pending: seq<byte>, masking: bool)

  /** One pass over the pending bytes. Unless the stream has ended, the last overlap bytes wait for more
      input, and so does an assignment prefix that reaches into them. */
  function Process(secrets: seq<seq<byte>>, overlap: nat, pending: seq<byte>, masking: bool, last: bool): Progress
    decreases |pending|
  {
    if pending == [] || (!last && |pending| <= overlap) then Progress([], pending, masking) else
    var st := StepAt(secrets, pending, masking);
    if !last && !masking && st.masking && st.width + overlap > |pending| then Progress([], pending, masking) else
    var rest := Process(secrets, overlap, pending[st.width..], st.masking, last);
    Progress(st.out + rest.out, rest.pending, rest.masking)
  }

  /** A push for every chunk, then finish: everything that was written. */
  function Stream(secrets: seq<seq<byte>>, overlap: nat, chunks: seq<seq<byte>>, pending: seq<byte>, masking: bool)
    : seq<byte>
    decreases |chunks|
  {
    if chunks == [] then Process(secrets, overlap, pending, masking, true).out else
    var p := Process(secrets, overlap, pending + chunks[0], masking, false);
    p.out + Stream(secrets, overlap, chunks[1..], p.pending, p.masking)
  }

  /** Whatever prefix of s has arrived, in whatever chunks, it was redacted as a whole stream would be. */
  ghost predicate Robust(secrets: seq<seq<byte>>, overlap: nat, s: seq<byte>, masking: bool) {
    forall chunks :: Flatten(chunks) <= s ==>
      Stream(secrets, overlap, chunks, [], masking) == Scan(secrets, Flatten(chunks), masking)
  }

  // ---------------------------------------------------------------- refinement

  lemma {:induction false} FinishIsScan(secrets: seq<seq<byte>>, overlap: nat, s: seq<byte>, masking: bool)
    ensures Process(secrets, overlap, s, masking, true).out == Scan(secrets, s, masking)
    decreases |s|
  {
    if s != [] {
      var st := StepAt(secrets, s, masking);
      FinishIsScan(secrets, overlap, s[st.width..], st.masking);
    }
  }

  /** The redactor has nothing more to decide in this window. */
  predicate Waits(secrets: seq<seq<byte>>, overlap: nat, window: seq<byte>, masking: bool, last: bool) {
    window == [] || (!last && |window| <= overlap) ||
    var st := StepAt(secrets, window, masking);
    !last && !masking && st.masking && st.width + overlap > |window|
  }

  lemma ProcessStep(secrets: seq<seq<byte>>, overlap: nat, w: seq<byte>, masking: bool, last: bool)
    ensures Waits(secrets, overlap, w, masking, last) ==> Process(secrets, overlap, w, masking, last) == Progress([], w, masking)
    ensures w != [] && !Waits(secrets, overlap, w, masking, last) ==>
              var st := StepAt(secrets, w, masking);
              var rest := Process(secrets, overlap, w[st.width..], st.masking, last);
              Process(secrets, overlap, w, masking, last) == Progress(st.out + rest.out, rest.pending, rest.masking)
  {
    hide StepAt;
  }

  /** A window of a stream in which a decision can be taken decides as the stream does. */
  lemma WindowDecides(secrets: seq<seq<byte>>, overlap: nat, w: seq<byte>, t: seq<byte>, masking: bool)
    requires overlap >= Overlap(secrets) && Conforms(secrets, overlap, w + t, masking)
    requires w != [] && !Waits(secrets, overlap, w, masking, false)
    ensures var st := StepAt(secrets, w, masking);
            && Scan(secrets, w + t, masking) == st.out + Scan(secrets, w[st.width..] + t, st.masking)
            && Conforms(secrets, overlap, w[st.width..] + t, st.masking)
  {
    hide StepAt, Scan, Fits, Overlap;
    StepWindow(secrets, overlap, w, w + t, masking);
    ScanStep(secrets, w + t, masking);
    var st := StepAt(secrets, w, masking);
    assert (w + t)[st.width..] == w[st.width..] + t;
  }

  /** One push decides nothing that the rest of the stream could overturn. */
  lemma {:induction false} PushRefines(secrets: seq<seq<byte>>, overlap: nat, w: seq<byte>, t: seq<byte>, masking: bool)
    requires overlap >= Overlap(secrets)
    requires Conforms(secrets, overlap, w + t, masking)
    ensures var p := Process(secrets, overlap, w, masking, false);
            && Scan(secrets, w + t, masking) == p.out + Scan(secrets, p.pending + t, p.masking)
            && Conforms(secrets, overlap, p.pending + t, p.masking)
    decreases |w|
  {
    hide Process, Scan, StepAt, Conforms, Waits, Overlap;
    ProcessStep(secrets, overlap, w, masking, false);
    if !Waits(secrets, overlap, w, masking, false) {
      Unwaiting(secrets, overlap, w, masking, false);
      WindowDecides(secrets, overlap, w, t, masking);
      var st := StepAt(secrets, w, masking);
      PushRefines(secrets, overlap, w[st.width..], t, st.masking);
    }
  }

  lemma Unwaiting(secrets: seq<seq<byte>>, overlap: nat, w: seq<byte>, masking: bool, last: bool)
    ensures !Waits(secrets, overlap, w, masking, last) ==> w != []
  {
  }

  /** The window: wide enough for a key with its surroundings and for the longest secret, and no wider. */
  lemma OverlapSpelled(secrets: seq<seq<byte>>)
    ensures Overlap(secrets) >= 256 && forall x :: x in secrets ==> |x| <= Overlap(secrets) + 1
    ensures Overlap(secrets) == 256 || exists x :: x in secrets && |x| == Overlap(secrets) + 1
  {
    LongestFacts(secrets);
  }

  /** A push holds back no more than the window, unless an assignment starts what it holds back and reaches into the
      window; inside a masked value it holds back no more than the window in any case. */
  lemma {:induction false} HeldBack(secrets: seq<seq<byte>>, overlap: nat, w: seq<byte>, masking: bool)
    ensures var p := Process(secrets, overlap, w, masking, false);
            |p.pending| <= overlap || (!p.masking && 0 < Prefix(p.pending) && |p.pending| < Prefix(p.pending) + overlap)
    decreases |w|
  {
    hide Process, StepAt, Waits, Prefix;
    ProcessStep(secrets, overlap, w, masking, false);
    if Waits(secrets, overlap, w, masking, false) {
      WaitsFor(secrets, overlap, w, masking);
    } else {
      Unwaiting(secrets, overlap, w, masking, false);
      var st := StepAt(secrets, w, masking);
      HeldBack(secrets, overlap, w[st.width..], st.masking);
    }
  }

  lemma WaitsFor(secrets: seq<seq<byte>>, overlap: nat, w: seq<byte>, masking: bool)
    requires Waits(secrets, overlap, w, masking, false)
    ensures |w| <= overlap || (!masking && 0 < Prefix(w) && |w| < Prefix(w) + overlap)
  {
    hide Prefix, MatchLength;
  }

  /** When the end of the stream follows a push at once, no condition is needed: the push stops where its window ends, and
      the last pass takes up the decisions there. */
  lemma {:induction false} PushThenFinish(secrets: seq<seq<byte>>, overlap: nat, w: seq<byte>, masking: bool)
    ensures var p := Process(secrets, overlap, w, masking, false);
            p.out + Process(secrets, overlap, p.pending, p.masking, true).out == Scan(secrets, w, masking)
    decreases |w|
  {
    hide Process, Scan, StepAt, Waits;
    ProcessStep(secrets, overlap, w, masking, false);
    if Waits(secrets, overlap, w, masking, false) {
      FinishIsScan(secrets, overlap, w, masking);
    } else {
      Unwaiting(secrets, overlap, w, masking, false);
      var st := StepAt(secrets, w, masking);
      ScanStep(secrets, w, masking);
      PushThenFinish(secrets, overlap, w[st.width..], st.masking);
    }
  }

  lemma {:induction false} StreamRefines(secrets: seq<seq<byte>>, overlap: nat, chunks: seq<seq<byte>>,
                                         pending: seq<byte>, masking: bool)
    requires overlap >= Overlap(secrets)
    requires Conforms(secrets, overlap, pending + Flatten(chunks), masking)
    ensures Stream(secrets, overlap, chunks, pending, masking) == Scan(secrets, pending + Flatten(chunks), masking)
    decreases |chunks|
  {
    if chunks == [] {
      assert pending + Flatten(chunks) == pending;
      FinishIsScan(secrets, overlap, pending, masking);
    } else {
      var t := Flatten(chunks[1..]);
      assert pending + Flatten(chunks) == (pending + chunks[0]) + t;
      PushRefines(secrets, overlap, pending + chunks[0], t, masking);
      var p := Process(secrets, overlap, pending + chunks[0], masking, false);
      StreamRefines(secrets, overlap, chunks[1..], p.pending, p.masking);
    }
  }

  // ---------------------------------------------------------------- inside an assignment prefix

  lemma RunShape(key: seq<byte>, v: seq<byte>)
    requires RunOf(key, v) > 0
    ensures HasKey(key, v) && |key| < RunOf(key, v)
    ensures forall i :: |key| <= i < RunOf(key, v) ==> IsWhitespace(v[i]) || IsSeparator(v[i])
  {
    BlankFacts(v, |key|);
  }

  /** No key starts where the first letter, or the second, is not that of one. */
  lemma NoKey(v: seq<byte>)
    requires v != []
    requires var key := KeyFor(Lower(v[0])); Lower(v[0]) != key[0] || (|v| > 1 && Lower(v[1]) != key[1])
    ensures KeyRun(v) == 0
  {
    OneKey(v);
  }

  lemma InsideKey(key: seq<byte>, v: seq<byte>, i: nat)
    requires key in KEYS && RunOf(key, v) > 0 && 0 < i < |key|
    ensures KeyRun(v[i..]) == 0
  {
    RunShape(key, v);
    assert v[i..][0] == v[i] && v[i..][1] == v[i + 1];
    assert Lower(v[i]) == key[i];
    if i + 1 < |key| {
      assert Lower(v[i + 1]) == key[i + 1];
    } else {
      assert IsWhitespace(v[i + 1]) || IsSeparator(v[i + 1]);
    }
    NoKey(v[i..]);
  }

  /** No sensitive assignment starts strictly inside another one's prefix, and no bracket occurs in it. */
  lemma InsidePrefix(v: seq<byte>, i: nat)
    requires i < Prefix(v)
    ensures v[i] != OPEN && v[i] != CLOSE
    ensures i > 0 ==> KeyRun(v[i..]) == 0
  {
    var r := KeyRun(v);
    var key := KeyFor(Lower(v[0]));
    OneKey(v);
    RunShape(key, v);
    BlankFacts(v, r);
    if i < |key| {
      assert Lower(v[i]) == key[i] >= 97;
      if i > 0 {
        InsideKey(key, v, i);
      }
    } else {
      assert IsWhitespace(v[i]) || IsSeparator(v[i]);
      assert v[i..][0] == v[i];
      NoKey(v[i..]);
    }
  }

  // ---------------------------------------------------------------- exactness

  /** No sensitive assignment anywhere, and no bracket. */
  ghost predicate Quiet(u: seq<byte>) {
    forall i :: 0 <= i < |u| ==> KeyRun(u[i..]) == 0 && u[i] != OPEN
  }

  lemma QuietTail(u: seq<byte>, n: nat)
    requires Quiet(u) && n <= |u|
    ensures Quiet(u[n..])
  {
    forall i | 0 <= i < |u[n..]| ensures KeyRun(u[n..][i..]) == 0 && u[n..][i] != OPEN {
      assert u[n..][i..] == u[n + i..];
    }
  }

  lemma {:induction false} QuietConforms(secrets: seq<seq<byte>>, overlap: nat, u: seq<byte>)
    requires Quiet(u)
    ensures Conforms(secrets, overlap, u, false)
    decreases |u|
  {
    if u != [] {
      assert u[0..] == u;
      var st := StepAt(secrets, u, false);
      QuietTail(u, st.width);
      QuietConforms(secrets, overlap, u[st.width..]);
    }
  }

  /** Quiet text gains no marker at its end. */
  lemma {:induction false} QuietScan(secrets: seq<seq<byte>>, u: seq<byte>)
    requires Quiet(u)
    ensures Scan(secrets, u, false) != u + MARKER
    decreases |u|
  {
    if u != [] {
      assert u[0..] == u;
      var st := StepAt(secrets, u, false);
      var rest := Scan(secrets, u[st.width..], st.masking);
      if MatchLength(secrets, u) > 0 {
        assert (st.out + rest)[0] == OPEN != (u + MARKER)[0];
      } else {
        QuietTail(u, 1);
        QuietScan(secrets, u[1..]);
        assert (st.out + rest)[1..] == rest;
        assert (u + MARKER)[1..] == u[1..] + MARKER;
      }
    }
  }

  /** What a push of b and then finish write, after progress p. */
  function After(secrets: seq<seq<byte>>, overlap: nat, p: Progress, b: seq<byte>): seq<byte> {
    var q := Process(secrets, overlap, p.pending + b, p.masking, false);
    q.out + Process(secrets, overlap, q.pending, q.masking, true).out
  }

  /** The two-chunk stream a then b. */
  function Two(secrets: seq<seq<byte>>, overlap: nat, a: seq<byte>, b: seq<byte>, masking: bool): seq<byte> {
    var p := Process(secrets, overlap, a, masking, false);
    p.out + After(secrets, overlap, p, b)
  }

  lemma TwoChunks(secrets: seq<seq<byte>>, overlap: nat, a: seq<byte>, b: seq<byte>, masking: bool)
    ensures Flatten([a, b]) == a + b
    ensures Stream(secrets, overlap, [a, b], [], masking) == Two(secrets, overlap, a, b, masking)
  {
    assert [a, b][1..] == [b];
    assert [b][1..] == [];
    assert [] + a == a;
    assert Flatten([b]) == b + Flatten([]) == b;
    var p := Process(secrets, overlap, a, masking, false);
    var q := Process(secrets, overlap, p.pending + b, p.masking, false);
    assert Stream(secrets, overlap, [], q.pending, q.masking) == Process(secrets, overlap, q.pending, q.masking, true).out;
    assert Stream(secrets, overlap, [b], p.pending, p.masking) == After(secrets, overlap, p, b);
  }

  lemma TwoStep(secrets: seq<seq<byte>>, overlap: nat, a: seq<byte>, b: seq<byte>, masking: bool)
    requires |a| > overlap
    requires var st := StepAt(secrets, a, masking); !(!masking && st.masking && st.width + overlap > |a|)
    ensures var st := StepAt(secrets, a, masking);
            Two(secrets, overlap, a, b, masking) == st.out + Two(secrets, overlap, a[st.width..], b, st.masking)
  {
    hide StepAt;
    var st := StepAt(secrets, a, masking);
    var p := Process(secrets, overlap, a, masking, false);
    var rest := Process(secrets, overlap, a[st.width..], st.masking, false);
    assert p == Progress(st.out + rest.out, rest.pending, rest.masking);
    hide Process;
    assert After(secrets, overlap, p, b) == After(secrets, overlap, rest, b);
  }

  lemma QuietRun(s: seq<byte>)
    requires KeyRun(s) > 0
    ensures Quiet(s[1..KeyRun(s)])
  {
    var u := s[1..KeyRun(s)];
    forall i | 0 <= i < |u| ensures KeyRun(u[i..]) == 0 && u[i] != OPEN {
      InsidePrefix(s, i + 1);
      assert u[i..] <= s[i + 1..];
      KeyRunWindow(u[i..], s[i + 1..]);
    }
  }

  lemma RunScan(secrets: seq<seq<byte>>, s: seq<byte>)
    requires s != [] && MatchLength(secrets, s) == 0 && KeyRun(s) == |s|
    ensures Scan(secrets, s, false) == s + MARKER
  {
    var st := StepAt(secrets, s, false);
    assert s[st.width..] == [];
    assert Scan(secrets, [], true) == [];
  }

  /** Without its separator, an assignment's first letter is taken for plain text. */
  lemma LateStream(secrets: seq<seq<byte>>, overlap: nat, s: seq<byte>)
    requires overlap >= Overlap(secrets)
    requires s != [] && MatchLength(secrets, s) == 0 && KeyRun(s) > overlap + 1
    ensures var r := KeyRun(s);
            Two(secrets, overlap, s[..r - 1], s[r - 1..r], false) == [s[0]] + Scan(secrets, s[1..r], false)
  {
    hide Scan, Process, Two, After, Conforms, Stream, FirstRun, KeyRun, MatchLength, Longest;
    var r := KeyRun(s);
    var w, b, u := s[..r - 1], s[r - 1..r], s[1..r];
    MatchWindow(secrets, w, s);
    KeyRunWindow(w, s);
    assert StepAt(secrets, w, false) == Step([s[0]], 1, false);
    hide StepAt;
    TwoStep(secrets, overlap, w, b, false);
    QuietRun(s);
    QuietConforms(secrets, overlap, u);
    assert w[1..] + b == u;
    TwoChunks(secrets, overlap, w[1..], b, false);
    assert [] + Flatten([w[1..], b]) == u;
    StreamRefines(secrets, overlap, [w[1..], b], [], false);
  }

  /** An assignment whose separator arrives alone, after more than overlap bytes, is written unmasked. */
  lemma LateSeparator(secrets: seq<seq<byte>>, overlap: nat, s: seq<byte>)
    requires overlap >= Overlap(secrets)
    requires s != [] && MatchLength(secrets, s) == 0 && KeyRun(s) > overlap + 1
    ensures var r := KeyRun(s);
            Two(secrets, overlap, s[..r - 1], s[r - 1..r], false) != Scan(secrets, s[..r], false)
  {
    hide StepAt, Scan, Process, Two, After, Conforms;
    var r := KeyRun(s);
    MatchWindow(secrets, s[..r], s);
    KeyRunWindow(s[..r], s);
    RunScan(secrets, s[..r]);
    LateStream(secrets, overlap, s);
    QuietRun(s);
    QuietScan(secrets, s[1..r]);
    assert ([s[0]] + Scan(secrets, s[1..r], false))[1..] == Scan(secrets, s[1..r], false);
    assert (s[..r] + MARKER)[1..] == s[1..r] + MARKER;
  }

  lemma ScanStep(secrets: seq<seq<byte>>, s: seq<byte>, masking: bool)
    requires s != []
    ensures var st := StepAt(secrets, s, masking);
            Scan(secrets, s, masking) == st.out + Scan(secrets, s[st.width..], st.masking)
  {
  }

  lemma SamePrefix(x: seq<byte>, a: seq<byte>, b: seq<byte>)
    requires a != b
    ensures x + a != x + b
  {
    assert (x + a)[|x|..] == a;
    assert (x + b)[|x|..] == b;
  }

  /** Where a sensitive assignment outgrows the window, two chunks betray it. */
  lemma {:induction false} Violation(secrets: seq<seq<byte>>, overlap: nat, s: seq<byte>, masking: bool)
    returns (k: nat, e: nat)
    requires overlap >= Overlap(secrets)
    requires !Conforms(secrets, overlap, s, masking)
    ensures overlap < k <= e <= |s|
    ensures Two(secrets, overlap, s[..k], s[k..e], masking) != Scan(secrets, s[..e], masking)
    decreases |s|
  {
    hide StepAt, Process, After, Two, Scan, KeyRun, MatchLength, Longest;
    if !Fits(secrets, overlap, s, masking) {
      LateSeparator(secrets, overlap, s);
      return KeyRun(s) - 1, KeyRun(s);
    }
    var st := StepAt(secrets, s, masking);
    var rest := s[st.width..];
    hide Conforms, Fits;
    var k', e' := Violation(secrets, overlap, rest, st.masking);
    k, e := st.width + k', st.width + e';
    StepWindowBack(secrets, overlap, s[..k], s, masking);
    StepWindowBack(secrets, overlap, s[..e], s, masking);
    TwoStep(secrets, overlap, s[..k], s[k..e], masking);
    ScanStep(secrets, s[..e], masking);
    assert s[..k][st.width..] == rest[..k'];
    assert s[..e][st.width..] == rest[..e'];
    assert s[k..e] == rest[k'..e'];
    SamePrefix(st.out, Two(secrets, overlap, rest[..k'], rest[k'..e'], st.masking), Scan(secrets, rest[..e'], st.masking));
  }

  lemma {:induction false} ShortConforms(secrets: seq<seq<byte>>, overlap: nat, s: seq<byte>, masking: bool)
    requires |s| <= overlap + 1
    ensures Conforms(secrets, overlap, s, masking)
    decreases |s|
  {
    if s != [] {
      var st := StepAt(secrets, s, masking);
      ShortConforms(secrets, overlap, s[st.width..], st.masking);
    }
  }

  lemma {:induction false} ConformsPrefix(secrets: seq<seq<byte>>, overlap: nat, w: seq<byte>, s: seq<byte>,
                                          masking: bool)
    requires overlap >= Overlap(secrets)
    requires w <= s && Conforms(secrets, overlap, s, masking)
    ensures Conforms(secrets, overlap, w, masking)
    decreases |w|
  {
    if |w| <= overlap + 1 {
      ShortConforms(secrets, overlap, w, masking);
    } else {
      var st := StepAt(secrets, w, masking);
      if !masking {
        MatchWindow(secrets, w, s);
        KeyRunWindow(w, s);
        PrefixWindow(w, s);
      }
      if st.width == |w| {
        assert w[st.width..] == [];
      } else {
        assert StepAt(secrets, s, masking) == st;
        ConformsPrefix(secrets, overlap, w[st.width..], s[st.width..], st.masking);
      }
    }
  }

  /** Chunked redaction is whole-stream redaction, for every chunking of every prefix, exactly when no sensitive
      assignment that the scan meets outgrows the window. */
  lemma ChunkingExact(secrets: seq<seq<byte>>, overlap: nat, s: seq<byte>, masking: bool)
    requires overlap >= Overlap(secrets)
    ensures Robust(secrets, overlap, s, masking) <==> Conforms(secrets, overlap, s, masking)
  {
    hide Conforms, Scan, Stream, Two, StepAt;
    if Conforms(secrets, overlap, s, masking) {
      forall chunks | Flatten(chunks) <= s
        ensures Stream(secrets, overlap, chunks, [], masking) == Scan(secrets, Flatten(chunks), masking)
      {
        ConformsPrefix(secrets, overlap, Flatten(chunks), s, masking);
        assert [] + Flatten(chunks) == Flatten(chunks);
        StreamRefines(secrets, overlap, chunks, [], masking);
      }
    } else {
      var k, e := Violation(secrets, overlap, s, masking);
      var chunks := [s[..k], s[k..e]];
      TwoChunks(secrets, overlap, s[..k], s[k..e], masking);
      assert Flatten(chunks) == s[..e];
      assert Stream(secrets, overlap, chunks, [], masking) != Scan(secrets, Flatten(chunks), masking);
    }
  }

  /** A condition on the raw stream that is enough: no sensitive assignment anywhere outgrows the window. */
  lemma {:induction false} BoundedRunsConform(secrets: seq<seq<byte>>, overlap: nat, s: seq<byte>, masking: bool)
    requires forall i :: 0 <= i < |s| ==> KeyRun(s[i..]) <= overlap + 1
    ensures Conforms(secrets, overlap, s, masking)
    decreases |s|
  {
    if s != [] {
      assert s[0..] == s;
      var st := StepAt(secrets, s, masking);
      var rest := s[st.width..];
      forall i | 0 <= i < |rest| ensures KeyRun(rest[i..]) <= overlap + 1 {
        assert rest[i..] == s[st.width + i..];
      }
      BoundedRunsConform(secrets, overlap, rest, st.masking);
    }
  }

  /** `password`, three hundred blanks, `=`. */
  function SpacedAssignment(): seq<byte> {
    PASSWORD + seq(300, i => 32) + [61]
  }

  /** Without the hypothesis chunking matters: a redactor without secrets keeps back 256 bytes, and
      this assignment is longer. */
  lemma ChunkingMatters()
    ensures Overlap([]) == 256
    ensures !Robust([], 256, SpacedAssignment(), false)
  {
    var s := SpacedAssignment();
    assert s[0] == 112;
    assert HasKey(PASSWORD, s);
    BlankFacts(s, 8);
    var o := BlankEnd(s, 8);
    assert forall k :: 8 <= k < 308 ==> s[k] == 32;
    assert s[308] == 61;
    assert o == 308;
    OneKey(s);
    assert KeyRun(s) == 309;
    assert MatchLength([], s) == 0;
    assert !Fits([], 256, s, false);
    ChunkingExact([], 256, s, false);
  }
}

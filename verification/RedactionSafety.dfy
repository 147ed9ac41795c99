/** What redacted text is free of, and why redacting it again changes nothing. */
module RedactionSafety {
  import opened Bytes
  import opened Redaction
  import opened Streaming

  // ---------------------------------------------------------------- no secret survives

  /** Some sensitive assignment prefix contains x after its first letter. */
  ghost predicate InsideAssignment(x: seq<byte>) {
    exists v: seq<byte>, k: nat :: 0 < k && OccursAt(x, v[..Prefix(v)], k)
  }

  /** The secrets that redaction can hide: nothing redaction itself writes contains them. */
  ghost predicate Hideable(x: seq<byte>) {
    && x != [] && !IsTerminator(x[0])
    && OPEN !in x && CLOSE !in x
    && !Occurs(x, MARKER)
    && !InsideAssignment(x)
  }

  /** An occurrence that must not contain the byte at j ends before it. */
  lemma EndsBefore(x: seq<byte>, text: seq<byte>, k: nat, j: nat)
    requires k <= j < |text| && text[j] !in x
    ensures OccursAt(x, text, k) ==> k + |x| <= j
  {
    if OccursAt(x, text, k) {
      assert forall i :: 0 <= i < |x| ==> x[i] == text[k + i] && x[i] in x;
    }
  }

  lemma OccursEarly(x: seq<byte>, a: seq<byte>, b: seq<byte>, k: nat)
    ensures OccursAt(x, a + b, k) && k + |x| <= |a| ==> OccursAt(x, a, k)
  {
    if OccursAt(x, a + b, k) && k + |x| <= |a| {
      assert x == (a + b)[k..][..|x|] == a[k..][..|x|];
    }
  }

  lemma MatchHead(secrets: seq<seq<byte>>, s: seq<byte>)
    requires s != []
    ensures MatchLength(secrets, s) > 0 ==> [OPEN] <= Scan(secrets, s, false)
    ensures MatchLength(secrets, s) == 0 && Prefix(s) > 0 ==> s[..Prefix(s)] + [OPEN] <= Scan(secrets, s, false)
  {
  }

  lemma NotStarting(y: seq<byte>, x: seq<byte>)
    requires x != [] && OPEN !in y && y != []
    ensures y <= x ==> !([OPEN] <= x)
  {
    assert y[0] in y;
  }

  /** Bracket-free redacted text stood in the stream as it is. */
  lemma {:induction false} Echo(secrets: seq<seq<byte>>, s: seq<byte>, y: seq<byte>)
    requires y <= Scan(secrets, s, false) && OPEN !in y
    ensures y <= s
    decreases |s|
  {
    if y != [] {
      var st := StepAt(secrets, s, false);
      var rest := Scan(secrets, s[st.width..], st.masking);
      var text := Scan(secrets, s, false);
      MatchHead(secrets, s);
      NotStarting(y, text);
      if Prefix(s) > 0 {
        EndsBefore(y, text, 0, Prefix(s));
        assert y == text[..|y|] == s[..|y|];
      } else {
        assert text[1..] == rest;
        Echo(secrets, s[1..], y[1..]);
        assert y == [y[0]] + y[1..];
      }
    }
  }

  /** No hideable word starts inside a marker, whatever follows it. */
  lemma NotInMarker(x: seq<byte>, rest: seq<byte>, k: nat)
    requires Hideable(x) && k < |MARKER|
    ensures !OccursAt(x, MARKER + rest, k)
  {
    EndsBefore(x, MARKER + rest, k, 9);
    OccursEarly(x, MARKER, rest, k);
  }

  lemma OccursPast(x: seq<byte>, a: seq<byte>, b: seq<byte>, k: nat)
    requires |a| <= k
    ensures OccursAt(x, a + b, k) <==> OccursAt(x, b, k - |a|)
  {
    if k <= |a + b| {
      assert (a + b)[k..] == b[k - |a|..];
    }
  }

  /** No configured secret occurs in the redacted text. */
  lemma {:induction false} NoSecretSurvives(secrets: seq<seq<byte>>, s: seq<byte>, masking: bool, x: seq<byte>, k: nat)
    requires x in secrets && Hideable(x)
    ensures !OccursAt(x, Scan(secrets, s, masking), k)
    decreases |s|
  {
    if s != [] {
      var st := StepAt(secrets, s, masking);
      var rest := Scan(secrets, s[st.width..], st.masking);
      var text := st.out + rest;
      if k >= |st.out| {
        NoSecretSurvives(secrets, s[st.width..], st.masking, x, k - |st.out|);
        OccursPast(x, st.out, rest, k);
      } else if !masking {
        MatchFacts(secrets, s);
        if MatchLength(secrets, s) > 0 {
          NotInMarker(x, rest, k);
        } else if Prefix(s) > 0 {
          NotInAssignment(secrets, s, x, rest, k);
        } else if x <= text {
          Echo(secrets, s, x);
          assert false;
        } else {
          assert text[0..] == text;
        }
      }
    }
  }

  lemma NotInAssignment(secrets: seq<seq<byte>>, s: seq<byte>, x: seq<byte>, rest: seq<byte>, k: nat)
    requires x in secrets && Hideable(x) && MatchLength(secrets, s) == 0 && 0 < Prefix(s)
    requires k < Prefix(s) + |MARKER|
    ensures !OccursAt(x, s[..Prefix(s)] + MARKER + rest, k)
  {
    var p := Prefix(s);
    var text := s[..p] + MARKER + rest;
    assert text == s[..p] + (MARKER + rest);
    if k >= p {
      NotInMarker(x, rest, k - p);
      OccursPast(x, s[..p], MARKER + rest, k);
    } else {
      EndsBefore(x, text, k, p);
      OccursEarly(x, s[..p], MARKER + rest, k);
      MatchFacts(secrets, s);
      OccursEarly(x, s[..p], s[p..], 0);
      assert OccursAt(x, s[..p], 0) ==> x <= s[..p] <= s;
    }
  }

  lemma NoSecretInScan(secrets: seq<seq<byte>>, s: seq<byte>, x: seq<byte>)
    requires x in secrets && Hideable(x)
    ensures !Occurs(x, Scan(secrets, s, false))
  {
    hide Scan, Hideable, OccursAt;
    var text := Scan(secrets, s, false);
    forall k: nat | k <= |text| ensures !OccursAt(x, text, k) {
      NoSecretSurvives(secrets, s, false, x, k);
    }
  }

  /** However the stream was cut into chunks. */
  lemma NoSecretInStream(secrets: seq<seq<byte>>, overlap: nat, chunks: seq<seq<byte>>, x: seq<byte>)
    requires overlap >= Overlap(secrets)
    requires Conforms(secrets, overlap, Flatten(chunks), false)
    requires x in secrets && Hideable(x)
    ensures !Occurs(x, Stream(secrets, overlap, chunks, [], false))
  {
    assert [] + Flatten(chunks) == Flatten(chunks);
    StreamRefines(secrets, overlap, chunks, [], false);
    NoSecretInScan(secrets, Flatten(chunks), x);
  }

  // Each clause of Hideable is there for a reason: secrets that break it, and a stream that shows them.

  lemma OnlySecret(x: seq<byte>, s: seq<byte>)
    ensures MatchLength([x], s) == if x <= s then |x| else 0
  {
    assert [x][1..] == [];
    assert MatchLength([], s) == 0;
  }

  /** Every piece of the marker is written in place of itself. */
  lemma MarkerPieceShows(x: seq<byte>)
    requires x != [] && Occurs(x, MARKER)
    ensures Occurs(x, Scan([x], x, false))
  {
    OnlySecret(x, x);
    assert x[|x|..] == [];
    ScanStep([x], x, false);
    assert Scan([x], x, false) == MARKER;
  }

  /** Every word inside an assignment prefix is written with it, unless it also starts there. */
  lemma AssignmentPieceShows(x: seq<byte>, v: seq<byte>, k: nat)
    requires x != [] && 0 < k && OccursAt(x, v[..Prefix(v)], k) && !(x <= v)
    ensures Occurs(x, Scan([x], v, false))
  {
    var p := Prefix(v);
    OnlySecret(x, v);
    var text := Scan([x], v, false);
    var rest := MARKER + Scan([x], v[p..], true);
    assert text == v[..p] + rest;
    assert text[k..] == v[..p][k..] + rest;
    assert OccursAt(x, text, k);
  }

  lemma {:induction false} QuietUnmatched(x: seq<byte>, u: seq<byte>)
    requires Quiet(u) && |u| < |x|
    ensures Scan([x], u, false) == u
    decreases |u|
  {
    if u != [] {
      assert u[0..] == u;
      OnlySecret(x, u);
      QuietTail(u, 1);
      QuietUnmatched(x, u[1..]);
    }
  }

  lemma TokenAssigned(x: seq<byte>)
    requires x != [] && IsTerminator(x[0])
    ensures var s := TOKEN + [61, 118] + x; Prefix(s) == 6 && MatchLength([x], s) == 0
  {
    var s := TOKEN + [61, 118] + x;
    assert s[0] == 116 && s[5] == 61 && s[6] == 118;
    OnlySecret(x, s);
    OneKey(s);
    assert HasKey(TOKEN, s);
    BlankFacts(s, 5);
    BlankFacts(s, 6);
  }

  lemma ValueEnds(x: seq<byte>)
    requires x != [] && IsTerminator(x[0]) && Quiet(x[1..])
    ensures Scan([x], [118] + x, true) == x
  {
    hide Prefix, MatchLength;
    var t := [118] + x;
    assert t[1..] == x;
    ScanStep([x], t, true);
    ScanStep([x], x, true);
    QuietUnmatched(x, x[1..]);
  }

  /** A secret that starts with a terminator, right after a masked value: its first byte ends the value
      and the rest is plain text. */
  lemma TerminatorShows(x: seq<byte>)
    requires x != [] && IsTerminator(x[0]) && Quiet(x[1..])
    ensures Occurs(x, Scan([x], TOKEN + [61, 118] + x, false))
  {
    var s := TOKEN + [61, 118] + x;
    TokenAssigned(x);
    ValueEnds(x);
    hide Prefix, MatchLength;
    ScanStep([x], s, false);
    assert s[6..] == [118] + x;
    var text := Scan([x], s, false);
    assert text == s[..6] + MARKER + x;
    assert text[16..] == x;
    assert OccursAt(x, text, 16);
  }

  /** Secrets with a bracket: `b[` beside a marker's start, `]b` beside its end. */
  lemma BracketsShow()
    ensures var secrets: seq<seq<byte>> := [[98, OPEN], [99]];
            OccursAt([98, OPEN], Scan(secrets, [98, 99], false), 0)
    ensures var secrets: seq<seq<byte>> := [[CLOSE, 98], [99]];
            OccursAt([CLOSE, 98], Scan(secrets, [99, 98], false), 9)
  {
    var c: seq<byte> := [99];
    var b: seq<byte> := [98];
    var secrets: seq<seq<byte>> := [[98, OPEN], c];
    assert secrets[1..] == [c] && [c][1..] == [];
    var s: seq<byte> := [98, 99];
    assert s[1..] == c;
    OnlySecret(c, s);
    OnlySecret(c, c);
    NoKey(s);
    ScanStep(secrets, s, false);
    ScanStep(secrets, c, false);
    assert c[1..] == [];
    assert Scan(secrets, s, false) == b + MARKER;
    assert (b + MARKER)[0..] == b + MARKER;

    var others: seq<seq<byte>> := [[CLOSE, 98], c];
    assert others[1..] == [c];
    var t: seq<byte> := [99, 98];
    assert t[1..] == b;
    OnlySecret(c, t);
    OnlySecret(c, b);
    NoKey(b);
    ScanStep(others, t, false);
    ScanStep(others, b, false);
    assert b[1..] == [];
    assert Scan(others, t, false) == MARKER + b;
    assert (MARKER + b)[9..] == [CLOSE, 98];
  }

  // ---------------------------------------------------------------- redacted text is a fixed point

  /** Empty, or at the byte that ends a masked value. */
  predicate Settled(v: seq<byte>) {
    v == [] || IsTerminator(v[0])
  }

  /** In redacted text a marker, and then the end of the value, follows every sensitive assignment prefix. */
  predicate Clean(u: seq<byte>, masking: bool)
    decreases |u|
  {
    if u == [] then true
    else if masking then Clean(u[1..], !IsTerminator(u[0]))
    else if Prefix(u) == 0 then Clean(u[1..], false)
    else
      var v := u[Prefix(u)..];
      MARKER <= v && Settled(v[|MARKER|..]) && Clean(v[|MARKER|..], true)
  }

  /** What a redactor still has to write of u: inside a masked value, what follows it. */
  function Owed(u: seq<byte>, masking: bool): seq<byte>
    decreases |u|
  {
    if !masking || Settled(u) then u else Owed(u[1..], true)
  }

  lemma {:induction false} MaskedTail(u: seq<byte>, v: seq<byte>)
    requires forall i :: 0 <= i < |u| ==> !IsTerminator(u[i])
    ensures Owed(u + v, true) == Owed(v, true)
    ensures Clean(u + v, true) == Clean(v, true)
    decreases |u|
  {
    if u == [] {
      assert u + v == v;
    } else {
      assert (u + v)[0] == u[0];
      assert (u + v)[1..] == u[1..] + v;
      MaskedTail(u[1..], v);
    }
  }

  lemma PrefixIsRun(v: seq<byte>)
    ensures KeyRun(v) == 0 <==> Prefix(v) == 0
  {
  }

  /** Nothing sensitive starts inside a marker. */
  lemma MarkerQuiet(rest: seq<byte>, i: nat)
    requires i < |MARKER|
    ensures KeyRun((MARKER + rest)[i..]) == 0
  {
    var v := (MARKER + rest)[i..];
    assert v[0] == MARKER[i];
    if i < 9 {
      assert v[1] == MARKER[i + 1];
    }
    NoKey(v);
  }

  lemma {:induction false} QuietStart(u: seq<byte>, n: nat)
    requires n <= |u| && Clean(u[n..], false)
    requires forall i :: 0 <= i < n ==> KeyRun(u[i..]) == 0
    ensures Clean(u, false)
    decreases n
  {
    hide KeyRun;
    assert u[0..] == u;
    if n > 0 {
      PrefixIsRun(u);
      var t := u[1..];
      assert t[n - 1..] == u[n..];
      forall i | 0 <= i < n - 1 ensures KeyRun(t[i..]) == 0 {
        assert t[i..] == u[i + 1..];
      }
      QuietStart(t, n - 1);
    }
  }

  lemma SettledClean(v: seq<byte>)
    requires Settled(v) && Clean(v, true)
    ensures Clean(v, false)
  {
    if v != [] {
      NoKey(v);
    }
  }

  lemma MarkerClean(v: seq<byte>)
    requires Clean(v, false)
    ensures Clean(MARKER + v, false)
  {
    assert (MARKER + v)[|MARKER|..] == v;
    forall i | 0 <= i < |MARKER| ensures KeyRun((MARKER + v)[i..]) == 0 {
      MarkerQuiet(v, i);
    }
    QuietStart(MARKER + v, |MARKER|);
  }

  lemma CleanAfterPrefix(u: seq<byte>)
    requires u != [] && Clean(u, false) && Prefix(u) > 0
    ensures Clean(u[Prefix(u)..], false)
  {
    var v := u[Prefix(u)..][|MARKER|..];
    hide Prefix;
    SettledClean(v);
    MarkerClean(v);
    assert u[Prefix(u)..] == MARKER + v;
  }

  lemma InsideTail(u: seq<byte>, p: nat, i: nat)
    requires u != [] && p == Prefix(u) && i + 1 < p
    ensures KeyRun(u[1..][i..]) == 0
  {
    hide *;
    assert u[1..][i..] == u[i + 1..];
    InsidePrefix(u, i + 1);
  }

  lemma KeyTail(u: seq<byte>, p: nat)
    requires u != [] && p == Prefix(u) && 0 < p <= |u| && Clean(u[p..], false)
    ensures Clean(u[1..], false)
  {
    hide *;
    var t := u[1..];
    assert t[p - 1..] == u[p..];
    forall i | 0 <= i < p - 1 ensures KeyRun(t[i..]) == 0 {
      InsideTail(u, p, i);
    }
    QuietStart(t, p - 1);
  }

  /** Clean text stays clean when a redactor writes its first byte unchanged. */
  lemma CleanTail(u: seq<byte>)
    requires u != [] && Clean(u, false)
    ensures Clean(u[1..], false)
  {
    hide Prefix;
    if Prefix(u) > 0 {
      hide Clean;
      CleanAfterPrefix(u);
      KeyTail(u, Prefix(u));
    }
  }

  lemma {:induction false} MaskedScanSettled(secrets: seq<seq<byte>>, s: seq<byte>)
    ensures Settled(Scan(secrets, s, true))
    decreases |s|
  {
    if s != [] && !IsTerminator(s[0]) {
      assert Scan(secrets, s, true) == Scan(secrets, s[1..], true);
      MaskedScanSettled(secrets, s[1..]);
    }
  }

  /** An assignment prefix is still one when a bracket follows it. */
  lemma PrefixKept(s: seq<byte>, rest: seq<byte>)
    requires Prefix(s) > 0
    requires rest != [] && rest[0] == OPEN
    ensures Prefix(s[..Prefix(s)] + rest) == Prefix(s)
  {
    var p, r := Prefix(s), KeyRun(s);
    var q := s[..p];
    var text := q + rest;
    KeyRunWindow(q, s);
    KeyRunWindow(q, text);
    BlankFacts(s, r);
    BlankFacts(text, r);
    assert forall k :: r <= k < p ==> text[k] == s[k];
    assert text[p] == OPEN;
  }

  /** Redaction makes no new sensitive assignment out of plain text. */
  lemma PlainKept(secrets: seq<seq<byte>>, s: seq<byte>)
    requires s != [] && MatchLength(secrets, s) == 0 && KeyRun(s) == 0
    ensures KeyRun(Scan(secrets, s, false)) == 0
  {
    var text := Scan(secrets, s, false);
    var r := KeyRun(text);
    if r > 0 {
      var y := text[..r];
      forall i | 0 <= i < r ensures y[i] != OPEN {
        InsidePrefix(text, i);
      }
      Echo(secrets, s, y);
      KeyRunWindow(y, text);
      KeyRunWindow(y, s);
    }
  }

  lemma ByteClean(b: byte, rest: seq<byte>, masking: bool)
    requires if masking then IsTerminator(b) else KeyRun([b] + rest) == 0
    requires Clean(rest, false)
    ensures Clean([b] + rest, masking)
  {
    PrefixIsRun([b] + rest);
    assert ([b] + rest)[1..] == rest;
    hide KeyRun, Prefix;
  }

  lemma AssignmentClean(s: seq<byte>, rest: seq<byte>)
    requires Prefix(s) > 0 && Settled(rest) && Clean(rest, true)
    ensures Clean(s[..Prefix(s)] + (MARKER + rest), false)
  {
    PrefixKept(s, MARKER + rest);
    hide Prefix;
    var text := s[..Prefix(s)] + (MARKER + rest);
    assert text[Prefix(s)..] == MARKER + rest;
    assert (MARKER + rest)[|MARKER|..] == rest;
  }

  /** What one decision wrote keeps the text clean. */
  lemma StepClean(secrets: seq<seq<byte>>, s: seq<byte>, masking: bool, rest: seq<byte>)
    requires s != []
    requires var st := StepAt(secrets, s, masking);
             && rest == Scan(secrets, s[st.width..], st.masking) && Clean(rest, st.masking)
             && Scan(secrets, s, masking) == st.out + rest
    ensures Clean(Scan(secrets, s, masking), masking)
  {
    hide KeyRun, Prefix, MatchLength, Settled, IsTerminator, Clean, Scan, KEYS, MARKER;
    if masking {
      if IsTerminator(s[0]) {
        ByteClean(s[0], rest, true);
      } else {
        assert [] + rest == rest;
      }
    } else if MatchLength(secrets, s) > 0 {
      MarkerClean(rest);
    } else if Prefix(s) > 0 {
      MaskedScanSettled(secrets, s[Prefix(s)..]);
      AssignmentClean(s, rest);
      assert s[..Prefix(s)] + MARKER + rest == s[..Prefix(s)] + (MARKER + rest);
    } else {
      PrefixIsRun(s);
      PlainKept(secrets, s);
      ByteClean(s[0], rest, false);
    }
  }

  lemma {:induction false} ScanClean(secrets: seq<seq<byte>>, s: seq<byte>, masking: bool)
    ensures Clean(Scan(secrets, s, masking), masking)
    decreases |s|
  {
    hide StepAt;
    if s != [] {
      hide Clean;
      var st := StepAt(secrets, s, masking);
      ScanClean(secrets, s[st.width..], st.masking);
      StepClean(secrets, s, masking, Scan(secrets, s[st.width..], st.masking));
    }
  }

  /** One push of a redactor without secrets over clean text: what it wrote and what it owes are that text.
      No window is too small: an assignment it misses is already followed by its marker. */
  lemma {:induction false} PushEchoes(overlap: nat, w: seq<byte>, t: seq<byte>, masking: bool, last: bool)
    requires overlap > 0 && (last ==> t == [])
    requires Clean(w + t, masking)
    ensures var p := Process([], overlap, w, masking, last);
            && Clean(p.pending + t, p.masking)
            && p.out + Owed(p.pending + t, p.masking) == Owed(w + t, masking)
            && (last ==> p.pending == [])
    decreases |w|
  {
    hide StepAt, Clean, Owed, Prefix, KeyRun;
    var u := w + t;
    if w != [] && (last || |w| > overlap) {
      var st := StepAt([], w, masking);
      if !last && !masking && st.masking && st.width + overlap > |w| {
      } else {
        var n := st.width;
        assert u[0] == w[0];
        assert u[n..] == w[n..] + t;
        StepEchoes(overlap, w, t, masking, last);
        PushEchoes(overlap, w[n..], t, st.masking, last);
      }
    }
  }

  lemma AssignmentEchoes(u: seq<byte>)
    requires u != [] && Clean(u, false) && Prefix(u) > 0
    ensures Clean(u[Prefix(u)..], true)
    ensures u[..Prefix(u)] + MARKER + Owed(u[Prefix(u)..], true) == u
  {
    var p := Prefix(u);
    var v := u[p..][|MARKER|..];
    assert MARKER <= u[p..] && Settled(v) && Clean(v, true);
    assert Owed(v, true) == v;
    hide *;
    AroundMarker(u, p);
    MaskedTail(MARKER, v);
  }

  lemma AroundMarker(u: seq<byte>, p: nat)
    requires p <= |u| && MARKER <= u[p..]
    ensures var v := u[p..][|MARKER|..]; u[p..] == MARKER + v && u == u[..p] + MARKER + v
    ensures forall i :: 0 <= i < |MARKER| ==> !IsTerminator(MARKER[i])
  {
    var v := u[p..][|MARKER|..];
    assert u[p..] == MARKER + v;
    assert u == u[..p] + u[p..];
  }

  /** What a redactor without secrets does with the next byte of clean text, seeing only a window of it. */
  lemma StepEchoes(overlap: nat, w: seq<byte>, t: seq<byte>, masking: bool, last: bool)
    requires overlap > 0 && w != [] && (last ==> t == [])
    requires Clean(w + t, masking)
    requires var st := StepAt([], w, masking); !last && !masking && st.masking ==> st.width + overlap <= |w|
    ensures var st := StepAt([], w, masking);
            && Clean((w + t)[st.width..], st.masking)
            && st.out + Owed((w + t)[st.width..], st.masking) == Owed(w + t, masking)
  {
    hide KeyRun, Prefix;
    var u := w + t;
    assert u[0] == w[0];
    assert u == [u[0]] + u[1..];
    if !masking {
      if Prefix(w) > 0 {
        PrefixWindow(w, u);
        if last {
          assert w == u;
        }
        AssignmentEchoes(u);
        assert u[..Prefix(u)] == w[..Prefix(w)];
      } else {
        CleanTail(u);
      }
    }
  }

  lemma {:induction false} StreamEchoes(overlap: nat, chunks: seq<seq<byte>>, pending: seq<byte>, masking: bool)
    requires overlap > 0
    requires Clean(pending + Flatten(chunks), masking)
    ensures Stream([], overlap, chunks, pending, masking) == Owed(pending + Flatten(chunks), masking)
    decreases |chunks|
  {
    if chunks == [] {
      assert pending + Flatten(chunks) == pending == pending + [];
      PushEchoes(overlap, pending, [], masking, true);
    } else {
      var t := Flatten(chunks[1..]);
      var w := pending + chunks[0];
      assert pending + Flatten(chunks) == w + t;
      PushEchoes(overlap, w, t, masking, false);
      var p := Process([], overlap, w, masking, false);
      StreamEchoes(overlap, chunks[1..], p.pending, p.masking);
    }
  }

  /** Redacting redacted text again, without secrets and in any chunks, changes nothing. */
  lemma SecondRedactorIsNoop(secrets: seq<seq<byte>>, s: seq<byte>, overlap: nat, chunks: seq<seq<byte>>)
    requires overlap > 0
    requires Flatten(chunks) == Scan(secrets, s, false)
    ensures Stream([], overlap, chunks, [], false) == Flatten(chunks)
  {
    ScanClean(secrets, s, false);
    assert [] + Flatten(chunks) == Flatten(chunks);
    StreamEchoes(overlap, chunks, [], false);
  }

  /** The step output path: the sink redacts the command's writes, the log buffer redacts again what it receives.
      When nothing is dropped in between, the log gets exactly the redaction of the command's whole output. */
  lemma PipelineRedacts(secrets: seq<seq<byte>>, writes: seq<seq<byte>>, appends: seq<seq<byte>>)
    requires Conforms(secrets, Overlap(secrets), Flatten(writes), false)
    requires Flatten(appends) == Stream(secrets, Overlap(secrets), writes, [], false)
    ensures Stream([], Overlap([]), appends, [], false) == Scan(secrets, Flatten(writes), false)
  {
    assert [] + Flatten(writes) == Flatten(writes);
    StreamRefines(secrets, Overlap(secrets), writes, [], false);
    SecondRedactorIsNoop(secrets, Flatten(writes), Overlap([]), appends);
  }
}

/** What log redaction means: a left-to-right scan of the whole stream. The streaming redactor
    (StreamingRedactor.dfy) only ever sees a window of it. */
module Redaction {
  import opened Numbers
  import opened Bytes

  // ASCII spellings, lower case.
  const PASSWORD: seq<byte> := [112, 97, 115, 115, 119, 111, 114, 100]
  const TOKEN: seq<byte> := [116, 111, 107, 101, 110]
  const SECRET: seq<byte> := [115, 101, 99, 114, 101, 116]
  const AUTHORIZATION: seq<byte> := [97, 117, 116, 104, 111, 114, 105, 122, 97, 116, 105, 111, 110]
  const KEYS: seq<seq<byte>> := [PASSWORD, TOKEN, SECRET, AUTHORIZATION]
  /** "[REDACTED]" */
  const MARKER: seq<byte> := [91, 82, 69, 68, 65, 67, 84, 69, 68, 93]
  const OPEN: byte := 91
  const CLOSE: byte := 93
  /** The least window a redactor keeps back before it decides. */
  const MIN_OVERLAP: nat := 256

  predicate IsWhitespace(b: byte) {
    b == 9 || b == 10 || b == 12 || b == 13 || b == 32
  }

  /** '=' or ':' */
  predicate IsSeparator(b: byte) {
    b == 61 || b == 58
  }

  /** Line ends, quotes, ',' and '&' end a masked value. */
  predicate IsTerminator(b: byte) {
    b == 10 || b == 13 || b == 39 || b == 34 || b == 44 || b == 38
  }

  function Lower(b: byte): byte {
    if 65 <= b <= 90 then b + 32 else b
  }

  /** The key, in any letter case, starts v. */
  predicate HasKey(key: seq<byte>, v: seq<byte>) {
    |key| <= |v| && forall i :: 0 <= i < |key| ==> Lower(v[i]) == key[i]
  }

  /** Where the whitespace that starts at i ends. */
  function BlankEnd(v: seq<byte>, i: nat): (j: nat)
    requires i <= |v|
    ensures i <= j <= |v|
    decreases |v| - i
  {
    if i < |v| && IsWhitespace(v[i]) then BlankEnd(v, i + 1) else i
  }

  /** The length of a leading `key whitespace* separator`, 0 if there is none. */
  function RunOf(key: seq<byte>, v: seq<byte>): (n: nat)
    ensures n <= |v|
  {
    if !HasKey(key, v) then 0 else
    var o := BlankEnd(v, |key|);
    if o < |v| && IsSeparator(v[o]) then o + 1 else 0
  }

  /** The first key of the list that starts a sensitive assignment decides. */
  function FirstRun(keys: seq<seq<byte>>, v: seq<byte>): (n: nat)
    ensures n <= |v|
  {
    if keys == [] then 0
    else if RunOf(keys[0], v) > 0 then RunOf(keys[0], v)
    else FirstRun(keys[1..], v)
  }

  /** The length of a leading sensitive key with its separator, 0 if there is none. */
  function KeyRun(v: seq<byte>): (n: nat)
    ensures n <= |v|
  {
    FirstRun(KEYS, v)
  }

  /** The length of a leading sensitive assignment prefix, the blanks before its value included. */
  function Prefix(v: seq<byte>): (n: nat)
    ensures n <= |v|
  {
    if KeyRun(v) == 0 then 0 else BlankEnd(v, KeyRun(v))
  }

  /** The length of the longest configured secret that starts s, 0 if none does. */
  function MatchLength(secrets: seq<seq<byte>>, s: seq<byte>): (n: nat)
    ensures n <= |s|
  {
    if secrets == [] then 0 else
    var m := MatchLength(secrets[1..], s);
    if secrets[0] <= s && |secrets[0]| > m then |secrets[0]| else m
  }

  function Longest(secrets: seq<seq<byte>>): nat {
    if secrets == [] then 0 else Max(|secrets[0]|, Longest(secrets[1..]))
  }

  /** How many bytes a redactor for these secrets holds back. */
  function Overlap(secrets: seq<seq<byte>>): nat {
    Max(Longest(secrets) - 1, MIN_OVERLAP)
  }

  /** One decision: what is written, how many input bytes are consumed, whether a value is masked next. */
  datatype Step = Step(out: seq<byte>, width: nat, masking: bool)

  function StepAt(secrets: seq<seq<byte>>, s: seq<byte>, masking: bool): (st: Step)
    requires s != []
    ensures 1 <= st.width <= |s|
  {
    if masking then
      if IsTerminator(s[0]) then Step([s[0]], 1, false) else Step([], 1, true)
    else if MatchLength(secrets, s) > 0 then Step(MARKER, MatchLength(secrets, s), false)
    else if Prefix(s) > 0 then Step(s[..Prefix(s)] + MARKER, Prefix(s), true)
    else Step([s[0]], 1, false)
  }

  /** Redaction of a whole stream. */
  function Scan(secrets: seq<seq<byte>>, s: seq<byte>, masking: bool): seq<byte>
    decreases |s|
  {
    if s == [] then [] else
    var st := StepAt(secrets, s, masking);
    st.out + Scan(secrets, s[st.width..], st.masking)
  }

  /** At this point of the scan a sensitive key, its blanks and its separator fit in overlap + 1 bytes. */
  predicate Fits(secrets: seq<seq<byte>>, overlap: nat, s: seq<byte>, masking: bool) {
    !masking && MatchLength(secrets, s) == 0 ==> KeyRun(s) <= overlap + 1
  }

  /** ... and so at every point the scan visits. */
  predicate Conforms(secrets: seq<seq<byte>>, overlap: nat, s: seq<byte>, masking: bool)
    decreases |s|
  {
    s == [] ||
    (Fits(secrets, overlap, s, masking) &&
     var st := StepAt(secrets, s, masking);
     Conforms(secrets, overlap, s[st.width..], st.masking))
  }

  // ---------------------------------------------------------------- what the helpers compute

  lemma {:induction false} BlankFacts(v: seq<byte>, i: nat)
    requires i <= |v|
    ensures forall k :: i <= k < BlankEnd(v, i) ==> IsWhitespace(v[k])
    ensures BlankEnd(v, i) < |v| ==> !IsWhitespace(v[BlankEnd(v, i)])
    decreases |v| - i
  {
    if i < |v| && IsWhitespace(v[i]) {
      BlankFacts(v, i + 1);
    }
  }

  lemma {:induction false} MatchFacts(secrets: seq<seq<byte>>, s: seq<byte>)
    ensures MatchLength(secrets, s) > 0 ==> s[..MatchLength(secrets, s)] in secrets
    ensures forall x :: x in secrets && x <= s ==> |x| <= MatchLength(secrets, s)
  {
    if secrets != [] {
      MatchFacts(secrets[1..], s);
      assert secrets == [secrets[0]] + secrets[1..];
      assert secrets[0] <= s ==> s[..|secrets[0]|] == secrets[0];
    }
  }

  lemma {:induction false} LongestFacts(secrets: seq<seq<byte>>)
    ensures forall x :: x in secrets ==> |x| <= Longest(secrets)
    ensures Longest(secrets) > 0 ==> exists x :: x in secrets && |x| == Longest(secrets)
  {
    if secrets != [] {
      LongestFacts(secrets[1..]);
      assert secrets == [secrets[0]] + secrets[1..];
      assert secrets[0] in secrets;
    }
  }

  // ---------------------------------------------------------------- keys seen through a window

  lemma {:induction false} BlankWindow(w: seq<byte>, v: seq<byte>, i: nat)
    requires w <= v && i <= |w|
    ensures BlankEnd(w, i) < |w| || BlankEnd(v, i) < |w| ==> BlankEnd(v, i) == BlankEnd(w, i)
    ensures BlankEnd(v, i) >= BlankEnd(w, i)
    decreases |w| - i
  {
    if i < |w| && IsWhitespace(w[i]) {
      BlankWindow(w, v, i + 1);
    }
  }

  lemma RunWindow(key: seq<byte>, w: seq<byte>, v: seq<byte>)
    requires w <= v
    ensures RunOf(key, w) > 0 ==> RunOf(key, v) == RunOf(key, w)
    ensures 0 < RunOf(key, v) <= |w| ==> RunOf(key, w) == RunOf(key, v)
  {
    if |key| <= |w| {
      BlankWindow(w, v, |key|);
    }
  }

  /** A key's first letter tells which of the four it is. */
  function KeyFor(letter: byte): (key: seq<byte>) {
    if letter == 112 then PASSWORD else if letter == 116 then TOKEN
    else if letter == 115 then SECRET else AUTHORIZATION
  }

  /** At most one key can start at a position: their first letters differ. */
  lemma OneKey(v: seq<byte>)
    requires v != []
    ensures KeyRun(v) == RunOf(KeyFor(Lower(v[0])), v)
  {
    var keys1, keys2, keys3 := [TOKEN, SECRET, AUTHORIZATION], [SECRET, AUTHORIZATION], [AUTHORIZATION];
    assert KEYS[1..] == keys1 && keys1[1..] == keys2 && keys2[1..] == keys3 && keys3[1..] == [];
    assert FirstRun(keys3, v) == RunOf(AUTHORIZATION, v);
    assert FirstRun(keys2, v) == if RunOf(SECRET, v) > 0 then RunOf(SECRET, v) else FirstRun(keys3, v);
    assert FirstRun(keys1, v) == if RunOf(TOKEN, v) > 0 then RunOf(TOKEN, v) else FirstRun(keys2, v);
    assert KeyRun(v) == if RunOf(PASSWORD, v) > 0 then RunOf(PASSWORD, v) else FirstRun(keys1, v);
    assert HasKey(PASSWORD, v) ==> Lower(v[0]) == PASSWORD[0];
    assert HasKey(TOKEN, v) ==> Lower(v[0]) == TOKEN[0];
    assert HasKey(SECRET, v) ==> Lower(v[0]) == SECRET[0];
    assert HasKey(AUTHORIZATION, v) ==> Lower(v[0]) == AUTHORIZATION[0];
  }

  lemma KeyRunWindow(w: seq<byte>, v: seq<byte>)
    requires w <= v
    ensures KeyRun(w) > 0 ==> KeyRun(v) == KeyRun(w)
    ensures 0 < KeyRun(v) <= |w| ==> KeyRun(w) == KeyRun(v)
  {
    if w != [] {
      OneKey(w);
      OneKey(v);
      RunWindow(KeyFor(Lower(w[0])), w, v);
    }
  }

  lemma PrefixWindow(w: seq<byte>, v: seq<byte>)
    requires w <= v
    ensures 0 < Prefix(w) < |w| ==> Prefix(v) == Prefix(w)
    ensures 0 < KeyRun(v) <= |w| && Prefix(v) < |w| ==> Prefix(w) == Prefix(v)
  {
    KeyRunWindow(w, v);
    if 0 < KeyRun(v) <= |w| {
      BlankWindow(w, v, KeyRun(v));
    }
  }

  lemma MatchWindow(secrets: seq<seq<byte>>, w: seq<byte>, v: seq<byte>)
    requires w <= v
    ensures MatchLength(secrets, w) <= MatchLength(secrets, v)
    ensures |w| >= Longest(secrets) ==> MatchLength(secrets, w) == MatchLength(secrets, v)
    ensures MatchLength(secrets, v) <= |w| ==> MatchLength(secrets, w) == MatchLength(secrets, v)
    ensures MatchLength(secrets, v) <= Longest(secrets)
  {
    MatchFacts(secrets, w);
    MatchFacts(secrets, v);
    LongestFacts(secrets);
    var m, n := MatchLength(secrets, w), MatchLength(secrets, v);
    assert m > 0 ==> w[..m] <= v;
    if 0 < n <= |w| {
      assert v[..n] <= w;
    }
  }

  lemma PrefixSettled(overlap: nat, w: seq<byte>, v: seq<byte>)
    requires w <= v && |w| > overlap > 0
    requires KeyRun(v) <= overlap + 1
    requires Prefix(w) > 0 ==> Prefix(w) + overlap <= |w|
    ensures Prefix(v) == Prefix(w)
    ensures v[..Prefix(v)] == w[..Prefix(w)]
  {
    PrefixWindow(w, v);
    KeyRunWindow(w, v);
  }

  lemma PrefixSettledBack(overlap: nat, w: seq<byte>, v: seq<byte>)
    requires w <= v && |w| > overlap > 0
    requires KeyRun(v) <= overlap + 1
    requires Prefix(v) + overlap <= |w|
    ensures Prefix(v) == Prefix(w)
    ensures v[..Prefix(v)] == w[..Prefix(w)]
  {
    PrefixWindow(w, v);
    KeyRunWindow(w, v);
  }

  /** The window lemma: a decision taken on more than overlap bytes is the decision on the whole stream,
      unless it is an assignment prefix that reaches into the last overlap bytes. */
  lemma StepWindow(secrets: seq<seq<byte>>, overlap: nat, w: seq<byte>, v: seq<byte>, masking: bool)
    requires w <= v && |w| > overlap >= Overlap(secrets)
    requires Fits(secrets, overlap, v, masking)
    requires var st := StepAt(secrets, w, masking); !masking && st.masking ==> st.width + overlap <= |w|
    ensures StepAt(secrets, v, masking) == StepAt(secrets, w, masking)
  {
    if !masking {
      MatchWindow(secrets, w, v);
      if MatchLength(secrets, v) == 0 {
        PrefixSettled(overlap, w, v);
      }
    }
  }

  /** The same, read from the whole stream: its decisions that end before the last overlap bytes. */
  lemma StepWindowBack(secrets: seq<seq<byte>>, overlap: nat, w: seq<byte>, v: seq<byte>, masking: bool)
    requires w <= v && |w| > overlap >= Overlap(secrets)
    requires Fits(secrets, overlap, v, masking)
    requires StepAt(secrets, v, masking).width + overlap <= |w|
    ensures StepAt(secrets, w, masking) == StepAt(secrets, v, masking)
  {
    if !masking {
      MatchWindow(secrets, w, v);
      if MatchLength(secrets, v) == 0 {
        PrefixSettledBack(overlap, w, v);
      }
    }
  }

  // ---------------------------------------------------------------- the configured list

  lemma SameSecrets(a: seq<seq<byte>>, b: seq<seq<byte>>, s: seq<byte>)
    requires forall x :: x != [] ==> (x in a <==> x in b)
    ensures MatchLength(a, s) == MatchLength(b, s)
  {
    MatchFacts(a, s);
    MatchFacts(b, s);
  }

  /** Neither the order nor repetitions nor empty entries of the configured list change what is redacted. */
  lemma {:induction false} ScanIgnoresOrder(a: seq<seq<byte>>, b: seq<seq<byte>>, s: seq<byte>, masking: bool)
    requires forall x :: x != [] ==> (x in a <==> x in b)
    ensures Scan(a, s, masking) == Scan(b, s, masking)
    decreases |s|
  {
    if s != [] {
      SameSecrets(a, b, s);
      var st := StepAt(a, s, masking);
      ScanIgnoresOrder(a, b, s[st.width..], st.masking);
    }
  }
}

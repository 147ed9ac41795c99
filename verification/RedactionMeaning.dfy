/** What redaction writes, byte by byte: laws of the scan that do not depend on how it recognises anything. */
module RedactionMeaning {
  import opened Bytes
  import opened Redaction

  /** The bytes of an ASCII text. */
  function Ascii(text: string): (bytes: seq<byte>)
    requires forall i :: 0 <= i < |text| ==> text[i] as int < 128
  {
    seq(|text|, i requires 0 <= i < |text| => text[i] as int as byte)
  }

  /** The word in any letter case; the word itself is given in lower case. */
  predicate Spells(k: seq<byte>, word: string) {
    |k| == |word| && forall i :: 0 <= i < |k| ==> k[i] as int == word[i] as int || k[i] as int == word[i] as int - 32
  }

  predicate SensitiveWord(k: seq<byte>) {
    Spells(k, "password") || Spells(k, "token") || Spells(k, "secret") || Spells(k, "authorization")
  }

  /** Space, tab, line feed, form feed or carriage return. */
  predicate Blank(b: byte) { b in Ascii(" \t\n\r") || b == 12 }

  predicate AllBlank(bytes: seq<byte>) { forall i :: 0 <= i < |bytes| ==> Blank(bytes[i]) }

  /** Line ends, quotes, commas and ampersands end a value. */
  predicate EndsValue(b: byte) { b in Ascii("\n\r'\",&") }

  /** A sensitive word, blanks, '=' or ':', and blanks again. */
  datatype Assignment = Assignment(word: seq<byte>, blanks: seq<byte>, sign: byte, more: seq<byte>)
  {
    function Text(): seq<byte> { word + blanks + [sign] + more }

    predicate Valid() { SensitiveWord(word) && AllBlank(blanks) && sign in Ascii("=:") && AllBlank(more) }
  }

  predicate NoSecretAt(secrets: seq<seq<byte>>, s: seq<byte>) {
    forall x :: x in secrets && x != [] ==> !(x <= s)
  }

  ghost predicate NoAssignmentAt(s: seq<byte>) {
    forall a: Assignment :: a.Valid() ==> !(a.Text() <= s)
  }

  // ---------------------------------------------------------------- the bytes behind the names

  lemma ClassesSpelled(b: byte)
    ensures IsWhitespace(b) <==> Blank(b)
    ensures IsSeparator(b) <==> b in Ascii("=:")
    ensures IsTerminator(b) <==> EndsValue(b)
    ensures Blank(b) ==> b !in Ascii("=:")
  {
    var blanks, signs, ends := Ascii(" \t\n\r"), Ascii("=:"), Ascii("\n\r'\",&");
    assert blanks == [32, 9, 10, 13];
    assert signs == [61, 58];
    assert ends == [10, 13, 39, 34, 44, 38];
  }

  lemma WordsSpelled()
    ensures PASSWORD == Ascii("password") && TOKEN == Ascii("token") && SECRET == Ascii("secret")
    ensures AUTHORIZATION == Ascii("authorization") && MARKER == Ascii("[REDACTED]")
  {
  }

  lemma KeySpelled(key: seq<byte>, word: string, v: seq<byte>)
    requires forall i :: 0 <= i < |word| ==> 97 <= word[i] as int <= 122
    requires key == Ascii(word)
    ensures HasKey(key, v) <==> |word| <= |v| && Spells(v[..|word|], word)
  {
    forall i | 0 <= i < |word| && |word| <= |v| ensures Lower(v[i]) == key[i] <==> v[i] == key[i] || v[i] as int == key[i] as int - 32 {
    }
  }

  lemma {:induction false} BlankEndIs(v: seq<byte>, i: nat, j: nat)
    requires i <= j <= |v| && AllBlank(v[i..j]) && (j == |v| || !Blank(v[j]))
    ensures BlankEnd(v, i) == j
    decreases j - i
  {
    hide Blank, IsWhitespace;
    if i < j {
      assert v[i..j][0] == v[i];
      ClassesSpelled(v[i]);
      assert v[i + 1..j] == v[i..j][1..];
      BlankEndIs(v, i + 1, j);
    } else if j < |v| {
      ClassesSpelled(v[j]);
    }
  }

  lemma BlanksSpelled(v: seq<byte>, i: nat)
    requires i <= |v|
    ensures AllBlank(v[i..BlankEnd(v, i)]) && (BlankEnd(v, i) == |v| || !Blank(v[BlankEnd(v, i)]))
  {
    hide Blank, IsWhitespace;
    BlankFacts(v, i);
    var j := BlankEnd(v, i);
    forall k | 0 <= k < j - i ensures Blank(v[i..j][k]) { ClassesSpelled(v[i + k]); }
    if j < |v| { ClassesSpelled(v[j]); }
  }

  /** The four words, and which key each of them is. */
  lemma WordIsKey(v: seq<byte>, n: nat)
    requires 0 < n <= |v|
    ensures SensitiveWord(v[..n]) <==> HasKey(KeyFor(Lower(v[0])), v) && n == |KeyFor(Lower(v[0]))|
  {
    WordsSpelled();
    KeySpelled(PASSWORD, "password", v);
    KeySpelled(TOKEN, "token", v);
    KeySpelled(SECRET, "secret", v);
    KeySpelled(AUTHORIZATION, "authorization", v);
    assert HasKey(PASSWORD, v) ==> Lower(v[0]) == PASSWORD[0];
    assert HasKey(TOKEN, v) ==> Lower(v[0]) == TOKEN[0];
    assert HasKey(SECRET, v) ==> Lower(v[0]) == SECRET[0];
    assert HasKey(AUTHORIZATION, v) ==> Lower(v[0]) == AUTHORIZATION[0];
    hide HasKey, Lower, Spells;
  }

  lemma TextParts(s: seq<byte>, a: Assignment)
    requires a.Text() <= s
    ensures var n, m, p := |a.word|, |a.word| + |a.blanks|, |a.Text()|;
            && m < p <= |s| && s[..n] == a.word && s[n..m] == a.blanks && s[m] == a.sign && s[m + 1..p] == a.more
            && s[..p] == a.Text()
  {
    var n, m, p := |a.word|, |a.word| + |a.blanks|, |a.Text()|;
    assert s[..p] == a.Text();
    assert a.Text()[..n] == a.word && a.Text()[n..m] == a.blanks && a.Text()[m] == a.sign && a.Text()[m + 1..] == a.more;
  }

  lemma RunParts(key: seq<byte>, v: seq<byte>)
    requires RunOf(key, v) > 0
    ensures HasKey(key, v)
    ensures var m := BlankEnd(v, |key|); m < |v| && IsSeparator(v[m]) && RunOf(key, v) == m + 1
  {
  }

  /** An assignment at the start of a text is what the scan recognises there. */
  lemma RunSpelled(s: seq<byte>, a: Assignment)
    requires a.Valid() && a.Text() <= s
    ensures KeyRun(s) == |a.word| + |a.blanks| + 1
  {
    var n, m := |a.word|, |a.word| + |a.blanks|;
    TextParts(s, a);
    OneKey(s);
    WordIsKey(s, n);
    ClassesSpelled(a.sign);
    hide SensitiveWord, HasKey, Blank, AllBlank, IsSeparator, KeyRun;
    BlankEndIs(s, n, m);
  }

  /** ... and what it recognises is an assignment. */
  lemma RunIsAssignment(s: seq<byte>) returns (a: Assignment)
    requires KeyRun(s) > 0
    ensures a.Valid() && a.Text() == s[..Prefix(s)] && |a.Text()| == Prefix(s) && a.Text() <= s
    ensures Prefix(s) == |s| || !Blank(s[Prefix(s)])
  {
    OneKey(s);
    var key := KeyFor(Lower(s[0]));
    RunParts(key, s);
    var n, m, p := |key|, BlankEnd(s, |key|), Prefix(s);
    WordIsKey(s, n);
    BlanksSpelled(s, n);
    BlanksSpelled(s, m + 1);
    ClassesSpelled(s[m]);
    hide *;
    a := Parts(s, n, m, p);
  }

  lemma Parts(s: seq<byte>, n: nat, m: nat, p: nat) returns (a: Assignment)
    requires n <= m < p <= |s|
    requires SensitiveWord(s[..n]) && AllBlank(s[n..m]) && s[m] in Ascii("=:") && AllBlank(s[m + 1..p])
    ensures a.Valid() && a.Text() == s[..p] && a.Text() <= s
  {
    hide SensitiveWord, AllBlank, Ascii;
    a := Assignment(s[..n], s[n..m], s[m], s[m + 1..p]);
    assert s[..p] == s[..n] + s[n..m] + [s[m]] + s[m + 1..p];
  }

  lemma NoSecretNoMatch(secrets: seq<seq<byte>>, s: seq<byte>)
    ensures NoSecretAt(secrets, s) <==> MatchLength(secrets, s) == 0
  {
    MatchFacts(secrets, s);
    var m := MatchLength(secrets, s);
    if m > 0 { assert s[..m] in secrets && s[..m] != [] && s[..m] <= s; }
  }

  // ---------------------------------------------------------------- the laws

  /** The bytes of a value are not written; the byte that ends it is. */
  lemma {:induction false} ValueSkipped(secrets: seq<seq<byte>>, value: seq<byte>, rest: seq<byte>)
    requires forall b :: b in value ==> !EndsValue(b)
    requires rest == [] || EndsValue(rest[0])
    ensures Scan(secrets, value + rest, true) == if rest == [] then [] else [rest[0]] + Scan(secrets, rest[1..], false)
    decreases |value|
  {
    hide EndsValue, IsTerminator;
    if value != [] {
      ClassesSpelled(value[0]);
      assert (value + rest)[0] == value[0] && (value + rest)[1..] == value[1..] + rest;
      ValueSkipped(secrets, value[1..], rest);
      assert Scan(secrets, value + rest, true) == [] + Scan(secrets, value[1..] + rest, true);
    } else {
      assert value + rest == rest;
      if rest != [] { ClassesSpelled(rest[0]); }
    }
  }

  /** A sensitive word in any letter case, with blanks, '=' or ':' and blanks after it, and then a value: the marker is
      written in place of the value, and everything from the byte that ends the value on is redacted in turn. */
  lemma ValueMasked(secrets: seq<seq<byte>>, a: Assignment, value: seq<byte>, rest: seq<byte>)
    requires a.Valid() && NoSecretAt(secrets, a.Text() + value + rest)
    requires forall b :: b in value ==> !EndsValue(b)
    requires rest == [] || EndsValue(rest[0])
    requires value + rest == [] || !Blank((value + rest)[0])
    ensures Scan(secrets, a.Text() + value + rest, false)
         == a.Text() + Ascii("[REDACTED]") + if rest == [] then [] else [rest[0]] + Scan(secrets, rest[1..], false)
  {
    var s, p := a.Text() + value + rest, |a.Text()|;
    assert s == a.Text() + (value + rest);
    assert s[p..] == value + rest;
    NoSecretNoMatch(secrets, s);
    AssignmentStep(secrets, s, a);
    WordsSpelled();
    ValueSkipped(secrets, value, rest);
    hide *;
    ScanFirst(secrets, s, a.Text() + MARKER, p, true);
  }

  lemma ScanFirst(secrets: seq<seq<byte>>, s: seq<byte>, out: seq<byte>, n: nat, masking: bool)
    requires s != [] && StepAt(secrets, s, false) == Step(out, n, masking)
    ensures n <= |s| && Scan(secrets, s, false) == out + Scan(secrets, s[n..], masking)
  {
    hide StepAt;
  }

  lemma AssignmentStep(secrets: seq<seq<byte>>, s: seq<byte>, a: Assignment)
    requires a.Valid() && a.Text() <= s && MatchLength(secrets, s) == 0
    requires |a.Text()| == |s| || !Blank(s[|a.Text()|])
    ensures s != [] && StepAt(secrets, s, false) == Step(a.Text() + MARKER, |a.Text()|, true)
  {
    TextParts(s, a);
    RunSpelled(s, a);
    hide Blank, KeyRun, MatchLength, SensitiveWord, AllBlank;
    BlankEndIs(s, |a.word| + |a.blanks| + 1, |a.Text()|);
  }

  /** Of the secrets that start a text the longest is replaced. */
  lemma SecretMasked(secrets: seq<seq<byte>>, x: seq<byte>, s: seq<byte>)
    requires x in secrets && x != [] && x <= s && forall y :: y in secrets && y <= s ==> |y| <= |x|
    ensures Scan(secrets, s, false) == Ascii("[REDACTED]") + Scan(secrets, s[|x|..], false)
  {
    MatchFacts(secrets, s);
    var m := MatchLength(secrets, s);
    assert s[..m] in secrets && s[..m] <= s;
    WordsSpelled();
    hide MatchLength;
    ScanFirst(secrets, s, MARKER, |x|, false);
  }

  /** A byte at which neither a secret nor an assignment starts is written as it is. */
  lemma ByteKept(secrets: seq<seq<byte>>, s: seq<byte>)
    requires s != [] && NoSecretAt(secrets, s) && NoAssignmentAt(s)
    ensures Scan(secrets, s, false) == [s[0]] + Scan(secrets, s[1..], false)
  {
    NoSecretNoMatch(secrets, s);
    if KeyRun(s) > 0 {
      var a := RunIsAssignment(s);
      assert false;
    }
    hide KeyRun, MatchLength, NoAssignmentAt;
    ScanFirst(secrets, s, [s[0]], 1, false);
  }

  /** These are all the cases: where an assignment starts, one that is followed by a value and its end does. */
  lemma AssignmentFound(s: seq<byte>) returns (a: Assignment, value: seq<byte>, rest: seq<byte>)
    requires !NoAssignmentAt(s)
    ensures a.Valid() && s == a.Text() + value + rest
    ensures (forall b :: b in value ==> !EndsValue(b)) && (rest == [] || EndsValue(rest[0]))
    ensures value + rest == [] || !Blank((value + rest)[0])
  {
    var some: Assignment :| some.Valid() && some.Text() <= s;
    RunSpelled(s, some);
    a := RunIsAssignment(s);
    hide *;
    value, rest := SplitAfter(s, Prefix(s));
  }

  lemma SplitAfter(s: seq<byte>, p: nat) returns (value: seq<byte>, rest: seq<byte>)
    requires p <= |s| && (p == |s| || !Blank(s[p]))
    ensures s == s[..p] + value + rest && value + rest == s[p..]
    ensures (forall b :: b in value ==> !EndsValue(b)) && (rest == [] || EndsValue(rest[0]))
    ensures value + rest == [] || !Blank((value + rest)[0])
  {
    hide Blank, EndsValue;
    value, rest := SplitValue(s[p..]);
    assert s == s[..p] + s[p..];
    assert s[..p] + (value + rest) == s[..p] + value + rest;
  }

  lemma {:induction false} SplitValue(s: seq<byte>) returns (value: seq<byte>, rest: seq<byte>)
    ensures s == value + rest && (forall b :: b in value ==> !EndsValue(b)) && (rest == [] || EndsValue(rest[0]))
  {
    hide EndsValue;
    if s == [] || EndsValue(s[0]) {
      value, rest := [], s;
    } else {
      value, rest := SplitValue(s[1..]);
      value := [s[0]] + value;
    }
  }

  /** Text in which no secret and no assignment starts anywhere passes unchanged. */
  lemma {:induction false} PlainTextKept(secrets: seq<seq<byte>>, s: seq<byte>)
    requires forall i :: 0 <= i < |s| ==> NoSecretAt(secrets, s[i..]) && NoAssignmentAt(s[i..])
    ensures Scan(secrets, s, false) == s
    decreases |s|
  {
    hide NoSecretAt, NoAssignmentAt;
    if s != [] {
      assert s[0..] == s;
      ByteKept(secrets, s);
      forall i | 0 <= i < |s[1..]| ensures NoSecretAt(secrets, s[1..][i..]) && NoAssignmentAt(s[1..][i..]) {
        assert s[1..][i..] == s[i + 1..];
      }
      PlainTextKept(secrets, s[1..]);
    }
  }
}

/** Bounded capture of a command's output: the first bytes, the last bytes, and how many were lost. */
module CommandCapture {
  import opened Numbers
  import opened Bytes

  const HEAD_BYTES: nat := 65536
  const TAIL_BYTES: nat := 262144
  const U64_MAX: nat := 0xFFFF_FFFF_FFFF_FFFF
  /** The UTF-8 text that stands for the bytes left out. */
  const TRUNCATION_MARKER: seq<byte> := [
    10, 46, 46, 46, 91, 229, 145, 189, 228, 187, 164, 232, 190, 147, 229, 135, 186, 229, 183, 178, 230,
    136, 170, 230, 150, 173, 239, 188, 140, 228, 187, 133, 228, 191, 157, 231, 149, 153, 229, 188, 128,
    229, 164, 180, 228, 184, 142, 231, 187, 147, 229, 176, 190, 93, 46, 46, 46, 10]

  function SaturatingAdd(a: nat, b: nat): nat {
    if a + b <= U64_MAX then a + b else U64_MAX
  }

  function HeadOf(s: seq<byte>): seq<byte> {
    if |s| <= HEAD_BYTES then s else s[..HEAD_BYTES]
  }

  function TailOf(s: seq<byte>): seq<byte> {
    if |s| <= HEAD_BYTES then [] else Last(s[HEAD_BYTES..], TAIL_BYTES)
  }

  function LostOf(s: seq<byte>): nat {
    if |s| <= HEAD_BYTES + TAIL_BYTES then 0
    else if |s| - HEAD_BYTES - TAIL_BYTES <= U64_MAX then |s| - HEAD_BYTES - TAIL_BYTES
    else U64_MAX
  }

  /** What a reader of the captured output s sees. */
  function Shown(s: seq<byte>): seq<byte> {
    if |s| <= HEAD_BYTES + TAIL_BYTES then s
    else s[..HEAD_BYTES] + TRUNCATION_MARKER + s[|s| - TAIL_BYTES..]
  }

  /** How more input moves the captured tail: rest is what the head does not take. */
  lemma TailGrows(s: seq<byte>, bytes: seq<byte>, rest: seq<byte>)
    requires rest == if |s| >= HEAD_BYTES then bytes else if |s| + |bytes| <= HEAD_BYTES then []
                     else bytes[HEAD_BYTES - |s|..]
    ensures TailOf(s + bytes) == Last(TailOf(s) + rest, TAIL_BYTES)
  {
    if |s| > HEAD_BYTES {
      assert (s + bytes)[HEAD_BYTES..] == s[HEAD_BYTES..] + bytes;
      LastOfAppend(s[HEAD_BYTES..], bytes, TAIL_BYTES);
    } else {
      assert TailOf(s) + rest == rest;
      if |s| + |bytes| > HEAD_BYTES {
        assert (s + bytes)[HEAD_BYTES..] == rest;
      }
    }
  }

  lemma HeadGrows(s: seq<byte>, bytes: seq<byte>, n: nat)
    requires n == Min(HEAD_BYTES - |HeadOf(s)|, |bytes|)
    ensures HeadOf(s + bytes) == HeadOf(s) + bytes[..n]
  {
  }

  lemma SaturatingSum(a: nat, b: nat)
    ensures SaturatingAdd(Min(U64_MAX, a), b) == Min(U64_MAX, a + b)
  {
  }

  lemma Sizes(s: seq<byte>)
    ensures |HeadOf(s)| == Min(|s|, HEAD_BYTES)
    ensures |TailOf(s)| == Max(0, Min(|s| - HEAD_BYTES, TAIL_BYTES))
    ensures LostOf(s) == Min(U64_MAX, Max(0, |s| - HEAD_BYTES - TAIL_BYTES))
  {
  }

  lemma LostAppended(s: seq<byte>, bytes: seq<byte>, rest: nat)
    requires rest == |bytes| - Min(HEAD_BYTES - |HeadOf(s)|, |bytes|)
    ensures LostOf(s + bytes) == SaturatingAdd(LostOf(s), Max(0, |TailOf(s)| + rest - TAIL_BYTES))
  {
    Sizes(s);
    Sizes(s + bytes);
    hide HeadOf, TailOf, LostOf;
    var lost := Max(0, |s| - HEAD_BYTES - TAIL_BYTES);
    var more := Max(0, |TailOf(s)| + rest - TAIL_BYTES);
    assert lost + more == Max(0, |s| + |bytes| - HEAD_BYTES - TAIL_BYTES);
    SaturatingSum(lost, more);
  }

  class BoundedCommandCapture {
    var head: seq<byte>
    var tail: seq<byte>
    var dropped: nat
    /** Everything appended so far, in order. */
    ghost var received: seq<byte>

    /** The state depends on the bytes received, not on how they were cut. */
    ghost predicate Valid()
      reads this
    {
      head == HeadOf(received) && tail == TailOf(received) && dropped == LostOf(received)
    }

    constructor ()
      ensures Valid() && received == []
    {
      head := [];
      tail := [];
      dropped := 0;
      received := [];
    }

    method Append(bytes: seq<byte>)
      requires Valid()
      modifies this
      ensures Valid() && received == old(received) + bytes
    {
      Sizes(received);
      hide HeadOf, TailOf, LostOf, Last;
      var headBytes := Min(HEAD_BYTES - |head|, |bytes|);
      HeadGrows(received, bytes, headBytes);
      TailGrows(received, bytes, bytes[headBytes..]);
      LostAppended(received, bytes, |bytes| - headBytes);
      head := head + bytes[..headBytes];
      received := received + bytes;
      KeepLatest(bytes[headBytes..]);
    }

    /** What the head leaves over goes to the tail: while there is room it grows, then it rolls. */
    method KeepLatest(rest: seq<byte>)
      requires |tail| <= TAIL_BYTES
      modifies this`tail, this`dropped
      ensures tail == Last(old(tail) + rest, TAIL_BYTES)
      ensures dropped == SaturatingAdd(old(dropped), Max(0, |old(tail)| + |rest| - TAIL_BYTES)) || old(dropped) > U64_MAX
    {
      hide Last, SaturatingAdd;
      var remaining := rest;
      if |tail| < TAIL_BYTES {
        var retained := Min(TAIL_BYTES - |tail|, |remaining|);
        tail := tail + remaining[..retained];
        remaining := remaining[retained..];
      }
      assert tail + remaining == old(tail) + rest;
      RollTail(remaining);
    }

    /** A full tail makes room for more bytes, and as many are lost. */
    method RollTail(remaining: seq<byte>)
      requires |tail| == TAIL_BYTES || (remaining == [] && |tail| < TAIL_BYTES)
      modifies this`tail, this`dropped
      ensures tail == Last(old(tail) + remaining, TAIL_BYTES)
      ensures dropped == SaturatingAdd(old(dropped), |remaining|) || old(dropped) > U64_MAX
    {
      if remaining == [] {
        assert tail + remaining == tail;
        return;
      }
      RollIsLast(tail, remaining);
      hide Last;
      dropped := SaturatingAdd(dropped, |remaining|);
      if |remaining| >= TAIL_BYTES {
        tail := remaining[|remaining| - TAIL_BYTES..];
      } else {
        tail := tail[|remaining|..] + remaining;
      }
    }

    method IntoBytes() returns (output: seq<byte>)
      requires Valid()
      ensures output == Shown(received)
    {
      output := head;
      if dropped > 0 {
        output := output + TRUNCATION_MARKER;
      }
      output := output + tail;
    }
  }
}

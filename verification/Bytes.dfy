/** Byte streams: the alphabet shared by the redactor, the log buffers and the command capture. */
module Bytes {
  newtype byte = b: int | 0 <= b < 256

  function Flatten(chunks: seq<seq<byte>>): seq<byte> {
    if chunks == [] then [] else chunks[0] + Flatten(chunks[1..])
  }

  /** True when word occurs in text, starting at index k. */
  predicate OccursAt(word: seq<byte>, text: seq<byte>, k: nat) {
    k <= |text| && word <= text[k..]
  }

  predicate Occurs(word: seq<byte>, text: seq<byte>) {
    exists k: nat :: k <= |text| && OccursAt(word, text, k)
  }

  lemma FlattenSplit(a: seq<seq<byte>>, b: seq<seq<byte>>)
    ensures Flatten(a + b) == Flatten(a) + Flatten(b)
  {
    if a == [] {
      assert a + b == b;
    } else {
      assert (a + b)[1..] == a[1..] + b;
    }
  }

  /** The last n bytes of s, or all of them. */
  function Last(s: seq<byte>, n: nat): seq<byte> {
    if |s| <= n then s else s[|s| - n..]
  }

  /** How a full tail makes room: the oldest bytes leave at the front. */
  function Roll(tail: seq<byte>, more: seq<byte>): seq<byte> {
    if |more| >= |tail| then more[|more| - |tail|..] else tail[|more|..] + more
  }

  lemma RollIsLast(tail: seq<byte>, more: seq<byte>)
    ensures Roll(tail, more) == Last(tail + more, |tail|)
  {
  }

  lemma LastOfAppend(a: seq<byte>, b: seq<byte>, n: nat)
    ensures Last(Last(a, n) + b, n) == Last(a + b, n)
  {
  }
}

/**
 String helpers: substring occurrence, the meaning of `t in s` for two
 strings, and joining a sequence of strings end to end, which distributes
 over appending.
 */
module Strings {

  /** `t` occurs in `s` as a contiguous block starting at index `i`. */
  predicate OccursAt(s: string, t: string, i: nat) {
    i + |t| <= |s| && s[i..i + |t|] == t
  }

  /** `t` occurs somewhere in `s`. */
  ghost predicate Contains(s: string, t: string) {
    exists i: nat :: OccursAt(s, t, i)
  }

  /** A string occurs in any concatenation that has it as a middle part. */
  lemma OccursInMiddle(a: string, t: string, b: string)
    ensures OccursAt(a + t + b, t, |a|)
    ensures Contains(a + t + b, t)
  {
    assert (a + t + b)[|a|..|a| + |t|] == t;
    assert OccursAt(a + t + b, t, |a|);
  }

  /** A string occurs in any concatenation that has it inside one of its parts. */
  lemma OccursInPart(pre: string, a: string, t: string, b: string, post: string)
    ensures Contains(pre + (a + t + b) + post, t)
  {
    assert pre + (a + t + b) + post == (pre + a) + t + (b + post);
    OccursInMiddle(pre + a, t, b + post);
  }

  /** The parts joined end to end, in order. */
  function Concat(parts: seq<string>): (c: string)
    ensures parts == [] ==> c == ""
    ensures |parts| == 1 ==> c == parts[0]
  {
    assert |parts| == 1 ==> parts[..0] == [];
    if parts == [] then "" else Concat(parts[..|parts| - 1]) + parts[|parts| - 1]
  }

  /** Joining distributes over appending parts. */
  lemma {:induction false} ConcatAppend(a: seq<string>, b: seq<string>)
    ensures Concat(a + b) == Concat(a) + Concat(b)
    decreases |b|
  {
    if b == [] {
      assert a + b == a;
    } else {
      var b' := b[..|b| - 1];
      assert (a + b)[..|a + b| - 1] == a + b';
      assert (a + b)[|a + b| - 1] == b[|b| - 1];
      ConcatAppend(a, b');
    }
  }
}

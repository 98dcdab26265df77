/** Byte strings and the "last n bytes" view of a history. */
module Bytes {
  type byte = x: int | 0 <= x < 256

  /** The last n elements of s, or all of s when it is shorter. */
  function LastN<T>(s: seq<T>, n: nat): (r: seq<T>)
    ensures |r| == if |s| <= n then |s| else n
  {
    if |s| <= n then s else s[|s| - n..]
  }

  ghost predicate IsSuffix<T>(t: seq<T>, s: seq<T>) {
    |t| <= |s| && s[|s| - |t|..] == t
  }

  /** Remembering only the last n elements of a history is enough to know the
      last n elements of any extension of it. */
  lemma LastNAppend<T>(s: seq<T>, t: seq<T>, n: nat)
    ensures LastN(s + t, n) == LastN(LastN(s, n) + t, n)
  {
  }

  lemma SuffixAppend<T>(t: seq<T>, s: seq<T>, d: seq<T>)
    requires IsSuffix(t, s)
    ensures IsSuffix(t + d, s + d)
  {
    assert (s + d)[|s + d| - |t + d|..] == s[|s| - |t|..] + d;
  }

  lemma SuffixTrans<T>(u: seq<T>, t: seq<T>, s: seq<T>)
    requires IsSuffix(u, t) && IsSuffix(t, s)
    ensures IsSuffix(u, s)
  {
    assert s[|s| - |u|..] == s[|s| - |t|..][|t| - |u|..];
  }
}

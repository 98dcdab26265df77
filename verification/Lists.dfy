/** Lists without repetition, as the daemon and the GUI keep their objects. */
module Lists {
  ghost predicate NoDup<T>(s: seq<T>) {
    forall i, j :: 0 <= i < j < |s| ==> s[i] != s[j]
  }

  lemma NoDupCons<T>(x: T, s: seq<T>)
    requires NoDup(s) && x !in s
    ensures NoDup([x] + s)
  {
  }

  /** s without the first x. */
  ghost function Without<T>(s: seq<T>, x: T): seq<T> {
    if s == [] then [] else if s[0] == x then s[1..] else [s[0]] + Without(s[1..], x)
  }

  lemma {:induction false} WithoutAt<T>(s: seq<T>, x: T, i: nat)
    requires i <= |s| && x !in s[..i] && (i < |s| ==> s[i] == x)
    ensures Without(s, x) == s[..i] + if i < |s| then s[i + 1..] else []
  {
    if i > 0 {
      assert s[0] in s[..i] && s[1..][..i - 1] == s[..i][1..];
      WithoutAt(s[1..], x, i - 1);
    }
  }

  /** The pointer-to-pointer unlink loop of the source's linked lists. */
  method Unlink<T(==)>(s: seq<T>, x: T) returns (r: seq<T>)
    requires NoDup(s)
    ensures NoDup(r) && (forall y <- r :: y in s && y != x) && (forall y <- s :: y != x ==> y in r)
    ensures r == Without(s, x) && |r| == if x in s then |s| - 1 else |s|
  {
    var i := 0;
    while i < |s|
      invariant i <= |s| && x !in s[..i]
    {
      if s[i] == x {
        r := s[..i] + s[i + 1..];
        WithoutAt(s, x, i);
        forall y | y in s && y != x ensures y in r {
          var k :| 0 <= k < |s| && s[k] == y;
          assert y == r[if k < i then k else k - 1];
        }
        return;
      }
      i := i + 1;
    }
    WithoutAt(s, x, |s|);
    return s;
  }
}

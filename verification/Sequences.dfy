/** Small facts about slices, stated once so that loop proofs need not rediscover them. */
module Sequences {

  lemma SliceSnoc<T>(s: seq<T>, i: nat, j: nat)
    requires i <= j < |s|
    ensures s[i..j + 1] == s[i..j] + [s[j]]
  {
  }

  lemma DropStep<T>(s: seq<T>, i: nat)
    requires i < |s|
    ensures s[i..] != [] && s[i..][0] == s[i] && s[i..][1..] == s[i + 1..]
  {
  }

  lemma DropSplit<T>(s: seq<T>, i: nat, j: nat)
    requires i <= j <= |s|
    ensures s[i..][..j - i] == s[i..j] && s[i..][j - i..] == s[j..]
    ensures s[i..] == s[i..j] + s[j..]
  {
  }

  lemma DropDrop<T>(s: seq<T>, i: nat, n: nat)
    requires i + n <= |s|
    ensures s[i..][n..] == s[i + n..]
    ensures i + n < |s| ==> s[i..][n] == s[i + n]
  {
  }

  lemma DropConcat<T>(a: seq<T>, b: seq<T>, i: nat)
    requires i <= |a|
    ensures (a + b)[i..] == a[i..] + b && (i < |a| ==> (a + b)[i] == a[i])
  {
  }

  lemma TakeDrop<T>(s: seq<T>, n: nat)
    requires n <= |s|
    ensures s == s[..n] + s[n..]
  {
  }

  lemma ConsParts<T>(x: T, s: seq<T>)
    ensures ([x] + s)[0] == x && ([x] + s)[1..] == s
  {
  }

  lemma ConcatParts<T>(a: seq<T>, b: seq<T>)
    ensures (a + b)[..|a|] == a && (a + b)[|a|..] == b
  {
  }

  lemma Cons<T>(s: seq<T>)
    requires s != []
    ensures s == [s[0]] + s[1..]
  {
  }

  lemma Assoc<T>(a: seq<T>, b: seq<T>, c: seq<T>)
    ensures a + b + c == a + (b + c)
  {
  }

  lemma PairConcat<T>(x: T, y: T, s: seq<T>)
    ensures [x] + ([y] + s) == [x, y] + s
  {
  }

  lemma TakeAll<T>(s: seq<T>)
    ensures s[..|s|] == s && s[|s|..] == [] && s[0..] == s
  {
  }

  /** One of two fronts of the same sequence begins the other. */
  lemma FrontsMeet<T>(a: seq<T>, s: seq<T>, b: seq<T>, u: seq<T>)
    requires a + s == b + u
    ensures a <= b || b <= a
    ensures a == b ==> s == u
  {
    ConcatParts(a, s);
    ConcatParts(b, u);
    if |a| <= |b| {
      assert (a + s)[..|a|] == b[..|a|];
    } else {
      assert (b + u)[..|b|] == a[..|b|];
    }
  }

  lemma SliceOfSlice<T>(s: seq<T>, a: nat, b: nat, i: nat, j: nat)
    requires a <= b <= |s| && i <= j <= b - a
    ensures s[a..b][i..j] == s[a + i..a + j]
  {
    assert forall k :: 0 <= k < b - a ==> s[a..b][k] == s[a + k];
  }
}

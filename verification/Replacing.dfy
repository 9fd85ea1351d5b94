/** Searching and replacing within a text, leftmost first and without overlap. */
module Replacing {
  import opened Sequences

  ghost predicate At(w: string, s: string, p: nat) {
    p + |w| <= |s| && s[p..p + |w|] == w
  }

  ghost predicate Occurs(w: string, s: string) {
    exists p: nat :: At(w, s, p)
  }

  lemma AtFront(w: string, s: string)
    ensures At(w, s, 0) <==> w <= s
  {
    if w <= s {
      assert s[0..|w|] == w;
    }
  }

  lemma AtNext(w: string, s: string, p: nat)
    requires s != ""
    ensures At(w, s, p + 1) <==> At(w, s[1..], p)
  {
    if p + 1 + |w| <= |s| {
      assert s[1..][p..p + |w|] == s[p + 1..p + 1 + |w|];
    }
  }

  lemma FirstOf(w: string, s: string, p: nat)
    requires At(w, s, p) && w != ""
    ensures s[p] == w[0] && s[p + |w| - 1] == w[|w| - 1]
  {
    assert s[p..p + |w|][0] == s[p] && s[p..p + |w|][|w| - 1] == s[p + |w| - 1];
  }

  function ReplaceAll(s: string, key: string, value: string): string
    requires key != ""
  {
    if |s| < |key| then s
    else if key <= s then value + ReplaceAll(s[|key|..], key, value)
    else [s[0]] + ReplaceAll(s[1..], key, value)
  }

  function Count(s: string, key: string): nat {
    if key == "" || |s| < |key| then 0
    else if key <= s then 1 + Count(s[|key|..], key)
    else Count(s[1..], key)
  }

  lemma {:induction false} NoneToReplace(s: string, key: string, value: string)
    requires key != "" && Count(s, key) == 0
    ensures ReplaceAll(s, key, value) == s
  {
    if |s| >= |key| {
      NoneToReplace(s[1..], key, value);
    }
  }

  lemma {:induction false} CountedOccurs(s: string, key: string)
    requires key != ""
    ensures Count(s, key) > 0 <==> Occurs(key, s)
  {
    if |s| >= |key| {
      if key <= s {
        assert At(key, s, 0);
      } else {
        CountedOccurs(s[1..], key);
        if Occurs(key, s[1..]) {
          var p: nat :| At(key, s[1..], p);
          AtNext(key, s, p);
        }
        if Occurs(key, s) {
          var p: nat :| At(key, s, p);
          AtFront(key, s);
          AtNext(key, s, p - 1);
        }
      }
    }
  }

  lemma OccursInPart(w: string, a: string, s: string, b: string)
    requires Occurs(w, s)
    ensures Occurs(w, a + s + b)
  {
    var p: nat :| At(w, s, p);
    var whole := a + s + b;
    assert whole[|a| + p..|a| + p + |w|] == s[p..p + |w|];
    assert At(w, whole, |a| + p);
  }

  lemma OccursInDrop(w: string, s: string, x: nat)
    requires x <= |s| && Occurs(w, s[x..])
    ensures Occurs(w, s)
  {
    assert s == s[..x] + s[x..] + "";
    OccursInPart(w, s[..x], s[x..], "");
  }

  /** Replacing leaves alone what comes before the first occurrence. */
  lemma {:induction false} SkipTo(s: string, key: string, value: string, n: nat)
    requires key != "" && n <= |s| && forall i :: 0 <= i < n ==> !(key <= s[i..])
    ensures ReplaceAll(s, key, value) == s[..n] + ReplaceAll(s[n..], key, value) && Count(s, key) == Count(s[n..], key)
  {
    hide ReplaceAll, Count;
    assert s[0..] == s;
    if n == 0 {
      assert s[..0] == "";
    } else {
      forall i | 0 <= i < n - 1 ensures !(key <= s[1..][i..]) {
        DropDrop(s, 1, i);
      }
      OneSkip(s, key, value);
      SkipTo(s[1..], key, value, n - 1);
      DropDrop(s, 1, n - 1);
      assert s[..n] == [s[0]] + s[1..][..n - 1];
      Assoc([s[0]], s[1..][..n - 1], ReplaceAll(s[n..], key, value));
    }
  }

  lemma OneSkip(s: string, key: string, value: string)
    requires key != "" && s != "" && !(key <= s)
    ensures ReplaceAll(s, key, value) == [s[0]] + ReplaceAll(s[1..], key, value) && Count(s, key) == Count(s[1..], key)
  {
    Cons(s);
  }
}

/** The order in which tokens are put back: longest first, then lexicographic. */
module TokenOrder {
  import opened Basics

  predicate LexLess(a: string, b: string) {
    b != [] && (a == [] || a[0] < b[0] || (a[0] == b[0] && LexLess(a[1..], b[1..])))
  }

  predicate Before(a: string, b: string) {
    |a| > |b| || (|a| == |b| && LexLess(a, b))
  }

  lemma {:induction false} LexTotal(a: string, b: string)
    ensures LexLess(a, b) || a == b || LexLess(b, a)
  {
    if a != [] && b != [] && a[0] == b[0] {
      LexTotal(a[1..], b[1..]);
      assert a == [a[0]] + a[1..] && b == [b[0]] + b[1..];
    }
  }

  lemma {:induction false} LexTransitive(a: string, b: string, c: string)
    requires LexLess(a, b) && LexLess(b, c)
    ensures LexLess(a, c)
  {
    if a != [] && a[0] == b[0] == c[0] {
      LexTransitive(a[1..], b[1..], c[1..]);
    }
  }

  lemma {:induction false} LexIrreflexive(a: string)
    ensures !LexLess(a, a)
  {
    if a != [] {
      LexIrreflexive(a[1..]);
    }
  }

  /** The members of a set, each once, in order. */
  ghost predicate Orders(s: seq<string>, members: set<string>) {
    Ascending(s) && forall x :: x in s <==> x in members
  }

  ghost predicate Ascending(s: seq<string>) {
    forall i, j :: 0 <= i < j < |s| ==> Before(s[i], s[j])
  }

  lemma BeforeIsStrict()
    ensures StrictOrder(Before)
  {
    forall a, b | Before(a, b) ensures !Before(b, a) {
      BeforeAsymmetric(a, b);
    }
    forall a, b, c | !Before(b, a) && !Before(c, b) ensures !Before(c, a) {
      if |a| == |b| == |c| {
        LexTotal(a, b);
        LexTotal(b, c);
        NotLexBack(a, b, c);
      }
    }
  }

  lemma NotLexBack(a: string, b: string, c: string)
    requires (a == b || LexLess(a, b)) && (b == c || LexLess(b, c))
    ensures !LexLess(c, a)
  {
    LexIrreflexive(a);
    if LexLess(c, a) {
      if a != b {
        LexTransitive(c, a, b);
      }
      if b != c {
        LexTransitive(b, c, a);
      }
      if a != b && b != c {
        LexTransitive(a, b, a);
      }
    }
  }

  /** Sorting the distinct members of a set lists them in order. */
  lemma SortOrders(s: seq<string>)
    requires Distinct(s)
    ensures Ascending(Sort(s, Before)) && forall y :: y in Sort(s, Before) <==> y in s
  {
    BeforeIsStrict();
    SortSorts(s, Before);
    SortDistinct(s, Before);
    var t := Sort(s, Before);
    forall i, j | 0 <= i < j < |t| ensures Before(t[i], t[j]) {
      if |t[i]| == |t[j]| {
        LexTotal(t[i], t[j]);
      }
    }
  }

  lemma BeforeAsymmetric(a: string, b: string)
    requires Before(a, b)
    ensures !Before(b, a) && a != b
  {
    if LexLess(b, a) && |a| == |b| {
      LexTransitive(a, b, a);
    }
    LexIrreflexive(a);
  }

  /** There is only one such listing, so the iteration order of a map cannot show through it. */
  lemma {:induction false} OrderIsUnique(s: seq<string>, t: seq<string>, members: set<string>)
    requires Orders(s, members) && Orders(t, members)
    ensures s == t
    decreases |s|
  {
    EmptyOrder(s, members);
    EmptyOrder(t, members);
    if members != {} {
      HeadsAgree(s, t, members);
      TailOrders(s, members);
      TailOrders(t, members);
      OrderIsUnique(s[1..], t[1..], members - {s[0]});
      assert s == [s[0]] + s[1..] && t == [t[0]] + t[1..];
    }
  }

  lemma EmptyOrder(s: seq<string>, members: set<string>)
    requires Orders(s, members)
    ensures s == [] <==> members == {}
  {
    if s != [] {
      assert s[0] in members;
    }
  }

  lemma HeadsAgree(s: seq<string>, t: seq<string>, members: set<string>)
    requires Orders(s, members) && Orders(t, members) && s != [] && t != []
    ensures s[0] == t[0]
  {
    assert s[0] in members && t[0] in members;
    var i :| 0 <= i < |t| && t[i] == s[0];
    var j :| 0 <= j < |s| && s[j] == t[0];
    if i > 0 && j > 0 {
      BeforeAsymmetric(s[0], t[0]);
    }
  }

  lemma TailOrders(s: seq<string>, members: set<string>)
    requires Orders(s, members) && s != []
    ensures Orders(s[1..], members - {s[0]})
  {
    forall x ensures x in s[1..] <==> x in members - {s[0]} {
      if x in s[1..] {
        var j :| 0 <= j < |s[1..]| && s[1..][j] == x;
        assert s[j + 1] == x;
        BeforeAsymmetric(s[0], s[j + 1]);
      }
      if x in members && x != s[0] {
        var j :| 0 <= j < |s| && s[j] == x;
        assert s[1..][j - 1] == x;
      }
    }
  }
}

/** A value that may be missing, white space, and stable sorting: what several modules share. */
module Basics {

  datatype Option<+T> = None | Some(value: T)

  predicate IsSpace(c: char) {
    c == ' ' || '\t' <= c <= '\r'
  }

  // Sorting by a strict order; equal elements keep their places.

  ghost predicate StrictOrder<T(!new)>(less: (T, T) -> bool) {
    && (forall a, b :: less(a, b) ==> !less(b, a))
    && (forall a, b, c :: !less(b, a) && !less(c, b) ==> !less(c, a))
  }

  ghost predicate Sorted<T>(s: seq<T>, less: (T, T) -> bool) {
    forall i, j :: 0 <= i < j < |s| ==> !less(s[j], s[i])
  }

  function Insert<T>(x: T, s: seq<T>, less: (T, T) -> bool): seq<T> {
    if s == [] || !less(s[0], x) then [x] + s else [s[0]] + Insert(x, s[1..], less)
  }

  function Sort<T>(s: seq<T>, less: (T, T) -> bool): seq<T> {
    if s == [] then [] else Insert(s[0], Sort(s[1..], less), less)
  }

  lemma {:induction false} InsertSorts<T(!new)>(x: T, s: seq<T>, less: (T, T) -> bool)
    requires StrictOrder(less) && Sorted(s, less)
    ensures Sorted(Insert(x, s, less), less) && forall y :: y in Insert(x, s, less) <==> y == x || y in s
    ensures |Insert(x, s, less)| == |s| + 1
  {
    if s != [] && less(s[0], x) {
      InsertSorts(x, s[1..], less);
      forall y | y in Insert(x, s[1..], less) ensures !less(y, s[0]) {
        if y != x {
          var j :| 0 <= j < |s[1..]| && s[1..][j] == y;
          assert s[j + 1] == y;
        }
      }
    }
  }

  lemma {:induction false} SortSorts<T(!new)>(s: seq<T>, less: (T, T) -> bool)
    requires StrictOrder(less)
    ensures Sorted(Sort(s, less), less) && |Sort(s, less)| == |s| && forall y :: y in Sort(s, less) <==> y in s
  {
    if s != [] {
      SortSorts(s[1..], less);
      InsertSorts(s[0], Sort(s[1..], less), less);
    }
  }

  ghost predicate Distinct<T>(s: seq<T>) {
    forall i, j :: 0 <= i < j < |s| ==> s[i] != s[j]
  }

  lemma DistinctSnoc<T>(s: seq<T>, x: T)
    requires Distinct(s) && x !in s
    ensures Distinct(s + [x])
  {
  }

  lemma {:induction false} InsertDistinct<T(!new)>(x: T, s: seq<T>, less: (T, T) -> bool)
    requires StrictOrder(less) && Sorted(s, less) && Distinct(s) && x !in s
    ensures Distinct(Insert(x, s, less))
  {
    if s != [] && less(s[0], x) {
      InsertSorts(x, s[1..], less);
      InsertDistinct(x, s[1..], less);
      assert s[0] !in s[1..];
    }
  }

  lemma {:induction false} SortDistinct<T(!new)>(s: seq<T>, less: (T, T) -> bool)
    requires StrictOrder(less) && Distinct(s)
    ensures Distinct(Sort(s, less))
  {
    if s != [] {
      SortDistinct(s[1..], less);
      SortSorts(s[1..], less);
      assert s[0] !in s[1..];
      InsertDistinct(s[0], Sort(s[1..], less), less);
    }
  }
}

/** Sorting by a strict order, as a specification of the library sort. */
module Sorting {

  ghost predicate Transitive<T(!new)>(less: (T, T) -> bool) {
    forall a, b, c :: less(a, b) && less(b, c) ==> less(a, c)
  }

  /** The order decides between any two elements of `s` at different places. */
  ghost predicate Comparable<T>(less: (T, T) -> bool, s: seq<T>) {
    forall i, j :: 0 <= i < j < |s| ==> less(s[i], s[j]) || less(s[j], s[i])
  }

  ghost predicate Ordered<T>(less: (T, T) -> bool, s: seq<T>) {
    forall i, j :: 0 <= i < j < |s| ==> less(s[i], s[j])
  }

  function Insert<T>(less: (T, T) -> bool, x: T, s: seq<T>): seq<T> {
    if s == [] || less(x, s[0]) then [x] + s else [s[0]] + Insert(less, x, s[1..])
  }

  function Sort<T>(less: (T, T) -> bool, s: seq<T>): seq<T> {
    if s == [] then [] else Insert(less, s[|s| - 1], Sort(less, s[..|s| - 1]))
  }

  lemma {:induction false} InsertKeeps<T>(less: (T, T) -> bool, x: T, s: seq<T>)
    ensures multiset(Insert(less, x, s)) == multiset(s) + multiset{x}
    ensures |Insert(less, x, s)| == |s| + 1
    ensures forall y :: y in Insert(less, x, s) <==> y == x || y in s
  {
    if s != [] && !less(x, s[0]) {
      InsertKeeps(less, x, s[1..]);
      assert s == [s[0]] + s[1..];
    }
  }

  lemma {:induction false} InsertOrdered<T(!new)>(less: (T, T) -> bool, x: T, s: seq<T>)
    requires Transitive(less) && Ordered(less, s) && forall y :: y in s ==> less(x, y) || less(y, x)
    ensures Ordered(less, Insert(less, x, s))
  {
    if s != [] && !less(x, s[0]) {
      var rest := s[1..];
      InsertOrdered(less, x, rest);
      InsertKeeps(less, x, rest);
      var r := Insert(less, x, rest);
      forall i | 0 <= i < |r| ensures less(s[0], r[i]) {
        assert r[i] in r;
      }
    }
  }

  /** The result is a permutation in strictly increasing order. */
  lemma {:induction false} SortOk<T(!new)>(less: (T, T) -> bool, s: seq<T>)
    requires Transitive(less) && Comparable(less, s)
    ensures multiset(Sort(less, s)) == multiset(s) && |Sort(less, s)| == |s|
    ensures Ordered(less, Sort(less, s))
    ensures forall y :: y in Sort(less, s) <==> y in s
  {
    if s != [] {
      var front, last := s[..|s| - 1], s[|s| - 1];
      SortOk(less, front);
      assert s == front + [last];
      InsertKeeps(less, last, Sort(less, front));
      InsertOrdered(less, last, Sort(less, front));
    }
  }
}

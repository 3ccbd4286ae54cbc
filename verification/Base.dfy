/** Small shared vocabulary: optional values, machine words and bytes, and the pigeonhole principle. */
module Base {

  datatype Option<+T> = None | Some(value: T)

  /** The number of values of a 64-bit word. */
  const WORD: nat := 0x1_0000_0000_0000_0000

  type Byte = x: int | 0 <= x < 256

  type Bytes = seq<Byte>

  ghost predicate NoDuplicates<T>(s: seq<T>) {
    forall i, j :: 0 <= i < j < |s| ==> s[i] != s[j]
  }

  /** The elements of a duplicate-free sequence, counted as a set. */
  lemma {:induction false} DistinctCount<T>(s: seq<T>)
    requires NoDuplicates(s)
    ensures |set x | x in s| == |s|
  {
    var whole := set x | x in s;
    if s == [] {
      assert whole == {};
    } else {
      var last := s[|s| - 1];
      var front := s[..|s| - 1];
      DistinctCount(front);
      assert whole == (set x | x in front) + {last};
    }
  }

  lemma SubsetCount<T>(small: set<T>, large: set<T>)
    requires small <= large
    ensures |small| <= |large|
  {
    assert large == small + (large - small);
  }

  /** Pigeonhole: a duplicate-free sequence over a finite set is no longer than the set. */
  lemma DistinctBound<T>(s: seq<T>, universe: set<T>)
    requires NoDuplicates(s)
    requires forall x :: x in s ==> x in universe
    ensures |s| <= |universe|
  {
    DistinctCount(s);
    SubsetCount((set x | x in s), universe);
  }

  /** A sequence longer than the set it draws from repeats an element. */
  lemma Pigeonhole<T>(s: seq<T>, universe: set<T>) returns (i: nat, j: nat)
    requires forall x :: x in s ==> x in universe
    requires |s| > |universe|
    ensures i < j < |s| && s[i] == s[j]
  {
    if NoDuplicates(s) {
      DistinctBound(s, universe);
      assert false;
    }
    i, j :| 0 <= i < j < |s| && s[i] == s[j];
  }

  /** The numbers below `n`. */
  function Below(n: nat): (s: set<nat>)
    ensures forall k: nat :: k in s <==> k < n
    ensures |s| == n
  {
    if n == 0 then {} else Below(n - 1) + {n - 1}
  }

  /** Taking one element out of a sequence takes it out of its multiset. */
  lemma WithoutCount<T>(s: seq<T>, k: nat)
    requires k < |s|
    ensures multiset(s) == multiset(s[..k] + s[k + 1..]) + multiset{s[k]}
  {
    assert s == s[..k] + [s[k]] + s[k + 1..];
  }

  lemma {:induction false} DistinctMultiset<T>(s: seq<T>, x: T)
    requires NoDuplicates(s)
    ensures multiset(s)[x] <= 1
  {
    if s != [] {
      var n := |s| - 1;
      DistinctMultiset(s[..n], x);
      WithoutCount(s, n);
      assert s[..n] + s[n + 1..] == s[..n];
      assert s[n] !in s[..n];
    }
  }

  lemma RepeatedMultiset<T>(s: seq<T>, i: nat, j: nat)
    requires i < j < |s| && s[i] == s[j]
    ensures multiset(s)[s[i]] >= 2
  {
    WithoutCount(s, j);
    var rest := s[..j] + s[j + 1..];
    assert rest[i] == s[i];
    assert s[i] in multiset(rest);
  }

  /** `f` applied `n` times. */
  ghost function Iterate<T>(f: T -> T, x: T, n: nat): T {
    if n == 0 then x else f(Iterate(f, x, n - 1))
  }

  lemma {:induction false} IterateSum<T>(f: T -> T, x: T, m: nat, n: nat)
    ensures Iterate(f, x, m + n) == Iterate(f, Iterate(f, x, m), n)
  {
    if n > 0 { IterateSum(f, x, m, n - 1); }
  }

  /** Some number of applications of `f` takes `x` to `y`. */
  ghost predicate Reaches<T(!new)>(f: T -> T, x: T, y: T) {
    exists n: nat :: Iterate(f, x, n) == y
  }

  lemma ReachesOn<T(!new)>(f: T -> T, x: T, y: T, z: T)
    requires Reaches(f, x, y) && Reaches(f, y, z)
    ensures Reaches(f, x, z)
  {
    var m: nat :| Iterate(f, x, m) == y;
    var n: nat :| Iterate(f, y, n) == z;
    IterateSum(f, x, m, n);
  }

  lemma ReachesOne<T(!new)>(f: T -> T, x: T)
    ensures Reaches(f, x, x) && Reaches(f, x, f(x))
  {
    assert Iterate(f, x, 0) == x;
    assert Iterate(f, x, 1) == f(x);
  }
}

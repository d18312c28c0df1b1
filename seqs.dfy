/**
 * The array operations the screens use (`filter`, `map`, `filter(...).length`,
 * `[...new Set(xs)]`) as functions on sequences, with the facts proved once here.
 */
module Seqs {

  /** `a` is obtained from `b` by deleting elements, keeping the order of the rest. */
  predicate IsSubsequence<T(==)>(a: seq<T>, b: seq<T>)
    decreases |b|
  {
    if a == [] then true
    else if b == [] then false
    else if a[0] == b[0] then IsSubsequence(a[1..], b[1..])
    else IsSubsequence(a, b[1..])
  }

  lemma {:induction false} SubsequenceRefl<T>(a: seq<T>)
    ensures IsSubsequence(a, a)
    decreases |a|
  {
    if a != [] {
      SubsequenceRefl(a[1..]);
    }
  }

  /** A subsequence only holds elements of the sequence it was drawn from. */
  lemma {:induction false} SubsequenceMembers<T>(a: seq<T>, b: seq<T>)
    requires IsSubsequence(a, b)
    ensures |a| <= |b|
    ensures forall x :: x in a ==> x in b
    decreases |b|
  {
    if a == [] {
    } else if a[0] == b[0] {
      SubsequenceMembers(a[1..], b[1..]);
      assert a == [a[0]] + a[1..] && b == [b[0]] + b[1..];
    } else {
      SubsequenceMembers(a, b[1..]);
      assert b == [b[0]] + b[1..];
    }
  }

  /** Appending the same element to both sides keeps the relation. */
  lemma {:induction false} SubsequenceSnoc<T>(a: seq<T>, b: seq<T>, x: T)
    requires IsSubsequence(a, b)
    ensures IsSubsequence(a + [x], b + [x])
    decreases |b|
  {
    if a == [] {
      SubsequenceEmptySnoc(b, x);
      assert a + [x] == [x];
    } else if a[0] == b[0] {
      SubsequenceSnoc(a[1..], b[1..], x);
      assert (a + [x])[1..] == a[1..] + [x];
      assert (b + [x])[1..] == b[1..] + [x];
    } else {
      SubsequenceSnoc(a, b[1..], x);
      assert (b + [x])[1..] == b[1..] + [x];
    }
  }

  lemma {:induction false} SubsequenceEmptySnoc<T>(b: seq<T>, x: T)
    ensures IsSubsequence([x], b + [x])
    decreases |b|
  {
    if b != [] && b[0] != x {
      SubsequenceEmptySnoc(b[1..], x);
      assert (b + [x])[1..] == b[1..] + [x];
    }
  }

  /** Dropping an element at the end of the larger side keeps the relation. */
  lemma {:induction false} SubsequenceSnocRight<T>(a: seq<T>, b: seq<T>, x: T)
    requires IsSubsequence(a, b)
    ensures IsSubsequence(a, b + [x])
    decreases |b|
  {
    if a == [] {
    } else if a[0] == b[0] {
      SubsequenceSnocRight(a[1..], b[1..], x);
      assert (b + [x])[1..] == b[1..] + [x];
    } else {
      SubsequenceSnocRight(a, b[1..], x);
      assert (b + [x])[1..] == b[1..] + [x];
    }
  }

  /** `s.filter(p)`. */
  function Filter<T>(s: seq<T>, p: T -> bool): (r: seq<T>)
    ensures |r| <= |s|
    ensures forall x :: x in r ==> x in s && p(x)
  {
    if s == [] then []
    else if p(s[0]) then [s[0]] + Filter(s[1..], p)
    else Filter(s[1..], p)
  }

  /** The filtered list keeps the order of the input. */
  lemma {:induction false} FilterIsSubsequence<T>(s: seq<T>, p: T -> bool)
    ensures IsSubsequence(Filter(s, p), s)
    decreases |s|
  {
    if s != [] {
      FilterIsSubsequence(s[1..], p);
      if p(s[0]) {
        assert Filter(s, p)[1..] == Filter(s[1..], p);
      } else if Filter(s, p) != [] {
        var r := Filter(s, p);
        assert r[0] in r;
        assert r[0] != s[0];
      }
    }
  }

  /** Every element satisfying `p` keeps all its occurrences; every other one disappears. */
  lemma {:induction false} FilterMultiplicity<T>(s: seq<T>, p: T -> bool, x: T)
    ensures multiset(Filter(s, p))[x] == if p(x) then multiset(s)[x] else 0
    decreases |s|
  {
    if s != [] {
      FilterMultiplicity(s[1..], p, x);
      assert s == [s[0]] + s[1..];
    }
  }

  /** A filter that keeps every element is the identity. */
  lemma {:induction false} FilterAll<T>(s: seq<T>, p: T -> bool)
    requires forall i :: 0 <= i < |s| ==> p(s[i])
    ensures Filter(s, p) == s
    decreases |s|
  {
    if s != [] {
      FilterAll(s[1..], p);
      assert s == [s[0]] + s[1..];
    }
  }

  /** Filtering an already filtered list with the same predicate changes nothing. */
  lemma {:induction false} FilterIdempotent<T>(s: seq<T>, p: T -> bool)
    ensures Filter(Filter(s, p), p) == Filter(s, p)
  {
    var r := Filter(s, p);
    forall i | 0 <= i < |r| ensures p(r[i]) {
      assert r[i] in r;
    }
    FilterAll(r, p);
  }

  lemma {:induction false} FilterSnoc<T>(s: seq<T>, x: T, p: T -> bool)
    ensures Filter(s + [x], p) == Filter(s, p) + (if p(x) then [x] else [])
    decreases |s|
  {
    if s == [] {
      assert [x][1..] == [];
    } else {
      FilterSnoc(s[1..], x, p);
      assert (s + [x])[0] == s[0];
      assert (s + [x])[1..] == s[1..] + [x];
    }
  }

  /** The indices of the elements satisfying `p`. */
  function IndicesWhere<T>(s: seq<T>, p: T -> bool): set<int> {
    set i | 0 <= i < |s| && p(s[i])
  }

  /** `s.filter(p).length` is the number of positions whose element satisfies `p`. */
  lemma {:induction false} FilterLengthCountsIndices<T>(s: seq<T>, p: T -> bool)
    ensures |Filter(s, p)| == |IndicesWhere(s, p)|
    decreases |s|
  {
    if s != [] {
      var n := |s| - 1;
      var init := s[..n];
      assert s == init + [s[n]];
      FilterSnoc(init, s[n], p);
      FilterLengthCountsIndices(init, p);
      var a := IndicesWhere(init, p);
      assert n !in a;
      if p(s[n]) {
        assert IndicesWhere(s, p) == a + {n};
      } else {
        assert IndicesWhere(s, p) == a;
      }
    }
  }

  /** `s.some(p)`, evaluated front to back. */
  function Any<T>(s: seq<T>, p: T -> bool): bool
    decreases |s|
  {
    s != [] && (p(s[0]) || Any(s[1..], p))
  }

  /** `some` holds exactly when some position's element satisfies `p`. */
  lemma {:induction false} AnyIff<T>(s: seq<T>, p: T -> bool)
    ensures Any(s, p) <==> exists i :: 0 <= i < |s| && p(s[i])
    decreases |s|
  {
    if s != [] {
      AnyIff(s[1..], p);
      if exists i :: 0 <= i < |s| && p(s[i]) {
        var i :| 0 <= i < |s| && p(s[i]);
        if i > 0 {
          assert s[1..][i - 1] == s[i];
        }
      }
      if Any(s[1..], p) {
        var i :| 0 <= i < |s[1..]| && p(s[1..][i]);
        assert s[i + 1] == s[1..][i];
      }
    }
  }

  /** `s.map(f)`. */
  function Map<T, U>(s: seq<T>, f: T -> U): (r: seq<U>)
    ensures |r| == |s|
    ensures forall i :: 0 <= i < |s| ==> r[i] == f(s[i])
  {
    seq(|s|, i requires 0 <= i < |s| => f(s[i]))
  }

  /** Mapping a slice is slicing the mapped list, as in `slice(0, k).map(f)`. */
  lemma MapSlice<T, U>(s: seq<T>, f: T -> U, k: nat)
    requires k <= |s|
    ensures Map(s[..k], f) == Map(s, f)[..k]
  {
  }

  /** A mapped list holds exactly the images of the input's elements. */
  lemma MapMembers<T, U>(s: seq<T>, f: T -> U, y: U)
    ensures y in Map(s, f) <==> exists x :: x in s && f(x) == y
  {
    if y in Map(s, f) {
      var i :| 0 <= i < |s| && Map(s, f)[i] == y;
      assert s[i] in s;
    }
  }

  predicate NoDuplicates<T(==)>(s: seq<T>) {
    forall i, j :: 0 <= i < j < |s| ==> s[i] != s[j]
  }

  /** `[...new Set(s)]`: the distinct elements of `s` in order of first occurrence. */
  function Distinct<T(==)>(s: seq<T>): (r: seq<T>)
    decreases |s|
  {
    if s == [] then []
    else
      var r := Distinct(s[..|s| - 1]);
      if s[|s| - 1] in r then r else r + [s[|s| - 1]]
  }

  /** The position of the first occurrence of `x` in `s`. */
  function FirstIndex<T(==)>(s: seq<T>, x: T): (r: nat)
    requires x in s
    ensures r < |s| && s[r] == x
    ensures forall j :: 0 <= j < r ==> s[j] != x
    decreases |s|
  {
    var init := s[..|s| - 1];
    assert s == init + [s[|s| - 1]];
    if x in init then FirstIndex(init, x) else |s| - 1
  }

  /** Every element of `s` appears in `Distinct(s)` exactly once, nothing else appears, the
      elements keep their relative order in `s`, and they are listed in the order of their
      first occurrences. */
  lemma {:induction false} DistinctSpec<T>(s: seq<T>)
    ensures forall x :: x in Distinct(s) <==> x in s
    ensures NoDuplicates(Distinct(s))
    ensures IsSubsequence(Distinct(s), s)
    ensures forall i, j :: 0 <= i < j < |Distinct(s)| ==>
      FirstIndex(s, Distinct(s)[i]) < FirstIndex(s, Distinct(s)[j])
    decreases |s|
  {
    if s == [] {
    } else {
      var n := |s| - 1;
      var init := s[..n];
      var x := s[n];
      assert s == init + [x];
      DistinctSpec(init);
      var r := Distinct(init);
      if x in r {
        SubsequenceSnocRight(r, init, x);
      } else {
        SubsequenceSnoc(r, init, x);
      }
      var d := Distinct(s);
      forall i, j | 0 <= i < j < |d|
        ensures FirstIndex(s, d[i]) < FirstIndex(s, d[j])
      {
        assert d[i] in r;
        assert FirstIndex(s, d[i]) == FirstIndex(init, d[i]);
        if j < |r| {
          assert FirstIndex(s, d[j]) == FirstIndex(init, d[j]);
        } else {
          assert d[j] == x && x !in init;
        }
      }
    }
  }
}

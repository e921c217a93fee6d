/** The JavaScript array operations the dashboard builds its lists with:
    `Array.prototype.filter`, `Array.prototype.find` and `[...new Set(xs)]`. */
module JsArray {

  import opened Options

  /** `a` is obtained from `b` by deleting elements, the rest kept in order. */
  predicate IsSubsequence<T(==)>(a: seq<T>, b: seq<T>)
    decreases |b|
  {
    a == [] || (b != [] && if a[0] == b[0] then IsSubsequence(a[1..], b[1..]) else IsSubsequence(a, b[1..]))
  }

  predicate NoDuplicates<T(==)>(s: seq<T>) {
    forall i, j :: 0 <= i < j < |s| ==> s[i] != s[j]
  }

  /** `s.filter(keep)`: exactly the elements that pass, each as often as it occurs
      in `s`. */
  function Filter<T(==, !new)>(s: seq<T>, keep: T -> bool): (r: seq<T>)
    ensures |r| <= |s|
    ensures forall x :: x in r <==> x in s && keep(x)
    ensures (forall i :: 0 <= i < |s| ==> keep(s[i])) ==> r == s
  {
    if s == [] then []
    else
      assert s == [s[0]] + s[1..];
      (if keep(s[0]) then [s[0]] else []) + Filter(s[1..], keep)
  }

  /** `filter` keeps every element that passes as often as it occurs, and no other. */
  lemma {:induction false} FilterCount<T(!new)>(s: seq<T>, keep: T -> bool)
    ensures forall x :: multiset(Filter(s, keep))[x] == if keep(x) then multiset(s)[x] else 0
  {
    if s != [] {
      FilterCount(s[1..], keep);
      assert s == [s[0]] + s[1..];
    }
  }

  /** What `filter` keeps stays in its original order. */
  lemma {:induction false} FilterIsSubsequence<T(!new)>(s: seq<T>, keep: T -> bool)
    ensures IsSubsequence(Filter(s, keep), s)
  {
    if s != [] {
      FilterIsSubsequence(s[1..], keep);
      var r := Filter(s, keep);
      if !keep(s[0]) {
        assert r == Filter(s[1..], keep);
        assert r != [] ==> r[0] in r;
      }
    }
  }

  /** Filtering a list without duplicates gives a list without duplicates. */
  lemma FilterKeepsNoDuplicates<T(!new)>(s: seq<T>, keep: T -> bool)
    requires NoDuplicates(s)
    ensures NoDuplicates(Filter(s, keep))
  {
    var r := Filter(s, keep);
    FilterCount(s, keep);
    forall x | x in multiset(r) ensures multiset(r)[x] == 1 {
      CountOfDistinct(s, x);
    }
    forall i, j | 0 <= i < j < |r| ensures r[i] != r[j] {
      if r[i] == r[j] { CountTwo(r, i, j); }
    }
  }

  lemma {:induction false} CountOfDistinct<T>(s: seq<T>, x: T)
    requires NoDuplicates(s)
    ensures multiset(s)[x] <= 1
  {
    if s != [] {
      assert s == [s[0]] + s[1..];
      CountOfDistinct(s[1..], x);
      assert s[0] !in s[1..];
    }
  }

  lemma {:induction false} CountTwo<T>(s: seq<T>, i: nat, j: nat)
    requires i < j < |s| && s[i] == s[j]
    ensures multiset(s)[s[i]] >= 2
  {
    assert s == s[..i] + [s[i]] + s[i + 1..j] + [s[j]] + s[j + 1..];
  }

  /** `s.find(p)`, as a position: the first element that satisfies `p`, or None when
      no element does. */
  function FindIndex<T>(s: seq<T>, p: T -> bool): (r: Option<nat>)
    ensures r.Some? ==> r.value < |s| && p(s[r.value]) && forall j :: 0 <= j < r.value ==> !p(s[j])
    ensures r.None? ==> forall j :: 0 <= j < |s| ==> !p(s[j])
  {
    if s == [] then None
    else if p(s[0]) then Some(0)
    else match FindIndex(s[1..], p)
      case None => None
      case Some(i) => Some(i + 1)
  }

  /** The position of the first occurrence of `x` in `s`. */
  function IndexOf<T(==)>(s: seq<T>, x: T): (i: nat)
    requires x in s
    ensures i < |s| && s[i] == x && x !in s[..i]
  {
    if s[0] == x then 0 else 1 + IndexOf(s[1..], x)
  }

  lemma {:induction false} IndexOfInPrefix<T>(s: seq<T>, y: T, x: T)
    requires x in s
    ensures IndexOf(s + [y], x) == IndexOf(s, x)
  {
    if s[0] != x {
      assert (s + [y])[1..] == s[1..] + [y];
      IndexOfInPrefix(s[1..], y, x);
    }
  }

  /** `[...new Set(s)]`: each element once, in the order of its first occurrence. */
  function Distinct<T(==, !new)>(s: seq<T>): (r: seq<T>)
    ensures forall x :: x in r <==> x in s
    ensures NoDuplicates(r)
    ensures |r| <= |s|
  {
    if s == [] then []
    else
      var rest := Distinct(s[..|s| - 1]);
      assert s == s[..|s| - 1] + [s[|s| - 1]];
      if s[|s| - 1] in rest then rest else rest + [s[|s| - 1]]
  }

  /** The elements `Distinct` keeps appear in the order in which each first occurs
      in `s`. */
  lemma {:induction false} DistinctInFirstOccurrenceOrder<T(!new)>(s: seq<T>)
    ensures forall i, j :: 0 <= i < j < |Distinct(s)| ==>
      IndexOf(s, Distinct(s)[i]) < IndexOf(s, Distinct(s)[j])
  {
    if s != [] {
      var p, y := s[..|s| - 1], s[|s| - 1];
      assert s == p + [y];
      DistinctInFirstOccurrenceOrder(p);
      var rp := Distinct(p);
      var r := Distinct(s);
      forall x | x in p ensures IndexOf(s, x) == IndexOf(p, x) {
        IndexOfInPrefix(p, y, x);
      }
      forall i, j | 0 <= i < j < |r| ensures IndexOf(s, r[i]) < IndexOf(s, r[j]) {
        assert r[i] in rp;
        if j < |rp| {
          assert r[j] == rp[j];
        } else {
          assert r[j] == y && y !in p;
          assert IndexOf(s, y) == |p|;
        }
      }
    }
  }
}

/**
 The orderings used by the resource listing. A Guava `Ordering` is a
 comparator; here it is the relation `lessOrEqual(x, y)`, standing for
 `compare(x, y) <= 0`. The sort that `Collections.sort` performs on the
 listing references is stable, and is modelled by an in-place stable
 insertion sort whose result is the function `StableSort`.
 */
module Ordering {

  /**
   For a comparator that keeps its contract (sign antisymmetry and
   transitivity), the relation `compare(x, y) <= 0` is total and transitive.
   */
  ghost predicate TotalPreorder<T(!new)>(lessOrEqual: (T, T) -> bool) {
    && (forall x, y :: lessOrEqual(x, y) || lessOrEqual(y, x))
    && (forall x, y, z :: lessOrEqual(x, y) && lessOrEqual(y, z) ==> lessOrEqual(x, z))
  }

  /** A "less or equal" relation of a comparator that keeps its contract. */
  type Comparator<!T(!new)> = f: (T, T) -> bool | TotalPreorder(f) witness (x: T, y: T) => true

  ghost predicate SortedBy<T>(lessOrEqual: (T, T) -> bool, s: seq<T>) {
    forall i, j :: 0 <= i < j < |s| ==> lessOrEqual(s[i], s[j])
  }

  /** `x` and `y` compare equal (`compare(x, y) == 0`). */
  predicate Equivalent<T>(lessOrEqual: (T, T) -> bool, x: T, y: T) {
    lessOrEqual(x, y) && lessOrEqual(y, x)
  }

  /** The elements of `s` that compare equal to `x`, in their order in `s`. */
  function EquivalentsOf<T>(lessOrEqual: (T, T) -> bool, x: T, s: seq<T>): (r: seq<T>) {
    if s == [] then []
    else (if Equivalent(lessOrEqual, x, s[0]) then [s[0]] else []) + EquivalentsOf(lessOrEqual, x, s[1..])
  }

  /** A sort is stable when every class of equal elements keeps its input order. */
  ghost predicate StableRearrangement<T(!new)>(lessOrEqual: (T, T) -> bool, s: seq<T>, r: seq<T>) {
    forall x :: EquivalentsOf(lessOrEqual, x, r) == EquivalentsOf(lessOrEqual, x, s)
  }

  /** Inserts `x` into `p` after every element of `p` that is not greater than `x`. */
  function Insert<T>(lessOrEqual: (T, T) -> bool, p: seq<T>, x: T): (r: seq<T>) {
    if p == [] then [x]
    else if lessOrEqual(p[|p| - 1], x) then p + [x]
    else Insert(lessOrEqual, p[..|p| - 1], x) + [p[|p| - 1]]
  }

  /** Insertion sort: the result of a stable sort of `s`. */
  function StableSort<T>(lessOrEqual: (T, T) -> bool, s: seq<T>): (r: seq<T>) {
    if s == [] then []
    else Insert(lessOrEqual, StableSort(lessOrEqual, s[..|s| - 1]), s[|s| - 1])
  }

  lemma {:induction false} InsertPermutation<T>(lessOrEqual: (T, T) -> bool, p: seq<T>, x: T)
    ensures multiset(Insert(lessOrEqual, p, x)) == multiset(p) + multiset{x}
  {
    if p != [] && !lessOrEqual(p[|p| - 1], x) {
      var init, last := p[..|p| - 1], p[|p| - 1];
      InsertPermutation(lessOrEqual, init, x);
      assert p == init + [last];
      calc {
        multiset(Insert(lessOrEqual, p, x));
        multiset(Insert(lessOrEqual, init, x) + [last]);
        multiset(Insert(lessOrEqual, init, x)) + multiset{last};
        multiset(init) + multiset{x} + multiset{last};
        multiset(init + [last]) + multiset{x};
      }
    }
  }

  /** Sorting only rearranges: the result is a permutation of the input. */
  lemma {:induction false} StableSortPermutation<T>(lessOrEqual: (T, T) -> bool, s: seq<T>)
    ensures multiset(StableSort(lessOrEqual, s)) == multiset(s)
  {
    if s != [] {
      var init, last := s[..|s| - 1], s[|s| - 1];
      StableSortPermutation(lessOrEqual, init);
      InsertPermutation(lessOrEqual, StableSort(lessOrEqual, init), last);
      assert s == init + [last];
      calc {
        multiset(StableSort(lessOrEqual, s));
        multiset(Insert(lessOrEqual, StableSort(lessOrEqual, init), last));
        multiset(StableSort(lessOrEqual, init)) + multiset{last};
        multiset(init) + multiset{last};
        multiset(init + [last]);
      }
    }
  }

  lemma {:induction false} InsertSorted<T(!new)>(lessOrEqual: (T, T) -> bool, p: seq<T>, x: T)
    requires TotalPreorder(lessOrEqual)
    requires SortedBy(lessOrEqual, p)
    ensures SortedBy(lessOrEqual, Insert(lessOrEqual, p, x))
  {
    if p == [] {
    } else if lessOrEqual(p[|p| - 1], x) {
      var r := p + [x];
      forall i, j | 0 <= i < j < |r| ensures lessOrEqual(r[i], r[j]) {
        if j == |p| && i < |p| - 1 {
          assert lessOrEqual(p[i], p[|p| - 1]);
        }
      }
    } else {
      var last := p[|p| - 1];
      var q := Insert(lessOrEqual, p[..|p| - 1], x);
      InsertSorted(lessOrEqual, p[..|p| - 1], x);
      InsertPermutation(lessOrEqual, p[..|p| - 1], x);
      assert lessOrEqual(x, last);
      forall k | 0 <= k < |q| ensures lessOrEqual(q[k], last) {
        assert q[k] in multiset(q);
        assert q[k] in multiset(p[..|p| - 1]) || q[k] == x;
        if q[k] != x {
          var i :| 0 <= i < |p| - 1 && p[..|p| - 1][i] == q[k];
          assert lessOrEqual(p[i], last);
        }
      }
      var r := q + [last];
      forall i, j | 0 <= i < j < |r| ensures lessOrEqual(r[i], r[j]) {
        if j == |q| {
          assert r[i] == q[i];
        } else {
          assert r[i] == q[i] && r[j] == q[j];
        }
      }
    }
  }

  /** Under a total preorder the result of the sort is sorted. */
  lemma {:induction false} StableSortSorted<T(!new)>(lessOrEqual: (T, T) -> bool, s: seq<T>)
    requires TotalPreorder(lessOrEqual)
    ensures SortedBy(lessOrEqual, StableSort(lessOrEqual, s))
  {
    if s != [] {
      StableSortSorted(lessOrEqual, s[..|s| - 1]);
      InsertSorted(lessOrEqual, StableSort(lessOrEqual, s[..|s| - 1]), s[|s| - 1]);
    }
  }

  lemma {:induction false} EquivalentsOfAppend<T>(lessOrEqual: (T, T) -> bool, x: T, a: seq<T>, b: seq<T>)
    ensures EquivalentsOf(lessOrEqual, x, a + b) == EquivalentsOf(lessOrEqual, x, a) + EquivalentsOf(lessOrEqual, x, b)
  {
    if a == [] {
      assert a + b == b;
    } else {
      var head := if Equivalent(lessOrEqual, x, a[0]) then [a[0]] else [];
      assert (a + b)[0] == a[0];
      assert (a + b)[1..] == a[1..] + b;
      EquivalentsOfAppend(lessOrEqual, x, a[1..], b);
      calc {
        EquivalentsOf(lessOrEqual, x, a + b);
        head + EquivalentsOf(lessOrEqual, x, a[1..] + b);
        head + (EquivalentsOf(lessOrEqual, x, a[1..]) + EquivalentsOf(lessOrEqual, x, b));
        (head + EquivalentsOf(lessOrEqual, x, a[1..])) + EquivalentsOf(lessOrEqual, x, b);
      }
    }
  }

  lemma {:induction false} InsertStable<T(!new)>(lessOrEqual: (T, T) -> bool, x: T, p: seq<T>, y: T)
    requires TotalPreorder(lessOrEqual)
    ensures EquivalentsOf(lessOrEqual, x, Insert(lessOrEqual, p, y))
         == EquivalentsOf(lessOrEqual, x, p) + EquivalentsOf(lessOrEqual, x, [y])
  {
    if p == [] {
    } else if lessOrEqual(p[|p| - 1], y) {
      EquivalentsOfAppend(lessOrEqual, x, p, [y]);
    } else {
      var init, last := p[..|p| - 1], p[|p| - 1];
      assert p == init + [last];
      InsertStable(lessOrEqual, x, init, y);
      EquivalentsOfAppend(lessOrEqual, x, Insert(lessOrEqual, init, y), [last]);
      EquivalentsOfAppend(lessOrEqual, x, init, [last]);
      // `last` is strictly greater than `y`, so at most one of them is equal to `x`
      assert !(Equivalent(lessOrEqual, x, last) && Equivalent(lessOrEqual, x, y));
    }
  }

  /** The sort is stable: elements that compare equal keep their input order. */
  lemma {:induction false} StableSortStable<T(!new)>(lessOrEqual: (T, T) -> bool, s: seq<T>)
    requires TotalPreorder(lessOrEqual)
    ensures StableRearrangement(lessOrEqual, s, StableSort(lessOrEqual, s))
  {
    forall x ensures EquivalentsOf(lessOrEqual, x, StableSort(lessOrEqual, s)) == EquivalentsOf(lessOrEqual, x, s) {
      StableSortStableAt(lessOrEqual, x, s);
    }
  }

  lemma {:induction false} StableSortStableAt<T(!new)>(lessOrEqual: (T, T) -> bool, x: T, s: seq<T>)
    requires TotalPreorder(lessOrEqual)
    ensures EquivalentsOf(lessOrEqual, x, StableSort(lessOrEqual, s)) == EquivalentsOf(lessOrEqual, x, s)
  {
    if s != [] {
      var init, last := s[..|s| - 1], s[|s| - 1];
      assert s == init + [last];
      StableSortStableAt(lessOrEqual, x, init);
      InsertStable(lessOrEqual, x, StableSort(lessOrEqual, init), last);
      EquivalentsOfAppend(lessOrEqual, x, init, [last]);
    }
  }

  /** Sorting a sequence that is already sorted leaves it as it is. */
  lemma {:induction false} StableSortIdempotent<T>(lessOrEqual: (T, T) -> bool, s: seq<T>)
    requires SortedBy(lessOrEqual, s)
    ensures StableSort(lessOrEqual, s) == s
  {
    if s != [] {
      var init := s[..|s| - 1];
      assert SortedBy(lessOrEqual, init) by {
        forall i, j | 0 <= i < j < |init| ensures lessOrEqual(init[i], init[j]) {
          assert init[i] == s[i] && init[j] == s[j];
        }
      }
      StableSortIdempotent(lessOrEqual, init);
      if |init| > 0 {
        assert lessOrEqual(s[|init| - 1], s[|s| - 1]);
      }
      assert init + [s[|s| - 1]] == s;
    }
  }

  lemma {:induction false} EquivalentsOfHead<T>(lessOrEqual: (T, T) -> bool, x: T, s: seq<T>)
    requires EquivalentsOf(lessOrEqual, x, s) != []
    ensures EquivalentsOf(lessOrEqual, x, s)[0] in s
    ensures Equivalent(lessOrEqual, x, EquivalentsOf(lessOrEqual, x, s)[0])
  {
    if !Equivalent(lessOrEqual, x, s[0]) {
      EquivalentsOfHead(lessOrEqual, x, s[1..]);
    }
  }

  lemma RearrangementNonEmpty<T(!new)>(lessOrEqual: (T, T) -> bool, s: seq<T>, r: seq<T>)
    requires TotalPreorder(lessOrEqual)
    requires StableRearrangement(lessOrEqual, s, r)
    requires r != []
    ensures s != []
  {
    assert EquivalentsOf(lessOrEqual, r[0], r) != [];
  }

  /**
   Two sorted sequences that hold every class of equal elements in the same
   order are the same sequence.
   */
  lemma {:induction false} SortedStableUnique<T(!new)>(lessOrEqual: (T, T) -> bool, r: seq<T>, t: seq<T>)
    requires TotalPreorder(lessOrEqual)
    requires SortedBy(lessOrEqual, r) && SortedBy(lessOrEqual, t)
    requires StableRearrangement(lessOrEqual, t, r)
    ensures r == t
  {
    if r == [] || t == [] {
      if r != [] {
        RearrangementNonEmpty(lessOrEqual, t, r);
      } else if t != [] {
        RearrangementNonEmpty(lessOrEqual, r, t);
      }
    } else {
      var a, b := r[0], t[0];
      // `a` occurs in `t`, so `b <= a`; `b` occurs in `r`, so `a <= b`
      assert EquivalentsOf(lessOrEqual, a, r)[0] == a;
      assert EquivalentsOf(lessOrEqual, a, t) == EquivalentsOf(lessOrEqual, a, r);
      EquivalentsOfHead(lessOrEqual, a, t);
      assert lessOrEqual(b, a);
      assert EquivalentsOf(lessOrEqual, b, t)[0] == b;
      assert EquivalentsOf(lessOrEqual, b, r) == EquivalentsOf(lessOrEqual, b, t);
      EquivalentsOfHead(lessOrEqual, b, r);
      assert lessOrEqual(a, b);
      assert EquivalentsOf(lessOrEqual, a, t)[0] == b;
      assert a == b;
      forall x ensures EquivalentsOf(lessOrEqual, x, r[1..]) == EquivalentsOf(lessOrEqual, x, t[1..]) {
        var head := if Equivalent(lessOrEqual, x, a) then [a] else [];
        assert EquivalentsOf(lessOrEqual, x, r) == head + EquivalentsOf(lessOrEqual, x, r[1..]);
        assert EquivalentsOf(lessOrEqual, x, t) == head + EquivalentsOf(lessOrEqual, x, t[1..]);
        assert EquivalentsOf(lessOrEqual, x, r) == EquivalentsOf(lessOrEqual, x, t);
        assert EquivalentsOf(lessOrEqual, x, r[1..]) == (head + EquivalentsOf(lessOrEqual, x, r[1..]))[|head|..];
        assert EquivalentsOf(lessOrEqual, x, t[1..]) == (head + EquivalentsOf(lessOrEqual, x, t[1..]))[|head|..];
      }
      assert SortedBy(lessOrEqual, r[1..]) by {
        forall i, j | 0 <= i < j < |r[1..]| ensures lessOrEqual(r[1..][i], r[1..][j]) {
          assert r[1..][i] == r[i + 1] && r[1..][j] == r[j + 1];
        }
      }
      assert SortedBy(lessOrEqual, t[1..]) by {
        forall i, j | 0 <= i < j < |t[1..]| ensures lessOrEqual(t[1..][i], t[1..][j]) {
          assert t[1..][i] == t[i + 1] && t[1..][j] == t[j + 1];
        }
      }
      SortedStableUnique(lessOrEqual, r[1..], t[1..]);
      assert r == [a] + r[1..] && t == [b] + t[1..];
    }
  }

  /**
   Under a total preorder, `StableSort` is the only sorted and stable
   rearrangement of its input, so every stable sort (such as the merge sort
   behind `Collections.sort`) computes it.
   */
  lemma StableSortIsTheStableSort<T(!new)>(lessOrEqual: (T, T) -> bool, s: seq<T>, r: seq<T>)
    requires TotalPreorder(lessOrEqual)
    requires SortedBy(lessOrEqual, r)
    requires StableRearrangement(lessOrEqual, s, r)
    ensures r == StableSort(lessOrEqual, s)
  {
    var t := StableSort(lessOrEqual, s);
    StableSortSorted(lessOrEqual, s);
    StableSortStable(lessOrEqual, s);
    SortedStableUnique(lessOrEqual, r, t);
  }

  lemma SwapAdjacent<T>(p: seq<T>, j: nat, x: T, rest: seq<T>)
    requires 0 < j <= |p|
    ensures (p[..j] + [x] + p[j..] + rest)[j - 1 := x][j := p[j - 1]] == p[..j - 1] + [x] + p[j - 1..] + rest
  {
  }

  lemma InsertShift<T>(lessOrEqual: (T, T) -> bool, p: seq<T>, j: nat, x: T)
    requires 0 < j <= |p|
    requires !lessOrEqual(p[j - 1], x)
    ensures Insert(lessOrEqual, p[..j], x) + p[j..] == Insert(lessOrEqual, p[..j - 1], x) + p[j - 1..]
  {
    assert p[..j][..j - 1] == p[..j - 1];
    assert p[j - 1..] == [p[j - 1]] + p[j..];
  }

  lemma InsertStop<T>(lessOrEqual: (T, T) -> bool, p: seq<T>, j: nat, x: T)
    requires j <= |p|
    requires j == 0 || lessOrEqual(p[j - 1], x)
    ensures Insert(lessOrEqual, p[..j], x) + p[j..] == p[..j] + [x] + p[j..]
  {
  }

  /** Moves `a[i]` left past the greater elements of the sorted prefix `a[..i]`. */
  method InsertAt<T>(a: array<T>, i: nat, lessOrEqual: (T, T) -> bool)
    requires i < a.Length
    modifies a
    ensures a[..] == Insert(lessOrEqual, old(a[..i]), old(a[i])) + old(a[i + 1..])
  {
    ghost var p, x, rest := a[..i], a[i], a[i + 1..];
    assert p[..i] == p && p[i..] == [];
    assert a[..] == p + [x] + rest;
    var j := i;
    while j > 0 && !lessOrEqual(a[j - 1], a[j])
      invariant 0 <= j <= i
      invariant a[..] == p[..j] + [x] + p[j..] + rest
      invariant Insert(lessOrEqual, p, x) == Insert(lessOrEqual, p[..j], x) + p[j..]
    {
      ghost var before := a[..];
      assert a[j - 1] == p[j - 1] && a[j] == x;
      InsertShift(lessOrEqual, p, j, x);
      SwapAdjacent(p, j, x, rest);
      a[j - 1], a[j] := a[j], a[j - 1];
      assert a[..] == before[j - 1 := x][j := p[j - 1]];
      j := j - 1;
    }
    assert j > 0 ==> a[j - 1] == p[j - 1] && a[j] == x;
    InsertStop(lessOrEqual, p, j, x);
  }

  lemma StableSortLength<T>(lessOrEqual: (T, T) -> bool, s: seq<T>)
    ensures |StableSort(lessOrEqual, s)| == |s|
  {
    StableSortPermutation(lessOrEqual, s);
    assert |multiset(StableSort(lessOrEqual, s))| == |multiset(s)|;
  }

  lemma StableSortPrefixStep<T>(lessOrEqual: (T, T) -> bool, s: seq<T>, i: nat)
    requires i < |s|
    ensures StableSort(lessOrEqual, s[..i + 1]) == Insert(lessOrEqual, StableSort(lessOrEqual, s[..i]), s[i])
  {
    assert s[..i + 1][..i] == s[..i];
  }

  /** Sorts `a` in place, by stable insertion sort. */
  method SortInPlace<T>(a: array<T>, lessOrEqual: (T, T) -> bool)
    modifies a
    ensures a[..] == StableSort(lessOrEqual, old(a[..]))
  {
    ghost var s := a[..];
    var i := 0;
    while i < a.Length
      invariant 0 <= i <= a.Length
      invariant a[..] == StableSort(lessOrEqual, s[..i]) + s[i..]
    {
      ghost var sorted := StableSort(lessOrEqual, s[..i]);
      StableSortLength(lessOrEqual, s[..i]);
      assert a[..i] == sorted;
      assert a[i] == s[i] && a[i + 1..] == s[i + 1..];
      InsertAt(a, i, lessOrEqual);
      StableSortPrefixStep(lessOrEqual, s, i);
      i := i + 1;
    }
    assert s[..a.Length] == s;
  }
}

/**
 * The stable sort behind Python's `sorted(xs, key=k, reverse=True)` and
 * JavaScript's `Array.prototype.sort(compare)` (stable since ES2019). Both are
 * library calls in the source; here they are one insertion sort over a
 * "comes strictly before" relation `less`, which for a comparator `cmp` is
 * `cmp(a, b) < 0`.
 */
module Sorting {

  /**
   * `less` is irreflexive, transitive and negatively transitive: the relation a
   * consistent comparator or a sort key induces.
   */
  ghost predicate StrictWeakOrder<T(!new)>(less: (T, T) -> bool) {
    && (forall a :: !less(a, a))
    && (forall a, b, c :: less(a, b) && less(b, c) ==> less(a, c))
    && (forall a, b, c :: !less(a, b) && !less(b, c) ==> !less(a, c))
  }

  /** No element comes strictly before an element to its left. */
  ghost predicate SortedBy<T>(s: seq<T>, less: (T, T) -> bool) {
    forall i, j :: 0 <= i < j < |s| ==> !less(s[j], s[i])
  }

  /** No element of `s` comes strictly before `y`. */
  ghost predicate NoneBefore<T>(s: seq<T>, y: T, less: (T, T) -> bool) {
    forall k :: 0 <= k < |s| ==> !less(s[k], y)
  }

  /** `a` and `b` compare equal: neither comes before the other. */
  ghost predicate Tied<T>(a: T, b: T, less: (T, T) -> bool) {
    !less(a, b) && !less(b, a)
  }

  /** The elements of `s` that compare equal to `y`, in their order in `s`. */
  ghost function Peers<T>(s: seq<T>, y: T, less: (T, T) -> bool): seq<T> {
    if s == [] then [] else (if Tied(s[0], y, less) then [s[0]] else []) + Peers(s[1..], y, less)
  }

  /** Inserts `x` in front of the first element that does not come strictly before it. */
  function InsertBy<T>(x: T, s: seq<T>, less: (T, T) -> bool): (r: seq<T>)
    ensures |r| == |s| + 1
  {
    if s == [] || !less(s[0], x) then [x] + s
    else [s[0]] + InsertBy(x, s[1..], less)
  }

  function SortBy<T>(s: seq<T>, less: (T, T) -> bool): (r: seq<T>)
    ensures |r| == |s|
  {
    if s == [] then [] else InsertBy(s[0], SortBy(s[1..], less), less)
  }

  lemma {:induction false} InsertPermutation<T>(x: T, s: seq<T>, less: (T, T) -> bool)
    ensures multiset(InsertBy(x, s, less)) == multiset(s) + multiset{x}
  {
    if s != [] && less(s[0], x) {
      InsertPermutation(x, s[1..], less);
      assert s == [s[0]] + s[1..];
    }
  }

  /** Sorting reorders its input and neither drops nor adds elements. */
  lemma {:induction false} SortPermutation<T>(s: seq<T>, less: (T, T) -> bool)
    ensures multiset(SortBy(s, less)) == multiset(s)
  {
    if s != [] {
      SortPermutation(s[1..], less);
      InsertPermutation(s[0], SortBy(s[1..], less), less);
      assert s == [s[0]] + s[1..];
    }
  }

  lemma SortedCons<T>(h: T, t: seq<T>, less: (T, T) -> bool)
    requires NoneBefore(t, h, less) && SortedBy(t, less)
    ensures SortedBy([h] + t, less)
  {
    var r := [h] + t;
    forall i, j | 0 <= i < j < |r| ensures !less(r[j], r[i]) {
      assert r[j] == t[j - 1];
      if i > 0 {
        assert r[i] == t[i - 1];
      }
    }
  }

  lemma {:induction false} InsertKeepsNoneBefore<T(!new)>(x: T, s: seq<T>, y: T, less: (T, T) -> bool)
    requires !less(x, y) && NoneBefore(s, y, less)
    ensures NoneBefore(InsertBy(x, s, less), y, less)
  {
    if s != [] && less(s[0], x) {
      InsertKeepsNoneBefore(x, s[1..], y, less);
      var t := InsertBy(x, s[1..], less);
      assert InsertBy(x, s, less) == [s[0]] + t;
      assert forall k :: 1 <= k <= |t| ==> ([s[0]] + t)[k] == t[k - 1];
    }
  }

  lemma {:induction false} InsertSorted<T(!new)>(x: T, s: seq<T>, less: (T, T) -> bool)
    requires StrictWeakOrder(less) && SortedBy(s, less)
    ensures SortedBy(InsertBy(x, s, less), less)
  {
    if s == [] || !less(s[0], x) {
      forall k | 0 <= k < |s| ensures !less(s[k], x) {
        if k > 0 {
          assert !less(s[k], s[0]);
        }
      }
      SortedCons(x, s, less);
    } else {
      assert SortedBy(s[1..], less);
      InsertSorted(x, s[1..], less);
      assert !less(x, s[0]);
      InsertKeepsNoneBefore(x, s[1..], s[0], less);
      SortedCons(s[0], InsertBy(x, s[1..], less), less);
    }
  }

  /** The result of sorting is in order: no element comes before one to its left. */
  lemma {:induction false} SortSorted<T(!new)>(s: seq<T>, less: (T, T) -> bool)
    requires StrictWeakOrder(less)
    ensures SortedBy(SortBy(s, less), less)
  {
    if s != [] {
      SortSorted(s[1..], less);
      InsertSorted(s[0], SortBy(s[1..], less), less);
    }
  }

  lemma {:induction false} InsertPeers<T(!new)>(x: T, s: seq<T>, y: T, less: (T, T) -> bool)
    requires StrictWeakOrder(less)
    ensures Peers(InsertBy(x, s, less), y, less)
         == (if Tied(x, y, less) then [x] else []) + Peers(s, y, less)
  {
    var r := InsertBy(x, s, less);
    if s == [] || !less(s[0], x) {
      assert r[0] == x && r[1..] == s;
    } else {
      var t := InsertBy(x, s[1..], less);
      InsertPeers(x, s[1..], y, less);
      assert r[0] == s[0] && r[1..] == t;
      var head := if Tied(s[0], y, less) then [s[0]] else [];
      assert Peers(r, y, less) == head + Peers(t, y, less);
      assert Peers(s, y, less) == head + Peers(s[1..], y, less);
      if Tied(x, y, less) {
        BeforeTied(s[0], x, y, less);
        assert head == [];
      }
    }
  }

  /** Whatever comes strictly before `x` comes strictly before every element tied with `x`. */
  lemma BeforeTied<T(!new)>(a: T, x: T, y: T, less: (T, T) -> bool)
    requires StrictWeakOrder(less) && less(a, x) && Tied(x, y, less)
    ensures less(a, y)
  {
  }

  /**
   * The sort is stable: the elements that compare equal to any `y` keep the
   * order they had in the input.
   */
  lemma {:induction false} SortStable<T(!new)>(s: seq<T>, y: T, less: (T, T) -> bool)
    requires StrictWeakOrder(less)
    ensures Peers(SortBy(s, less), y, less) == Peers(s, y, less)
  {
    if s != [] {
      SortStable(s[1..], y, less);
      InsertPeers(s[0], SortBy(s[1..], less), y, less);
    }
  }

  /** With a comparator that never orders two elements, sorting changes nothing. */
  lemma {:induction false} SortUnordered<T>(s: seq<T>, less: (T, T) -> bool)
    requires forall k :: 0 <= k < |s| ==> forall j :: 0 <= j < |s| ==> !less(s[k], s[j])
    ensures SortBy(s, less) == s
  {
    if s != [] {
      SortUnordered(s[1..], less);
    }
  }
}

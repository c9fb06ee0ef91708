/** `payment_amounts.sort()` (check_today.py): an in-place ascending sort of
    the kept payment amounts, and the sorted list as a value, so that the
    median can be specified as a function of the unsorted amounts. */
module Sorting {

  predicate Sorted(s: seq<int>)
  {
    forall i, j :: 0 <= i < j < |s| ==> s[i] <= s[j]
  }

  /** `x` put into the sorted list `s` in front of the first larger element. */
  function Insert(x: int, s: seq<int>): (r: seq<int>)
    ensures |r| == |s| + 1
  {
    if s == [] || x <= s[0] then [x] + s else [s[0]] + Insert(x, s[1..])
  }

  /** `sorted(xs)`, as an insertion sort. */
  function SortAsc(xs: seq<int>): (r: seq<int>)
    ensures |r| == |xs|
  {
    if xs == [] then [] else Insert(xs[0], SortAsc(xs[1..]))
  }

  lemma {:induction false} InsertPermutes(x: int, s: seq<int>)
    ensures multiset(Insert(x, s)) == multiset(s) + multiset{x}
  {
    if s != [] && x > s[0] {
      InsertPermutes(x, s[1..]);
      assert s == [s[0]] + s[1..];
    }
  }

  /** A lower bound of `x` and of every element of `s` bounds the result. */
  lemma {:induction false} InsertBounded(x: int, s: seq<int>, b: int)
    requires b <= x && forall k | 0 <= k < |s| :: b <= s[k]
    ensures forall k | 0 <= k < |Insert(x, s)| :: b <= Insert(x, s)[k]
  {
    if s != [] && x > s[0] {
      InsertBounded(x, s[1..], b);
    }
  }

  lemma {:induction false} InsertSorted(x: int, s: seq<int>)
    requires Sorted(s)
    ensures Sorted(Insert(x, s))
  {
    if s != [] && x > s[0] {
      InsertSorted(x, s[1..]);
      InsertBounded(x, s[1..], s[0]);
    }
  }

  /** The sorted list is sorted and holds exactly the same amounts. */
  lemma SortAscIsSortedPermutation(xs: seq<int>)
    ensures Sorted(SortAsc(xs))
    ensures multiset(SortAsc(xs)) == multiset(xs)
  {
    SortAscSorted(xs);
    SortAscPermutes(xs);
  }

  lemma {:induction false} SortAscSorted(xs: seq<int>)
    ensures Sorted(SortAsc(xs))
  {
    if xs != [] {
      SortAscSorted(xs[1..]);
      InsertSorted(xs[0], SortAsc(xs[1..]));
    }
  }

  lemma {:induction false} SortAscPermutes(xs: seq<int>)
    ensures multiset(SortAsc(xs)) == multiset(xs)
  {
    if xs != [] {
      SortAscPermutes(xs[1..]);
      InsertPermutes(xs[0], SortAsc(xs[1..]));
      assert xs == [xs[0]] + xs[1..];
    }
  }

  /** The first element of a sorted list is its least. */
  lemma FirstIsLeast(s: seq<int>, v: int)
    requires Sorted(s) && v in multiset(s)
    ensures s[0] <= v
  {
    assert v in s;
  }

  /** A sorted list is determined by its elements: any two sorted
      arrangements of the same amounts are equal. */
  lemma {:induction false} SortedUnique(xs: seq<int>, ys: seq<int>)
    requires Sorted(xs) && Sorted(ys)
    requires multiset(xs) == multiset(ys)
    ensures xs == ys
    decreases |xs|
  {
    assert |xs| == |multiset(xs)| == |multiset(ys)| == |ys|;
    if xs != [] {
      SameLeast(xs, ys);
      DropFirst(xs);
      DropFirst(ys);
      SortedUnique(xs[1..], ys[1..]);
      assert xs == [xs[0]] + xs[1..] && ys == [ys[0]] + ys[1..];
    }
  }

  /** Two sorted arrangements of the same amounts start with the same one. */
  lemma SameLeast(xs: seq<int>, ys: seq<int>)
    requires xs != [] && ys != [] && Sorted(xs) && Sorted(ys)
    requires multiset(xs) == multiset(ys)
    ensures xs[0] == ys[0]
  {
    assert xs[0] in multiset(xs) && ys[0] in multiset(ys);
    FirstIsLeast(ys, xs[0]);
    FirstIsLeast(xs, ys[0]);
  }

  /** Dropping the first element keeps the rest sorted and removes one
      occurrence of it. */
  lemma DropFirst(xs: seq<int>)
    requires xs != [] && Sorted(xs)
    ensures Sorted(xs[1..])
    ensures multiset(xs[1..]) == multiset(xs) - multiset{xs[0]}
  {
    assert xs == [xs[0]] + xs[1..];
  }

  /** `list.sort()` on the amounts, in place: an insertion sort by adjacent
      swaps. */
  method SortInPlace(a: array<int>)
    modifies a
    ensures Sorted(a[..])
    ensures multiset(a[..]) == multiset(old(a[..]))
  {
    if a.Length == 0 {
      return;
    }
    for i := 1 to a.Length
      invariant Sorted(a[..i])
      invariant multiset(a[..]) == multiset(old(a[..]))
    {
      var j := i;
      while j > 0 && a[j - 1] > a[j]
        invariant 0 <= j <= i
        invariant multiset(a[..]) == multiset(old(a[..]))
        invariant forall k, l :: 0 <= k < l <= i && k != j && l != j ==> a[k] <= a[l]
        invariant forall l :: j < l <= i ==> a[j] <= a[l]
      {
        Swap(a, j - 1, j);
        j := j - 1;
      }
    }
  }

  method Swap(a: array<int>, i: int, j: int)
    requires 0 <= i < a.Length && 0 <= j < a.Length
    modifies a
    ensures a[..] == old(a[..])[i := old(a[j])][j := old(a[i])]
    ensures multiset(a[..]) == multiset(old(a[..]))
  {
    a[i], a[j] := a[j], a[i];
  }

  /** The array after the in-place sort is the sorted list. */
  lemma SortInPlaceIsSortAsc(before: seq<int>, after: seq<int>)
    requires Sorted(after) && multiset(after) == multiset(before)
    ensures after == SortAsc(before)
  {
    SortAscIsSortedPermutation(before);
    SortedUnique(after, SortAsc(before));
  }

  /** `xs[len(xs) // 2]` of a sorted list: the upper median. */
  function UpperMedian(sorted: seq<int>): int
    requires sorted != []
  {
    sorted[|sorted| / 2]
  }

  /** The upper median of the sorted amounts is one of the amounts, no
      smaller than the first half of them and no larger than the rest. */
  lemma MedianOfSorted(xs: seq<int>)
    requires xs != []
    ensures var s := SortAsc(xs);
      && UpperMedian(s) in multiset(xs)
      && (forall i | 0 <= i <= |xs| / 2 :: s[i] <= UpperMedian(s))
      && (forall i | |xs| / 2 <= i < |xs| :: UpperMedian(s) <= s[i])
  {
    SortAscIsSortedPermutation(xs);
    MedianSplits(SortAsc(xs));
  }

  lemma MedianSplits(s: seq<int>)
    requires s != [] && Sorted(s)
    ensures UpperMedian(s) in multiset(s)
    ensures forall i | 0 <= i <= |s| / 2 :: s[i] <= UpperMedian(s)
    ensures forall i | |s| / 2 <= i < |s| :: UpperMedian(s) <= s[i]
  {
    var m := |s| / 2;
    assert s[m] in multiset(s);
  }
}

/**
 * The ordering of the generated key lists: a `timeList` orders dates by
 * `Before`, and `sort.Sort` sorts it in place. The model sorts with an
 * insertion sort built on the same `Less` and `Swap`; Go's `sort.Sort` uses
 * pattern-defeating quicksort, which is not modelled, and reaches the same
 * result, since the sorted permutation of a list is unique up to equal keys.
 */
module Sorting {
  import opened Dates

  /** Non-decreasing under `timeList.Less`, which is `Before`. */
  predicate Sorted(s: seq<Date>) {
    forall i, j :: 0 <= i < j < |s| ==> Ordinal(s[i]) <= Ordinal(s[j])
  }

  /** The first `n` elements are non-decreasing. */
  predicate SortedPrefix(s: seq<Date>, n: int)
    requires 0 <= n <= |s|
  {
    forall p, q :: 0 <= p < q < n ==> Ordinal(s[p]) <= Ordinal(s[q])
  }

  /** In place of `sort.Sort` on a `timeList`: the result is sorted and a permutation of the input. */
  method SortDates(a: array<Date>)
    modifies a
    ensures Sorted(a[..])
    ensures multiset(a[..]) == multiset(old(a[..]))
  {
    var i := 0;
    while i < a.Length
      invariant 0 <= i <= a.Length
      invariant SortedPrefix(a[..], i)
      invariant multiset(a[..]) == multiset(old(a[..]))
    {
      InsertAt(a, i);
      i := i + 1;
    }
  }

  /** One insertion step: moves `a[i]` left past every later-dated neighbour, using only `Less` and `Swap`. */
  method InsertAt(a: array<Date>, i: int)
    requires 0 <= i < a.Length
    requires SortedPrefix(a[..], i)
    modifies a
    ensures SortedPrefix(a[..], i + 1)
    ensures multiset(a[..]) == multiset(old(a[..]))
  {
    var j := i;
    InsertingStart(a[..], i);
    while j > 0 && Before(a[j], a[j - 1])
      invariant 0 <= j <= i
      invariant Inserting(a[..], j, i)
      invariant multiset(a[..]) == multiset(old(a[..]))
    {
      SwapDown(a, j, i);
      j := j - 1;
    }
    InsertingDone(a[..], j, i);
  }

  /** One step of the insertion: `a[j]` trades places with its later-dated left neighbour. */
  method SwapDown(a: array<Date>, j: int, i: int)
    requires 0 < j <= i < a.Length && Inserting(a[..], j, i) && Before(a[j], a[j - 1])
    modifies a
    ensures Inserting(a[..], j - 1, i)
    ensures multiset(a[..]) == multiset(old(a[..]))
  {
    InsertingStep(a[..], j, i);
    Swap(a, j - 1, j);
  }

  /**
   * While `s[j]` moves left within `s[..i + 1]`: the other elements are in
   * order, and `s[j]` is no later than anything to its right.
   */
  ghost predicate Inserting(s: seq<Date>, j: int, i: int)
    requires 0 <= j <= i < |s|
  {
    && (forall p, q :: 0 <= p < q <= i && p != j && q != j ==> Ordinal(s[p]) <= Ordinal(s[q]))
    && (forall q :: j < q <= i ==> Ordinal(s[j]) <= Ordinal(s[q]))
  }

  lemma InsertingStart(s: seq<Date>, i: int)
    requires 0 <= i < |s| && SortedPrefix(s, i)
    ensures Inserting(s, i, i)
  {
  }

  lemma InsertingStep(s: seq<Date>, j: int, i: int)
    requires 0 < j <= i < |s| && Inserting(s, j, i) && Before(s[j], s[j - 1])
    ensures Inserting(s[j - 1 := s[j]][j := s[j - 1]], j - 1, i)
  {
  }

  lemma InsertingDone(s: seq<Date>, j: int, i: int)
    requires 0 <= j <= i < |s| && Inserting(s, j, i) && (j == 0 || !Before(s[j], s[j - 1]))
    ensures SortedPrefix(s, i + 1)
  {
    forall p, q | 0 <= p < q <= i ensures Ordinal(s[p]) <= Ordinal(s[q]) {
      if q == j && p < j - 1 {
        assert Ordinal(s[p]) <= Ordinal(s[j - 1]);
      }
    }
  }

  /** `timeList.Swap`. */
  method Swap(a: array<Date>, i: int, j: int)
    requires 0 <= i < a.Length && 0 <= j < a.Length
    modifies a
    ensures a[..] == old(a[..])[i := old(a[j])][j := old(a[i])]
    ensures multiset(a[..]) == multiset(old(a[..]))
  {
    a[i], a[j] := a[j], a[i];
  }

  /** Sorts a list by way of an array, as `sort.Sort` does on the slice's backing array. */
  method SortList(l: seq<Date>) returns (r: seq<Date>)
    ensures Sorted(r)
    ensures multiset(r) == multiset(l)
  {
    if l == [] {
      return [];
    }
    var a := new Date[|l|](i requires 0 <= i < |l| => l[i]);
    assert a[..] == l;
    SortDates(a);
    r := a[..];
  }

  lemma RepeatedMember(s: seq<Date>, i: int, j: int)
    requires 0 <= i < j < |s| && s[i] == s[j]
    ensures multiset(s)[s[i]] >= 2
  {
    assert s == s[..j] + [s[j]] + s[j + 1..];
    assert s[i] in s[..j];
  }

  /** A sorted list holding each key of a set once is strictly ascending and holds exactly that set. */
  lemma SortedKeysAreStrict(s: seq<Date>, keys: set<Date>)
    requires Sorted(s) && multiset(s) == multiset(keys)
    ensures StrictlyAscending(s)
    ensures forall k :: k in s <==> k in keys
  {
    forall i, j | 0 <= i < j < |s| ensures Before(s[i], s[j]) {
      if s[i] == s[j] {
        RepeatedMember(s, i, j);
        assert false;
      }
      if Ordinal(s[i]) == Ordinal(s[j]) {
        OrdinalInjective(s[i], s[j]);
      }
    }
    forall k ensures k in s <==> k in keys {
      assert k in s <==> k in multiset(s);
    }
  }
}

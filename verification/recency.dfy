/**
 * The newest-first ordering both dashboards show issues in: an in-place
 * sort of the freshly read list by descending `reportedAt` milliseconds,
 * the comparison both load functions hand to `Array.prototype.sort`.
 */
module Recency {
  import opened Types

  /** Every issue was reported no earlier than the ones after it. */
  predicate NewestFirst(xs: seq<Issue>) {
    forall i, j :: 0 <= i < j < |xs| ==> xs[i].reportedAt >= xs[j].reportedAt
  }

  /** `view` lists the issues of `xs`, each as often as `xs` does, newest first. */
  predicate ListsNewestFirst(view: seq<Issue>, xs: seq<Issue>) {
    NewestFirst(view) && multiset(view) == multiset(xs)
  }

  /** Exchanges `a[j - 1]` and `a[j]`. */
  method SwapWithPrevious(a: array<Issue>, j: int)
    requires 0 < j < a.Length
    modifies a
    ensures a[j - 1] == old(a[j]) && a[j] == old(a[j - 1])
    ensures forall k :: 0 <= k < a.Length && k != j - 1 && k != j ==> a[k] == old(a[k])
    ensures multiset(a[..]) == old(multiset(a[..]))
  {
    a[j - 1], a[j] := a[j], a[j - 1];
  }

  /** Moves `a[i]` left past the older issues before it, so that `a[..i + 1]` is newest first. */
  method InsertNewest(a: array<Issue>, i: int)
    requires 0 <= i < a.Length
    requires NewestFirst(a[..i])
    modifies a
    ensures NewestFirst(a[..i + 1])
    ensures multiset(a[..]) == old(multiset(a[..]))
  {
    var j := i;
    while 0 < j && a[j - 1].reportedAt < a[j].reportedAt
      invariant 0 <= j <= i
      invariant forall p, q :: 0 <= p < q <= i && p != j && q != j ==> a[p].reportedAt >= a[q].reportedAt
      invariant forall q :: j < q <= i ==> a[j].reportedAt > a[q].reportedAt
      invariant 0 < j < i ==> a[j - 1].reportedAt >= a[j + 1].reportedAt
      invariant multiset(a[..]) == old(multiset(a[..]))
    {
      SwapWithPrevious(a, j);
      j := j - 1;
    }
  }

  /** Sorts `a` in place, newest `reportedAt` first (an insertion sort). */
  method SortNewestFirst(a: array<Issue>)
    modifies a
    ensures NewestFirst(a[..])
    ensures multiset(a[..]) == old(multiset(a[..]))
  {
    var i := 0;
    while i < a.Length
      invariant 0 <= i <= a.Length
      invariant NewestFirst(a[..i])
      invariant multiset(a[..]) == old(multiset(a[..]))
    {
      InsertNewest(a, i);
      i := i + 1;
    }
    assert a[..] == a[..a.Length];
  }

  /** A sorted copy of `xs`: the list the dashboards keep after reading the store. */
  method NewestFirstCopy(xs: seq<Issue>) returns (view: seq<Issue>)
    ensures ListsNewestFirst(view, xs)
  {
    var a := new Issue[|xs|](i requires 0 <= i < |xs| => xs[i]);
    assert a[..] == xs;
    SortNewestFirst(a);
    view := a[..];
  }
}

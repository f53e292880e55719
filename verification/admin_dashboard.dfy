/**
 * The administrator's triage view (website/src/components/AdminDashboard.tsx):
 * every stored issue newest first, a status filter over that list, five
 * counters, a status selector per row and a red shade on open
 * high-priority rows.
 */
module Triage {
  import opened Types
  import opened Lists
  import opened Storage
  import opened Recency

  /** The filter buttons: every issue, or the issues in one status. */
  datatype StatusFilter = All | Only(status: Status)

  /** The five counters shown above the table. */
  datatype Stats = Stats(total: nat, reported: nat, inProgress: nat, resolved: nat, highPriority: nat)

  predicate IsReported(issue: Issue) { issue.status == Reported }
  predicate IsInProgress(issue: Issue) { issue.status == InProgress }
  predicate IsResolved(issue: Issue) { issue.status == Resolved }

  /** What the "High Priority" counter counts: a high-priority issue that is not resolved. */
  predicate CountsAsHighPriority(issue: Issue) {
    issue.priority == High && issue.status != Resolved
  }

  /** The row shade the table gives an issue: red for an open high-priority one, none otherwise. */
  function RowShade(issue: Issue): (c: string)
    ensures c != [] <==> CountsAsHighPriority(issue)
    ensures c == [] || c == "bg-red-50"
  {
    if issue.priority == High && issue.status != Resolved then "bg-red-50" else ""
  }

  /** `filteredIssues`: the loaded list itself, or the issues in the chosen status in the same order. */
  function Visible(issues: seq<Issue>, filter: StatusFilter): (r: seq<Issue>)
    ensures filter.All? ==> r == issues
    ensures filter.Only? ==> forall i :: 0 <= i < |r| ==> r[i].status == filter.status
    ensures filter.Only? ==> forall x :: multiset(r)[x] == if x.status == filter.status then multiset(issues)[x] else 0
    ensures IsSubsequence(r, issues)
  {
    match filter
    case All =>
      SubsequenceReflexive(issues);
      issues
    case Only(s) =>
      FilterIsSubsequence(issues, (x: Issue) => x.status == s);
      Filter(issues, (x: Issue) => x.status == s)
  }

  /** Every issue is in exactly one of the three statuses, so the three status counts add up to the total. */
  lemma {:induction false} StatusPartition(issues: seq<Issue>)
    ensures |Filter(issues, IsReported)| + |Filter(issues, IsInProgress)| + |Filter(issues, IsResolved)| == |issues|
  {
    if issues != [] {
      StatusPartition(issues[1..]);
    }
  }

  /** An issue counted as high priority is reported or in progress. */
  lemma {:induction false} HighPriorityBound(issues: seq<Issue>)
    ensures |Filter(issues, CountsAsHighPriority)| <= |Filter(issues, IsReported)| + |Filter(issues, IsInProgress)|
  {
    if issues != [] {
      HighPriorityBound(issues[1..]);
    }
  }

  /** `stats`: the counters over the whole loaded list, whatever the filter. */
  function ComputeStats(issues: seq<Issue>): (st: Stats)
    ensures st.total == |issues|
    ensures st.total == st.reported + st.inProgress + st.resolved
    ensures st.highPriority <= st.reported + st.inProgress
  {
    StatusPartition(issues);
    HighPriorityBound(issues);
    Stats(|issues|,
          |Filter(issues, IsReported)|,
          |Filter(issues, IsInProgress)|,
          |Filter(issues, IsResolved)|,
          |Filter(issues, CountsAsHighPriority)|)
  }

  /** Each status counter equals the number of rows its filter button shows. */
  lemma StatusCountersMatchFilters(issues: seq<Issue>)
    ensures ComputeStats(issues).total == |Visible(issues, All)|
    ensures ComputeStats(issues).reported == |Visible(issues, Only(Reported))|
    ensures ComputeStats(issues).inProgress == |Visible(issues, Only(InProgress))|
    ensures ComputeStats(issues).resolved == |Visible(issues, Only(Resolved))|
  {
    FilterExtensional(issues, IsReported, (x: Issue) => x.status == Reported);
    FilterExtensional(issues, IsInProgress, (x: Issue) => x.status == InProgress);
    FilterExtensional(issues, IsResolved, (x: Issue) => x.status == Resolved);
  }

  /** With every issue shown, the shaded rows are exactly the ones the high-priority counter counts. */
  lemma HighlightedRowsMatchCounter(issues: seq<Issue>)
    ensures Filter(Visible(issues, All), (x: Issue) => RowShade(x) != []) == Filter(issues, CountsAsHighPriority)
    ensures |Filter(Visible(issues, All), (x: Issue) => RowShade(x) != [])| == ComputeStats(issues).highPriority
  {
    FilterExtensional(issues, (x: Issue) => RowShade(x) != [], CountsAsHighPriority);
  }

  /** The same issues in any order give the same counters. */
  lemma StatsIgnoreOrder(xs: seq<Issue>, ys: seq<Issue>)
    requires multiset(xs) == multiset(ys)
    ensures ComputeStats(xs) == ComputeStats(ys)
  {
    FilterLengthIgnoresOrder(xs, ys, IsReported);
    FilterLengthIgnoresOrder(xs, ys, IsInProgress);
    FilterLengthIgnoresOrder(xs, ys, IsResolved);
    FilterLengthIgnoresOrder(xs, ys, CountsAsHighPriority);
  }

  /**
   * The list `handleStatusChange` leaves in the store when the id is found:
   * the same length, the first record with the id given the new status and
   * the update time, every other record unchanged.
   */
  lemma StatusChangeTouchesOnlyStatus(issues: seq<Issue>, id: string, s: Status, now: Timestamp)
    requires 0 <= FindIndex(issues, id)
    ensures var r := Updated(issues, id, StatusPatch(s), now);
            var k := FindIndex(issues, id);
            && |r| == |issues|
            && r[k] == issues[k].(status := s, updatedAt := now)
            && forall j :: 0 <= j < |issues| && j != k ==> r[j] == issues[j]
  {
    MergeStatusOnly(issues[FindIndex(issues, id)], s, now);
  }

  /** The dashboard's React state over the shared store. */
  class AdminDashboard {
    const store: Store
    /** Every stored issue, newest first. */
    var issues: seq<Issue>
    var filter: StatusFilter

    /** The dashboard as mounted: no filter and the issues loaded. */
    constructor (store: Store)
      ensures this.store == store && filter == All
      ensures ListsNewestFirst(issues, store.Issues())
    {
      this.store := store;
      issues, filter := [], All;
      new;
      LoadIssues();
    }

    /** `loadIssues`: the stored issues, sorted newest first. */
    method LoadIssues()
      modifies this`issues
      ensures ListsNewestFirst(issues, store.Issues())
      ensures ComputeStats(issues) == ComputeStats(store.Issues())
    {
      var all := store.GetIssues();
      issues := NewestFirstCopy(all);
      StatsIgnoreOrder(issues, all);
    }

    /**
     * `handleStatusChange`: the issue's status is updated in the store
     * (nothing is saved when no issue has the id) and the list is reloaded.
     */
    method HandleStatusChange(issueId: string, newStatus: Status, now: Timestamp)
      modifies this`issues, store`backing
      ensures FindIndex(old(store.Issues()), issueId) == -1 ==> store.backing == old(store.backing)
      ensures !store.writable ==> store.backing == old(store.backing)
      ensures 0 <= FindIndex(old(store.Issues()), issueId) && store.writable ==>
        store.Issues() == Updated(old(store.Issues()), issueId, StatusPatch(newStatus), now)
      ensures ListsNewestFirst(issues, store.Issues())
      ensures ComputeStats(issues) == ComputeStats(store.Issues())
    {
      store.UpdateIssue(issueId, StatusPatch(newStatus), now);
      LoadIssues();
    }

    /** A filter button: selects which issues the table shows. */
    method SetFilter(f: StatusFilter)
      modifies this`filter
      ensures filter == f
    {
      filter := f;
    }

    /** The rows the table shows. */
    function FilteredIssues(): seq<Issue>
      reads this
    {
      Visible(issues, filter)
    }

    /** The counters above the table. */
    function CurrentStats(): Stats
      reads this
    {
      ComputeStats(issues)
    }
  }
}

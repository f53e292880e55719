/**
 * The record store (website/src/utils/storage.ts): one ordered list of
 * issues kept under a single key of the browser's local storage.
 *
 * The stored entry is abstract: it is absent, unreadable, or holds a list
 * that reads back as saved. Reading never fails (an absent or unreadable
 * entry reads as the empty list) and a write the storage medium refuses is
 * dropped silently. Every operation reads the whole list, changes its own
 * copy and writes the whole list back.
 */
module Storage {
  import opened Types
  import opened Text
  import opened Lists

  /** The key the list is stored under. */
  const StorageKey := "campus_issues"

  /** What local storage holds under the key. */
  datatype Backing =
    | Absent                       // no entry, or an empty one
    | Unreadable                   // an entry that does not parse as JSON
    | Saved(issues: seq<Issue>)    // an entry written from this list

  /** The list an entry reads back as. */
  function Decode(b: Backing): seq<Issue> {
    if b.Saved? then b.issues else []
  }

  /** A `Partial<Issue>`: each field either given (`Some`) or left out (`None`). */
  datatype IssuePatch = IssuePatch(
    id: Option<string>,
    location: Option<string>,
    category: Option<Category>,
    priority: Option<Priority>,
    description: Option<string>,
    status: Option<Status>,
    reportedBy: Option<string>,
    reportedAt: Option<Timestamp>,
    updatedAt: Option<Timestamp>)

  /** The patch that gives no field. */
  const NoChanges := IssuePatch(None, None, None, None, None, None, None, None, None)

  /** The patch that gives the status alone. */
  function StatusPatch(s: Status): IssuePatch {
    NoChanges.(status := Some(s))
  }

  function Pick<T>(given: Option<T>, kept: T): T {
    if given.Some? then given.value else kept
  }

  /**
   * `{ ...issue, ...patch, updatedAt: now }`: the fields the patch gives
   * replace the old ones, the others are kept, and `updatedAt` is the time
   * of the update whatever the patch says.
   */
  function Merge(issue: Issue, patch: IssuePatch, now: Timestamp): (r: Issue)
    ensures r.updatedAt == now
    ensures patch.id.None? ==> r.id == issue.id
    ensures patch.id.Some? ==> r.id == patch.id.value
    ensures patch.location.None? ==> r.location == issue.location
    ensures patch.location.Some? ==> r.location == patch.location.value
    ensures patch.category.None? ==> r.category == issue.category
    ensures patch.category.Some? ==> r.category == patch.category.value
    ensures patch.priority.None? ==> r.priority == issue.priority
    ensures patch.priority.Some? ==> r.priority == patch.priority.value
    ensures patch.description.None? ==> r.description == issue.description
    ensures patch.description.Some? ==> r.description == patch.description.value
    ensures patch.status.None? ==> r.status == issue.status
    ensures patch.status.Some? ==> r.status == patch.status.value
    ensures patch.reportedBy.None? ==> r.reportedBy == issue.reportedBy
    ensures patch.reportedBy.Some? ==> r.reportedBy == patch.reportedBy.value
    ensures patch.reportedAt.None? ==> r.reportedAt == issue.reportedAt
    ensures patch.reportedAt.Some? ==> r.reportedAt == patch.reportedAt.value
  {
    Issue(
      Pick(patch.id, issue.id),
      Pick(patch.location, issue.location),
      Pick(patch.category, issue.category),
      Pick(patch.priority, issue.priority),
      Pick(patch.description, issue.description),
      Pick(patch.status, issue.status),
      Pick(patch.reportedBy, issue.reportedBy),
      Pick(patch.reportedAt, issue.reportedAt),
      now)
  }

  /** Applying the same patch at the same time twice is the same as once. */
  lemma MergeIdempotent(issue: Issue, patch: IssuePatch, now: Timestamp)
    ensures Merge(Merge(issue, patch, now), patch, now) == Merge(issue, patch, now)
  {
  }

  /** An empty patch only refreshes `updatedAt`. */
  lemma MergeNoChanges(issue: Issue, now: Timestamp)
    ensures Merge(issue, NoChanges, now) == issue.(updatedAt := now)
  {
  }

  /** A status-only patch changes the status and `updatedAt` and nothing else. */
  lemma MergeStatusOnly(issue: Issue, s: Status, now: Timestamp)
    ensures Merge(issue, StatusPatch(s), now) == issue.(status := s, updatedAt := now)
  {
  }

  /** `issues.findIndex(issue => issue.id === id)`: the first index holding `id`, or -1. */
  function FindIndex(issues: seq<Issue>, id: string): (k: int)
    ensures -1 <= k < |issues|
    ensures k == -1 <==> forall j :: 0 <= j < |issues| ==> issues[j].id != id
    ensures 0 <= k ==> issues[k].id == id && forall j :: 0 <= j < k ==> issues[j].id != id
  {
    if issues == [] then -1
    else if issues[0].id == id then 0
    else
      var k := FindIndex(issues[1..], id);
      if k == -1 then -1 else k + 1
  }

  /**
   * The list `updateIssue(id, patch)` writes: the first record with `id`
   * merged with the patch at time `now`, every other record as it was.
   */
  function Updated(issues: seq<Issue>, id: string, patch: IssuePatch, now: Timestamp): (r: seq<Issue>)
    ensures |r| == |issues|
    ensures FindIndex(issues, id) == -1 ==> r == issues
    ensures forall j :: 0 <= j < |issues| && j != FindIndex(issues, id) ==> r[j] == issues[j]
    ensures 0 <= FindIndex(issues, id) ==> r[FindIndex(issues, id)] == Merge(issues[FindIndex(issues, id)], patch, now)
  {
    var k := FindIndex(issues, id);
    if k == -1 then issues else issues[k := Merge(issues[k], patch, now)]
  }

  /** An open issue at the same place, compared case-insensitively, in the same category. */
  predicate IsActiveMatch(issue: Issue, location: string, category: Category) {
    ToLower(issue.location) == ToLower(location) && issue.category == category && issue.status != Resolved
  }

  /** `checkDuplicate` on a given list: some record is an active match. */
  function HasActiveDuplicate(issues: seq<Issue>, location: string, category: Category): (dup: bool)
    ensures dup <==> exists i :: 0 <= i < |issues| && IsActiveMatch(issues[i], location, category)
  {
    if issues == [] then false
    else IsActiveMatch(issues[0], location, category) || HasActiveDuplicate(issues[1..], location, category)
  }

  /**
   * No two open issues share a location (up to case) and a category. The
   * submission form is meant to keep this; nothing else enforces it.
   */
  predicate NoActiveDuplicates(issues: seq<Issue>) {
    forall i, j :: 0 <= i < j < |issues| ==>
      !(issues[i].status != Resolved && IsActiveMatch(issues[j], issues[i].location, issues[i].category))
  }

  /** `getIssuesByUser` on a given list: exactly the records the user reported, in stored order. */
  function IssuesByUser(issues: seq<Issue>, userId: string): (r: seq<Issue>)
    ensures forall i :: 0 <= i < |r| ==> r[i].reportedBy == userId
    ensures forall x :: multiset(r)[x] == if x.reportedBy == userId then multiset(issues)[x] else 0
    ensures IsSubsequence(r, issues)
  {
    FilterIsSubsequence(issues, (x: Issue) => x.reportedBy == userId);
    Filter(issues, (x: Issue) => x.reportedBy == userId)
  }

  /** The `storage` object together with the local-storage entry it owns. */
  class Store {
    /** The entry under `StorageKey`. */
    var backing: Backing
    /** Whether the storage medium accepts writes (a full quota refuses them). */
    var writable: bool

    constructor (backing: Backing, writable: bool)
      ensures this.backing == backing && this.writable == writable
    {
      this.backing := backing;
      this.writable := writable;
    }

    /** The list the store currently reads as. */
    function Issues(): seq<Issue>
      reads this
    {
      Decode(backing)
    }

    /** `getIssues`: never fails; an absent or unreadable entry reads as the empty list. */
    method GetIssues() returns (issues: seq<Issue>)
      ensures issues == Issues()
      ensures backing.Saved? ==> issues == backing.issues
      ensures !backing.Saved? ==> issues == []
    {
      match backing
      case Saved(xs) => issues := xs;
      case _ => issues := [];
    }

    /** `saveIssues`: the entry now reads back as `issues`, unless the write is refused and dropped. */
    method SaveIssues(issues: seq<Issue>)
      modifies this`backing
      ensures writable ==> backing == Saved(issues) && Issues() == issues
      ensures !writable ==> backing == old(backing)
    {
      if writable {
        backing := Saved(issues);
      }
    }

    /** `addIssue`: one record appended at the end, with no check that its id is new. */
    method AddIssue(issue: Issue)
      modifies this`backing
      ensures writable ==> Issues() == old(Issues()) + [issue]
      ensures writable ==> |Issues()| == |old(Issues())| + 1
      ensures writable ==> forall j :: 0 <= j < |old(Issues())| ==> Issues()[j] == old(Issues())[j]
      ensures !writable ==> backing == old(backing)
    {
      var issues := GetIssues();
      issues := issues + [issue];
      SaveIssues(issues);
    }

    /**
     * `updateIssue`: merges the patch into the first record with `id` and
     * saves; an id no record has leaves the entry as it was.
     */
    method UpdateIssue(id: string, patch: IssuePatch, now: Timestamp)
      modifies this`backing
      ensures FindIndex(old(Issues()), id) == -1 ==> backing == old(backing)
      ensures 0 <= FindIndex(old(Issues()), id) && writable ==>
        backing == Saved(Updated(old(Issues()), id, patch, now))
      ensures !writable ==> backing == old(backing)
    {
      var issues := GetIssues();
      var index := FindIndex(issues, id);
      if index != -1 {
        issues := issues[index := Merge(issues[index], patch, now)];
        SaveIssues(issues);
      }
    }

    /** `checkDuplicate`: whether the stored list holds an active match. */
    method CheckDuplicate(location: string, category: Category) returns (dup: bool)
      ensures dup == HasActiveDuplicate(Issues(), location, category)
    {
      var issues := GetIssues();
      dup := HasActiveDuplicate(issues, location, category);
    }

    /** `getIssuesByUser`: the stored records the user reported, in stored order. */
    method GetIssuesByUser(userId: string) returns (issues: seq<Issue>)
      ensures issues == IssuesByUser(Issues(), userId)
    {
      var all := GetIssues();
      issues := IssuesByUser(all, userId);
    }
  }
}

/**
 * The student dashboard (website/src/components/StudentDashboard.tsx): the
 * report form, its submission workflow, the student's own list of issues
 * and the badge colour mappings.
 *
 * The three clock reads of a submission (`Date.now()` for the id and two
 * `new Date()` calls for the time stamps) are parameters, in the order the
 * code performs them.
 */
module Submission {
  import opened Types
  import opened Text
  import opened Storage
  import opened Recency

  /** The alerts the dashboard shows. */
  datatype Notice = MissingFields | DuplicateDetected | ReportedSuccessfully

  datatype AlertType = Success | Error

  function AlertTypeOf(n: Notice): AlertType {
    if n == ReportedSuccessfully then Success else Error
  }

  function MessageOf(n: Notice): string {
    match n
    case MissingFields => "Please fill in all required fields"
    case DuplicateDetected =>
      "\U{26A0}\U{FE0F} Duplicate Detected! An active issue already exists for this Location and Category. Please check existing reports."
    case ReportedSuccessfully => "\U{2713} Issue reported successfully!"
  }

  /** The id a report gets: `issue_` followed by the millisecond clock in decimal. */
  function IssueId(clockMs: nat): (id: string)
    ensures |id| > 6 && id[..6] == "issue_"
    ensures forall i :: 6 <= i < |id| ==> '0' <= id[i] <= '9'
    ensures DigitsValue(id[6..]) == clockMs
    ensures clockMs == 0 || id[6] != '0'
  {
    var digits := Decimal(clockMs);
    assert ("issue_" + digits)[6..] == digits;
    "issue_" + digits
  }

  /** Two reports get the same id exactly when the clock read the same millisecond. */
  lemma IssueIdCollidesOnlyOnSameClock(t1: nat, t2: nat)
    ensures IssueId(t1) == IssueId(t2) <==> t1 == t2
  {
    if IssueId(t1) == IssueId(t2) {
      assert Decimal(t1) == IssueId(t1)[6..] == IssueId(t2)[6..] == Decimal(t2);
      DecimalInjective(t1, t2);
    }
  }

  /** The outcome of `handleSubmit` on the list the store holds. */
  datatype Outcome = Rejected(notice: Notice) | Accepted(issue: Issue)

  /**
   * What `handleSubmit` decides for the form contents: a blank location or
   * description is refused first; then an active match of the location as
   * typed is refused; otherwise a new issue is built.
   */
  function Decide(
    issues: seq<Issue>, location: string, category: Category, priority: Priority,
    description: string, userId: string, idClock: nat, reportedClock: Timestamp, updatedClock: Timestamp): (r: Outcome)
    ensures r.Rejected? ==> r.notice != ReportedSuccessfully
    ensures r.Accepted? ==> r.issue.status == Reported && r.issue.reportedBy == userId
  {
    if Trim(location) == [] || Trim(description) == [] then Rejected(MissingFields)
    else if HasActiveDuplicate(issues, location, category) then Rejected(DuplicateDetected)
    else Accepted(NewIssue(location, category, priority, description, userId, idClock, reportedClock, updatedClock))
  }

  /** The record a submission that passes both checks adds. */
  function NewIssue(
    location: string, category: Category, priority: Priority, description: string,
    userId: string, idClock: nat, reportedClock: Timestamp, updatedClock: Timestamp): (r: Issue)
    ensures r.id == IssueId(idClock) && r.status == Reported && r.reportedBy == userId
    ensures r.location == Trim(location) && r.description == Trim(description)
    ensures r.category == category && r.priority == priority
    ensures r.reportedAt == reportedClock && r.updatedAt == updatedClock
  {
    Issue(IssueId(idClock), Trim(location), category, priority, Trim(description),
          Reported, userId, reportedClock, updatedClock)
  }

  /** The texts a new record stores are already trimmed: trimming them again changes nothing. */
  lemma NewIssueTextsAreTrimmed(
    location: string, category: Category, priority: Priority, description: string,
    userId: string, idClock: nat, reportedClock: Timestamp, updatedClock: Timestamp)
    ensures var r := NewIssue(location, category, priority, description, userId, idClock, reportedClock, updatedClock);
            Trim(r.location) == r.location && Trim(r.description) == r.description
  {
    TrimIdempotent(location);
    TrimIdempotent(description);
  }

  /**
   * The three outcomes of a submission: refused for a blank (all-whitespace)
   * location or description; refused as a duplicate when an open issue
   * matches the location AS TYPED, not trimmed; otherwise accepted as a new
   * `Reported` issue holding the trimmed texts, the chosen category and
   * priority, the user as reporter, the id from the first clock read and the
   * two time stamps from the other two.
   */
  lemma DecideOutcomes(
    issues: seq<Issue>, location: string, category: Category, priority: Priority,
    description: string, userId: string, idClock: nat, reportedClock: Timestamp, updatedClock: Timestamp)
    ensures var r := Decide(issues, location, category, priority, description, userId, idClock, reportedClock, updatedClock);
      && (r == Rejected(MissingFields) <==>
            (forall i :: 0 <= i < |location| ==> IsWhitespace(location[i]))
            || (forall i :: 0 <= i < |description| ==> IsWhitespace(description[i])))
      && (r == Rejected(DuplicateDetected) <==>
            && Trim(location) != [] && Trim(description) != []
            && exists i :: 0 <= i < |issues| && IsActiveMatch(issues[i], location, category))
      && (r.Accepted? <==>
            && Trim(location) != [] && Trim(description) != []
            && !exists i :: 0 <= i < |issues| && IsActiveMatch(issues[i], location, category))
      && (r.Accepted? ==>
            && r.issue.id == IssueId(idClock)
            && r.issue.location == Trim(location) && r.issue.location != []
            && r.issue.description == Trim(description) && r.issue.description != []
            && r.issue.category == category && r.issue.priority == priority
            && r.issue.status == Reported && r.issue.reportedBy == userId
            && r.issue.reportedAt == reportedClock && r.issue.updatedAt == updatedClock)
  {
  }

  /**
   * A location typed without surrounding whitespace keeps the list free of
   * active duplicates: the check and the stored record then use the same text.
   */
  lemma {:induction false} UnpaddedSubmissionKeepsNoActiveDuplicates(
    issues: seq<Issue>, location: string, category: Category, priority: Priority,
    description: string, userId: string, idClock: nat, reportedClock: Timestamp, updatedClock: Timestamp)
    requires NoActiveDuplicates(issues)
    requires Trim(location) == location
    requires Decide(issues, location, category, priority, description, userId, idClock, reportedClock, updatedClock).Accepted?
    ensures NoActiveDuplicates(issues + [Decide(issues, location, category, priority, description,
                                                userId, idClock, reportedClock, updatedClock).issue])
  {
    var n := Decide(issues, location, category, priority, description, userId, idClock, reportedClock, updatedClock).issue;
    var all := issues + [n];
    assert !HasActiveDuplicate(issues, location, category);
    forall i, j | 0 <= i < j < |all|
      ensures !(all[i].status != Resolved && IsActiveMatch(all[j], all[i].location, all[i].category))
    {
      if j == |issues| {
        assert all[j] == n && all[i] == issues[i];
        assert !IsActiveMatch(issues[i], location, category);
      } else {
        assert all[i] == issues[i] && all[j] == issues[j];
      }
    }
  }

  /** With both fields filled in, a single stored issue decides the outcome by whether it is an active match. */
  lemma SingleStoredIssueDecides(
    stored: Issue, location: string, category: Category, priority: Priority,
    description: string, userId: string, idClock: nat, reportedClock: Timestamp, updatedClock: Timestamp)
    requires Trim(location) != [] && Trim(description) != []
    ensures var r := Decide([stored], location, category, priority, description, userId, idClock, reportedClock, updatedClock);
            (r == Rejected(DuplicateDetected) <==> IsActiveMatch(stored, location, category))
            && (r.Accepted? <==> !IsActiveMatch(stored, location, category))
  {
    assert HasActiveDuplicate([stored], location, category) == IsActiveMatch(stored, location, category);
  }

  /**
   * The duplicate check sees the location as typed, the record stores it
   * trimmed: when an open issue matches the trimmed location but not the
   * padded one, the report is accepted and the list then holds two open
   * issues for one place and category.
   */
  lemma PaddedLocationSlipsPastDuplicateCheck(
    stored: Issue, location: string, category: Category, priority: Priority,
    description: string, userId: string, idClock: nat, reportedClock: Timestamp, updatedClock: Timestamp)
    requires stored.status != Resolved && stored.category == category
    requires ToLower(stored.location) != ToLower(location)
    requires ToLower(stored.location) == ToLower(Trim(location))
    requires Trim(location) != [] && Trim(description) != []
    ensures var r := Decide([stored], location, category, priority, description, userId, idClock, reportedClock, updatedClock);
            && NoActiveDuplicates([stored])
            && r.Accepted?
            && !NoActiveDuplicates([stored, r.issue])
  {
    SingleStoredIssueDecides(stored, location, category, priority, description, userId, idClock, reportedClock, updatedClock);
    var r := Decide([stored], location, category, priority, description, userId, idClock, reportedClock, updatedClock);
    assert r.issue == NewIssue(location, category, priority, description, userId, idClock, reportedClock, updatedClock);
    var both := [stored, r.issue];
    assert both[0].status != Resolved && IsActiveMatch(both[1], both[0].location, both[0].category);
  }

  /** "Room 1 " trims to "Room 1". */
  lemma PaddedRoomTrims()
    ensures Trim("Room 1 ") == "Room 1"
  {
    var s := "Room 1 ";
    assert !IsWhitespace(s[0]) && TrimStart(s) == s;
    assert IsWhitespace(s[|s| - 1]) && s[..|s| - 1] == "Room 1";
    assert TrimEnd("Room 1") == "Room 1";
  }

  /** "Room 1" matches "room 1" up to case, while "Room 1 " does not. */
  lemma PaddedRoomCase()
    ensures ToLower("Room 1") == ToLower("room 1") && ToLower("Room 1 ") != ToLower("room 1")
  {
    assert |ToLower("Room 1 ")| != |ToLower("room 1")|;
  }

  /** "Broken tap" has no whitespace at its ends, so trimming keeps it. */
  lemma BrokenTapIsTrimmed()
    ensures Trim("Broken tap") == "Broken tap"
  {
    var d := "Broken tap";
    assert !IsWhitespace(d[0]) && !IsWhitespace(d[|d| - 1]);
  }

  /** An open "room 1" maintenance issue does not stop a maintenance report at "Room 1 ". */
  lemma PaddedRoomExample(idClock: nat, reportedClock: Timestamp, updatedClock: Timestamp)
    ensures var stored := Issue("issue_1", "room 1", Maintenance, Medium, "Broken tap", Reported, "s1", 1, 1);
            var r := Decide([stored], "Room 1 ", Maintenance, High, "Broken tap", "s2", idClock, reportedClock, updatedClock);
            r.Accepted? && !NoActiveDuplicates([stored, r.issue])
  {
    var stored := Issue("issue_1", "room 1", Maintenance, Medium, "Broken tap", Reported, "s1", 1, 1);
    PaddedRoomTrims();
    assert Trim("Room 1 ") == "Room 1" && Trim("Room 1 ") != [];
    PaddedRoomCase();
    BrokenTapIsTrimmed();
    PaddedLocationSlipsPastDuplicateCheck(stored, "Room 1 ", Maintenance, High, "Broken tap", "s2", idClock, reportedClock, updatedClock);
  }

  /** Locations differing only in letter case are duplicates: "ROOM 1" is caught while "Room 1" is open. */
  lemma CaseDifferentLocationIsCaught()
    ensures var stored := Issue("issue_1", "Room 1", Maintenance, Medium, "Broken tap", Reported, "s1", 1, 1);
            HasActiveDuplicate([stored], "ROOM 1", Maintenance)
  {
    var stored := Issue("issue_1", "Room 1", Maintenance, Medium, "Broken tap", Reported, "s1", 1, 1);
    assert ToLower("ROOM 1") == ToLower("Room 1");
    assert IsActiveMatch(stored, "ROOM 1", Maintenance);
  }

  /** Once the matching issue is resolved, "ROOM 1" no longer counts as a duplicate of it. */
  lemma ResolvedIssueIsNotCaught()
    ensures var stored := Issue("issue_1", "Room 1", Maintenance, Medium, "Broken tap", Resolved, "s1", 1, 5);
            !HasActiveDuplicate([stored], "ROOM 1", Maintenance)
  {
    var stored := Issue("issue_1", "Room 1", Maintenance, Medium, "Broken tap", Resolved, "s1", 1, 5);
    assert !IsActiveMatch(stored, "ROOM 1", Maintenance);
  }

  const Gray := "bg-gray-100 text-gray-800"

  /** `getStatusColor`: the badge class for a status text; unknown texts are gray. */
  function StatusColor(status: string): (c: string)
    ensures c == Gray <==> ParseStatus(status).None?
  {
    if status == "Reported" then "bg-yellow-100 text-yellow-800"
    else if status == "In Progress" then "bg-blue-100 text-blue-800"
    else if status == "Resolved" then "bg-green-100 text-green-800"
    else Gray
  }

  /** `getPriorityColor`: the badge class for a priority text; `Low` and unknown texts are gray. */
  function PriorityColor(priority: string): (c: string)
    ensures c == Gray <==> ParsePriority(priority) != Some(High) && ParsePriority(priority) != Some(Medium)
  {
    if priority == "High" then "bg-red-100 text-red-800"
    else if priority == "Medium" then "bg-orange-100 text-orange-800"
    else if priority == "Low" then Gray
    else Gray
  }

  /** The three status badges differ from one another. */
  lemma StatusColorsDistinct(s: Status, t: Status)
    ensures StatusColor(StatusName(s)) == StatusColor(StatusName(t)) <==> s == t
  {
  }

  datatype Icon = AlertCircle | Clock | CheckCircle2

  /** `getStatusIcon`: an icon for each status text, none for an unknown text. */
  function StatusIcon(status: string): (icon: Option<Icon>)
    ensures icon.None? <==> ParseStatus(status).None?
  {
    if status == "Reported" then Some(AlertCircle)
    else if status == "In Progress" then Some(Clock)
    else if status == "Resolved" then Some(CheckCircle2)
    else None
  }

  /** The dashboard's state: the form fields, the student's list and the alert on show. */
  class StudentDashboard {
    const store: Store
    const user: User
    var location: string
    var category: Category
    var priority: Priority
    var description: string
    var myIssues: seq<Issue>
    var alert: Option<Notice>

    /** The dashboard as mounted: an empty form and the student's issues loaded. */
    constructor (store: Store, user: User)
      ensures this.store == store && this.user == user
      ensures location == [] && category == Maintenance && priority == Medium && description == []
      ensures alert == None
      ensures ListsNewestFirst(myIssues, IssuesByUser(store.Issues(), user.id))
    {
      this.store := store;
      this.user := user;
      location, category, priority, description := "", Maintenance, Medium, "";
      myIssues, alert := [], None;
      new;
      LoadMyIssues();
    }

    /** `loadMyIssues`: the student's own issues, newest first. */
    method LoadMyIssues()
      modifies this`myIssues
      ensures ListsNewestFirst(myIssues, IssuesByUser(store.Issues(), user.id))
      ensures forall i :: 0 <= i < |myIssues| ==> myIssues[i].reportedBy == user.id
    {
      var mine := store.GetIssuesByUser(user.id);
      myIssues := NewestFirstCopy(mine);
      forall i | 0 <= i < |myIssues|
        ensures myIssues[i].reportedBy == user.id
      {
        assert myIssues[i] in multiset(mine);
      }
    }

    /**
     * The accepted branch of `handleSubmit`: the issue appended, the success
     * alert, the form reset to its defaults and the list reloaded.
     */
    method Accept(issue: Issue)
      modifies this, store`backing
      ensures store.writable ==> store.Issues() == old(store.Issues()) + [issue]
      ensures !store.writable ==> store.backing == old(store.backing)
      ensures alert == Some(ReportedSuccessfully)
      ensures location == [] && category == Maintenance && priority == Medium && description == []
      ensures ListsNewestFirst(myIssues, IssuesByUser(store.Issues(), user.id))
    {
      store.AddIssue(issue);
      alert := Some(ReportedSuccessfully);
      location, category, priority, description := "", Maintenance, Medium, "";
      LoadMyIssues();
    }

    /**
     * `handleSubmit`: validates, checks for an active duplicate, then appends
     * the new issue, reports success, resets the form and reloads the list.
     * A refused submission changes nothing but the alert.
     */
    method HandleSubmit(idClock: nat, reportedClock: Timestamp, updatedClock: Timestamp)
      modifies this, store`backing
      ensures var d := Decide(old(store.Issues()), old(location), old(category), old(priority),
                              old(description), user.id, idClock, reportedClock, updatedClock);
        && (d.Rejected? ==>
             && store.backing == old(store.backing)
             && alert == Some(d.notice)
             && location == old(location) && category == old(category)
             && priority == old(priority) && description == old(description)
             && myIssues == old(myIssues))
        && (d.Accepted? ==>
             && (store.writable ==> store.Issues() == old(store.Issues()) + [d.issue])
             && (!store.writable ==> store.backing == old(store.backing))
             && alert == Some(ReportedSuccessfully)
             && location == [] && category == Maintenance && priority == Medium && description == []
             && ListsNewestFirst(myIssues, IssuesByUser(store.Issues(), user.id)))
    {
      ghost var d := Decide(store.Issues(), location, category, priority, description,
                            user.id, idClock, reportedClock, updatedClock);
      if Trim(location) == [] || Trim(description) == [] {
        alert := Some(MissingFields);
        assert d == Rejected(MissingFields);
        return;
      }
      ghost var dup := HasActiveDuplicate(store.Issues(), location, category);
      ghost var issue := NewIssue(location, category, priority, description,
                                  user.id, idClock, reportedClock, updatedClock);
      assert d == if dup then Rejected(DuplicateDetected) else Accepted(issue);
      SubmitFilledForm(idClock, reportedClock, updatedClock);
    }

    /** `handleSubmit` once both required fields are filled in: the duplicate check, then the report. */
    method SubmitFilledForm(idClock: nat, reportedClock: Timestamp, updatedClock: Timestamp)
      modifies this, store`backing
      ensures HasActiveDuplicate(old(store.Issues()), old(location), old(category)) ==>
        && store.backing == old(store.backing)
        && alert == Some(DuplicateDetected)
        && location == old(location) && category == old(category)
        && priority == old(priority) && description == old(description)
        && myIssues == old(myIssues)
      ensures !HasActiveDuplicate(old(store.Issues()), old(location), old(category)) ==>
        var issue := NewIssue(old(location), old(category), old(priority), old(description),
                              user.id, idClock, reportedClock, updatedClock);
        && (store.writable ==> store.Issues() == old(store.Issues()) + [issue])
        && (!store.writable ==> store.backing == old(store.backing))
        && alert == Some(ReportedSuccessfully)
        && location == [] && category == Maintenance && priority == Medium && description == []
        && ListsNewestFirst(myIssues, IssuesByUser(store.Issues(), user.id))
    {
      var duplicate := store.CheckDuplicate(location, category);
      if duplicate {
        alert := Some(DuplicateDetected);
        return;
      }
      var newIssue := NewIssue(location, category, priority, description,
                               user.id, idClock, reportedClock, updatedClock);
      Accept(newIssue);
    }
  }
}

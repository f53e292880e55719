# Campus issue tracker: record store, submission and triage

This project models the core of a small campus issue-reporting web
application written in TypeScript and React. Students report facility
issues, and administrators move them through `Reported`, `In Progress` and
`Resolved`. All issues live in one ordered list, which is kept under the key
`campus_issues` of the browser's local storage.

The model has seven modules:

- `Types` (`types.dfy`) holds the records and enumerations of
  `website/src/types.ts`, plus the status and priority literals and their
  parsers.
- `Text` (`text.dfy`) holds the string operations the code relies on:
  `trim` over the ECMAScript whitespace set, `toLowerCase` on ASCII letters,
  and the decimal rendering of a millisecond clock.
- `Lists` (`lists.dfy`) holds `Array.prototype.filter` and what it promises:
  the kept elements, their multiplicities and their order.
- `Storage` (`storage.dfy`) is the record store of
  `website/src/utils/storage.ts`:
  - a `Store` class whose `backing` field is the local-storage entry, which is
    absent, unreadable, or a saved list;
  - a `writable` flag, because the code silently drops a write that the
    storage refuses;
  - the read, save, append, update-by-id, duplicate-test and by-owner
    operations;
  - the pure functions that specify those operations.
- `Recency` (`recency.dfy`) is the newest-first sort both dashboards apply
  to a freshly read list. It is an in-place insertion sort on an array,
  proved to yield a permutation ordered by descending `reportedAt`.
- `Submission` (`submission.dfy`) is the student dashboard:
  - the `StudentDashboard` class, whose fields are the component's state: the
    form, the student's list and the alert;
  - `HandleSubmit`, the submission workflow;
  - the function `Decide`, which specifies that workflow, and the lemmas
    about it;
  - the badge colour and icon mappings.
- `Triage` (`admin_dashboard.dfy`) is the administrator dashboard: the
  `AdminDashboard` class with loading, status change and the filter; the
  filtered view; the five counters; and the row shade.

Time stamps are modelled as integer milliseconds, which is what
`new Date(t).getTime()` yields for the ISO strings the code stores. Every
clock read becomes a parameter of the operation that performs it. A
submission reads the clock three times: once for the id and once for each
time stamp. These three reads are separate parameters, so the model does not
assume that `reportedAt == updatedAt`.

Three rules the application is meant to keep are not enforced by the code;
the model follows the code:

- **Ids are meant to be unique.** The code builds them as
  `issue_<Date.now()>` and appends without checking. `IssueIdCollidesOnlyOnSameClock`
  shows that two reports in the same millisecond share an id.
  `Store.AddIssue` appends whatever it is given.
- **No two open issues are meant to share a location and a category.** The
  code tests the location as typed but stores it trimmed.
  `PaddedLocationSlipsPastDuplicateCheck` shows that a padded location lets a
  second open issue in. `UnpaddedSubmissionKeepsNoActiveDuplicates` shows
  that the rule holds when the location has no surrounding whitespace.
- **A new record is meant to carry equal time stamps.** The code reads the
  clock twice.

The success alert is also shown when the storage drops the write.

## Model

| member | source | states |
|---|---|---|
| Types.ParseStatus | website/src/types.ts:3 | a text parses to a status only if it is that status's literal |
| Types.StatusNameRoundTrip | website/src/types.ts:3 | every status literal parses back to its status |
| Types.ParsePriority | website/src/types.ts:5 | a text parses to a priority only if it is that priority's literal |
| Types.PriorityNameRoundTrip | website/src/types.ts:5 | every priority literal parses back to its priority |
| Text.TrimStart | website/src/components/StudentDashboard.tsx:32 | the result is a suffix of the input; everything removed is whitespace; the result does not start with whitespace |
| Text.TrimEnd | website/src/components/StudentDashboard.tsx:32 | the result is a prefix of the input; everything removed is whitespace; the result does not end with whitespace |
| Text.Trim | website/src/components/StudentDashboard.tsx:32 | the trimmed text is empty exactly when every character is whitespace; a non-empty result has no whitespace at either end; a text without whitespace at its ends is kept |
| Text.TrimIsMiddleOfString | website/src/components/StudentDashboard.tsx:32 | the trimmed text is the part of the input that starts at its first non-whitespace character, with only whitespace before it and after it |
| Text.SuffixThenPrefix | website/src/components/StudentDashboard.tsx:32 | a prefix of a suffix of a text is a slice of it, and whitespace the prefix drops is whitespace at the end of the text |
| Text.TrimIdempotent | website/src/components/StudentDashboard.tsx:44 | trimming a trimmed text changes nothing |
| Text.ToLower | website/src/utils/storage.ts:43 | the result has the same length, and every character is lower-cased on its own |
| Text.ToLowerIdempotent | website/src/utils/storage.ts:43 | lower-casing twice equals lower-casing once |
| Text.Decimal | website/src/components/StudentDashboard.tsx:43 | a non-empty string of decimal digits that denotes the number, with no leading zero except for zero itself |
| Text.DecimalInjective | website/src/components/StudentDashboard.tsx:43 | distinct clock values render as distinct digit strings |
| Submission.IssueId | website/src/components/StudentDashboard.tsx:43 | the id is `issue_` followed by decimal digits that denote the clock reading, with no leading zero except for a zero clock |
| Lists.Filter | website/src/utils/storage.ts:51 | every kept element passes the test; each element occurs as often as in the input if it passes, otherwise not at all |
| Lists.FilterIsSubsequence | website/src/utils/storage.ts:51 | filtering keeps the relative order of the elements it keeps |
| Lists.FilterExtensional | website/src/components/AdminDashboard.tsx:182 | two tests that agree on every element select the same list |
| Lists.FilterLengthIgnoresOrder | website/src/components/AdminDashboard.tsx:28-34 | how many elements pass a test does not depend on their order |
| Storage.Merge | website/src/utils/storage.ts:34 | each field the patch gives takes the patch's value; each field it omits keeps its old value; `updatedAt` is the update time even when the patch gives one |
| Storage.MergeIdempotent | website/src/utils/storage.ts:34 | applying the same patch twice at the same time equals applying it once |
| Storage.MergeNoChanges | website/src/utils/storage.ts:34 | an empty patch only refreshes `updatedAt` |
| Storage.MergeStatusOnly | website/src/components/AdminDashboard.tsx:22 | a status-only patch changes the status and `updatedAt` and nothing else |
| Storage.FindIndex | website/src/utils/storage.ts:32 | the result is the first index holding the id, or -1 exactly when no record has it |
| Storage.Updated | website/src/utils/storage.ts:30-37 | the length is kept; a missing id leaves the list unchanged; only the first matching record is replaced, by its merge; every other index is unchanged |
| Storage.HasActiveDuplicate | website/src/utils/storage.ts:39-47 | true exactly when some record has an equal lower-cased location, the same category and a status other than `Resolved` |
| Storage.IssuesByUser | website/src/utils/storage.ts:49-52 | exactly the records the user reported, each as often as stored, in stored order |
| Storage.Store.GetIssues | website/src/utils/storage.ts:6-14 | never fails: a saved entry reads back as its list; an absent or unreadable entry reads as the empty list |
| Storage.Store.SaveIssues | website/src/utils/storage.ts:16-22 | a writable store then reads back as the given list; a refused write leaves the entry unchanged |
| Storage.Store.AddIssue | website/src/utils/storage.ts:24-28 | the old list with exactly the given record appended, with no check on its id; earlier records unchanged; a refused write changes nothing |
| Storage.Store.UpdateIssue | website/src/utils/storage.ts:30-37 | an unknown id saves nothing; otherwise the stored list becomes `Updated` of the old one |
| Storage.Store.CheckDuplicate | website/src/utils/storage.ts:39-47 | the answer is `HasActiveDuplicate` of the stored list |
| Storage.Store.GetIssuesByUser | website/src/utils/storage.ts:49-52 | the answer is `IssuesByUser` of the stored list |
| Recency.InsertNewest | website/src/components/AdminDashboard.tsx:18 | with a newest-first prefix, moving the next issue into place extends the newest-first prefix by one and keeps the same issues |
| Recency.SortNewestFirst | website/src/components/AdminDashboard.tsx:18 | the array ends newest first and is a permutation of what it held |
| Recency.NewestFirstCopy | website/src/components/AdminDashboard.tsx:17-18 | the result holds exactly the given issues, newest `reportedAt` first |
| Submission.IssueIdCollidesOnlyOnSameClock | website/src/components/StudentDashboard.tsx:43 | two generated ids are equal exactly when the clock read the same millisecond |
| Submission.Decide | website/src/components/StudentDashboard.tsx:32-52 | a refusal never carries the success notice; an accepted issue is `Reported` and reported by the user; its full contract is `DecideOutcomes` |
| Submission.NewIssue | website/src/components/StudentDashboard.tsx:42-52 | the new record has the generated id, status `Reported`, the user as reporter, the trimmed location and description, the chosen category and priority, and the two clock reads |
| Submission.NewIssueTextsAreTrimmed | website/src/components/StudentDashboard.tsx:44-47 | the location and description the new record stores are already trimmed |
| Submission.DecideOutcomes | website/src/components/StudentDashboard.tsx:29-54 | refused for missing fields exactly when the location or the description is all whitespace; refused as a duplicate exactly when both are filled in and an open issue matches the untrimmed location; accepted exactly when both are filled in and no open issue matches; an accepted issue is a `Reported` issue with the trimmed texts, the chosen category and priority, the user as reporter, the generated id and the two clock reads |
| Submission.UnpaddedSubmissionKeepsNoActiveDuplicates | website/src/components/StudentDashboard.tsx:37-44 | a location without surrounding whitespace that is accepted keeps the list free of two open issues for one place and category |
| Submission.SingleStoredIssueDecides | website/src/components/StudentDashboard.tsx:37-40 | with one stored issue and both fields filled in, the report is refused as a duplicate exactly when that issue is an active match, otherwise accepted |
| Submission.PaddedLocationSlipsPastDuplicateCheck | website/src/components/StudentDashboard.tsx:37-44 | when an open issue matches the trimmed location but not the location as typed, the report is accepted and the list then holds two open issues for one place and category |
| Submission.PaddedRoomExample | website/src/components/StudentDashboard.tsx:37-44 | "Room 1 " is accepted while "room 1" is open in the same category, and the resulting list breaks the no-duplicate rule |
| Submission.CaseDifferentLocationIsCaught | website/src/utils/storage.ts:43 | "ROOM 1" is a duplicate of an open "Room 1" in the same category |
| Submission.ResolvedIssueIsNotCaught | website/src/utils/storage.ts:45 | a resolved issue does not count as a duplicate |
| Submission.StatusColor | website/src/components/StudentDashboard.tsx:84-95 | total; gray exactly for a text that names no status |
| Submission.StatusColorsDistinct | website/src/components/StudentDashboard.tsx:84-95 | the three statuses get three different badge classes |
| Submission.PriorityColor | website/src/components/StudentDashboard.tsx:97-108 | total; gray exactly for a text that is neither `High` nor `Medium` |
| Submission.StatusIcon | website/src/components/StudentDashboard.tsx:71-82 | no icon exactly for a text that names no status |
| Submission.StudentDashboard.constructor | website/src/components/StudentDashboard.tsx:9-20 | an empty form with category `Maintenance` and priority `Medium`, no alert, and the student's issues loaded newest first |
| Submission.StudentDashboard.LoadMyIssues | website/src/components/StudentDashboard.tsx:22-27 | the list holds exactly the student's own stored issues, newest first |
| Submission.StudentDashboard.Accept | website/src/components/StudentDashboard.tsx:54-61 | the issue is appended when the store is writable; the success alert is shown; the form is reset to its defaults; the list is reloaded |
| Submission.StudentDashboard.HandleSubmit | website/src/components/StudentDashboard.tsx:29-62 | a refusal changes only the alert, to the notice `Decide` gives; an acceptance appends `Decide`'s issue when the store is writable, shows success, resets the form and reloads the student's list |
| Submission.StudentDashboard.SubmitFilledForm | website/src/components/StudentDashboard.tsx:37-61 | an active duplicate leaves store, form and list unchanged with the duplicate alert; otherwise the new issue is appended when writable, success is shown, the form reset and the list reloaded |
| Triage.RowShade | website/src/components/AdminDashboard.tsx:182 | a row is shaded exactly when the high-priority counter counts its issue |
| Triage.Visible | website/src/components/AdminDashboard.tsx:26 | with no filter, the loaded list itself; with a status filter, exactly the issues in that status, each as often as loaded, in loaded order |
| Triage.StatusPartition | website/src/components/AdminDashboard.tsx:28-32 | the three status counts add up to the number of issues |
| Triage.HighPriorityBound | website/src/components/AdminDashboard.tsx:33 | the high-priority count is at most the reported plus in-progress counts |
| Triage.ComputeStats | website/src/components/AdminDashboard.tsx:28-34 | the total is the number of issues and equals the sum of the three status counters; the high-priority counter is at most reported plus in progress |
| Triage.StatusCountersMatchFilters | website/src/components/AdminDashboard.tsx:28-32 | the total and each status counter equal the number of rows the matching filter button shows |
| Triage.HighlightedRowsMatchCounter | website/src/components/AdminDashboard.tsx:182 | with every issue shown, the shaded rows are exactly the issues the high-priority counter counts, so their number is that counter |
| Triage.StatsIgnoreOrder | website/src/components/AdminDashboard.tsx:28-34 | the counters depend only on which issues are loaded, not on their order |
| Triage.StatusChangeTouchesOnlyStatus | website/src/components/AdminDashboard.tsx:21-24 | a status change keeps the list length, gives the first record with the id the new status and the update time, and leaves every other record unchanged |
| Triage.AdminDashboard.constructor | website/src/components/AdminDashboard.tsx:9-14 | no filter, and every stored issue loaded newest first |
| Triage.AdminDashboard.LoadIssues | website/src/components/AdminDashboard.tsx:16-19 | the loaded list is a permutation of the stored issues, newest first, and its counters are those of the stored list |
| Triage.AdminDashboard.HandleStatusChange | website/src/components/AdminDashboard.tsx:21-24 | an unknown id or a refused write saves nothing; otherwise the store holds the status-only update; the list is reloaded newest first |
| Triage.AdminDashboard.SetFilter | website/src/components/AdminDashboard.tsx:123-147 | the chosen filter becomes the current one |

## Left out

- JSON serialisation and the `localStorage` API are left out. The entry is
  modelled as absent, unreadable or a saved list, and a saved list reads back
  unchanged. The JSON round trip itself is not modelled.
- A stored text that parses to something other than a list, such as `null`,
  `0` or `{}`, is not modelled. `getIssues` returns such a value as it is,
  and the next `push`, `some` or `filter` on it throws. Malformed records
  inside a saved list, such as `[{}]`, are not modelled either: on them
  `checkDuplicate` throws when it lower-cases a missing location, and the
  newest-first sort compares `NaN` time stamps.
- The `console.error` logging in `getIssues` and `saveIssues` is left out;
  it has no effect on state.
- `toLowerCase` lower-cases ASCII letters only. Other Unicode case mappings,
  including ones that change a string's length, are not modelled.
- Time stamps are integer milliseconds, not ISO strings. The model does not
  cover `toISOString` formatting, `toLocaleDateString`, or dates that parse
  to `NaN`.
- Submission.IssueId: the model takes a non-negative clock and renders it in
  plain decimal. Negative clocks and exponent notation for huge numbers are
  not modelled.
- Storage.Merge: a patch field is either given or omitted. A key present
  with the value `undefined`, which the spread would copy, is not modelled.
- Recency.SortNewestFirst: the contract states ordering and permutation,
  not stability. Whether issues with equal `reportedAt` keep their relative
  order is not stated.
- JSX rendering is not modelled. This covers the Tailwind classes of the
  statistic cards and the table badges, the `lucide-react` icons as
  components, and the `setTimeout` that hides the alert after five seconds.
  The alert is modelled as the notice on show; `MessageOf` and `AlertTypeOf`
  give its text and kind.
- The student's `user` is never null. `App.tsx` only renders the student
  dashboard for a logged-in user, so the null branch of `loadMyIssues` is
  left out.
- `LoginScreen.tsx`, the routing in `App.tsx` and the authentication
  context, including logout, are not part of this model.
- Concurrent tabs writing the same key are not modelled. Each operation is
  one atomic read-modify-write of the whole list.

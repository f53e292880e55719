/**
 * The records of the campus issue tracker (website/src/types.ts).
 *
 * The status, priority and category unions of string literals become
 * enumerations; the literal strings the application stores and compares
 * are kept as `StatusName` and `PriorityName`, with parsers back from text.
 */
module Types {

  datatype Option<T> = None | Some(value: T)

  datatype Role = Student | Admin

  datatype Status = Reported | InProgress | Resolved

  datatype Priority = Low | Medium | High

  datatype Category =
    | Maintenance
    | ITSupport
    | Facilities
    | Security
    | Cleanliness
    | Equipment
    | Other

  /** A point in time, as the milliseconds since the epoch that an ISO time stamp denotes. */
  type Timestamp = int

  datatype Issue = Issue(
    id: string,
    location: string,
    category: Category,
    priority: Priority,
    description: string,
    status: Status,
    reportedBy: string,
    reportedAt: Timestamp,
    updatedAt: Timestamp)

  datatype User = User(id: string, name: string, role: Role)

  /** The literal a status is stored and displayed as. */
  function StatusName(s: Status): string {
    match s
    case Reported => "Reported"
    case InProgress => "In Progress"
    case Resolved => "Resolved"
  }

  /** The status a text names, if it names one. */
  function ParseStatus(name: string): (r: Option<Status>)
    ensures r.Some? ==> StatusName(r.value) == name
  {
    if name == "Reported" then Some(Reported)
    else if name == "In Progress" then Some(InProgress)
    else if name == "Resolved" then Some(Resolved)
    else None
  }

  lemma StatusNameRoundTrip(s: Status)
    ensures ParseStatus(StatusName(s)) == Some(s)
  {
  }

  /** The literal a priority is stored and displayed as. */
  function PriorityName(p: Priority): string {
    match p
    case Low => "Low"
    case Medium => "Medium"
    case High => "High"
  }

  /** The priority a text names, if it names one. */
  function ParsePriority(name: string): (r: Option<Priority>)
    ensures r.Some? ==> PriorityName(r.value) == name
  {
    if name == "Low" then Some(Low)
    else if name == "Medium" then Some(Medium)
    else if name == "High" then Some(High)
    else None
  }

  lemma PriorityNameRoundTrip(p: Priority)
    ensures ParsePriority(PriorityName(p)) == Some(p)
  {
  }
}

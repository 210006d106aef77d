/** The records the client exchanges with the timesheet API and keeps in its
    forms. A calendar day is an integer (days since the epoch), so that dates
    compare as numbers, as `new Date(...)` values do. */
module Records {
  import opened Js

  type Day = int

  /** One entry of a day record's `hours` list. */
  datatype HourRecord = HourRecord(hour: int, projectName: Option<string>, taskName: Scalar, details: Option<string>)

  /** One day as `GET /api/Sheet` lists it: `{day, status, hours}`. */
  datatype DayRecord = DayRecord(day: Day, status: string, hours: seq<HourRecord>)

  /** A task the user can pick for a project: `{id, name}`. */
  datatype TaskOption = TaskOption(id: int, name: string)

  /** A project: `{id, name}`. */
  datatype Project = Project(id: int, name: string)

  /** One hour row of the day-entry form. */
  datatype Row = Row(project: string, task: string, details: string, taskOptions: seq<TaskOption>)

  /** A day's form: `{date, tasks}`. */
  datatype DayForm = DayForm(date: Day, tasks: seq<Row>)

  /** One item of a `POST /api/Sheet` body; `taskId` None is NaN (sent as null). */
  datatype PostItem = PostItem(day: Day, hour: int, taskId: Option<int>, details: string)

  const HOURS_PER_DAY: nat := 8
  const EMPTY_ROW := Row("", "", "", [])

  const POSTED := "Posted"
  const SUBMITTED := "Submitted"
  const ACCEPTED := "Accepted"
  const REJECTED_STATUS := "Rejected"

  /** `a` is `b` with some elements left out, the rest in their original order. */
  predicate IsSublist<T(==)>(a: seq<T>, b: seq<T>)
    decreases |b|
  {
    a == [] || (b != [] && ((a[0] == b[0] && IsSublist(a[1..], b[1..])) || IsSublist(a, b[1..])))
  }

  /** `days.filter(keep)`. */
  function FilterDays(days: seq<DayRecord>, keep: DayRecord -> bool): (r: seq<DayRecord>)
    ensures |r| <= |days|
    ensures IsSublist(r, days)
    ensures forall d :: d in r ==> d in days && keep(d)
    ensures forall d :: d in days && keep(d) ==> d in r
  {
    if days == [] then []
    else if keep(days[0]) then [days[0]] + FilterDays(days[1..], keep)
    else FilterDays(days[1..], keep)
  }
}

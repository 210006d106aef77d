/** The `viewsheet` slice: the signed-in employee's own day records from the
    25th of the previous month up to today. */
module ViewsheetSlice {
  import opened Js
  import opened Thunk
  import opened Records

  const FETCH_FAILED := "Error fetching data"
  const LOAD_FAILED := "Failed to load data"

  /** A calendar date (year, month 1-12, day of month). */
  datatype CalendarDate = CalendarDate(year: int, month: int, day: int)

  /** Chronological order of calendar dates. */
  predicate Before(a: CalendarDate, b: CalendarDate) {
    a.year < b.year || (a.year == b.year && (a.month < b.month || (a.month == b.month && a.day < b.day)))
  }

  /** `new Date(y, m - 1, 25)`: the 25th of the month before `today`'s,
      January rolling back to December of the year before. */
  function WindowStart(today: CalendarDate): (start: CalendarDate)
    requires 1 <= today.month <= 12
    ensures start.day == 25 && 1 <= start.month <= 12
    ensures today.month > 1 ==> start.year == today.year && start.month == today.month - 1
    ensures today.month == 1 ==> start.year == today.year - 1 && start.month == 12
    ensures Before(start, today)
  {
    if today.month == 1 then CalendarDate(today.year - 1, 12, 25)
    else CalendarDate(today.year, today.month - 1, 25)
  }

  /** The request window: from WindowStart(today) to today. */
  function RequestWindow(today: CalendarDate): (w: (CalendarDate, CalendarDate))
    requires 1 <= today.month <= 12
    ensures w.1 == today && Before(w.0, w.1)
  {
    (WindowStart(today), today)
  }

  /** `fetchSheetData`: a non-ok reply is rejected with a value; a network
      failure or a body that is not JSON is thrown, so its rejection carries
      no payload. */
  function FetchSheetData(reply: Reply<Envelope<ListField<DayRecord>>>): (r: Settled<Envelope<ListField<DayRecord>>>)
    ensures r.Fulfilled? <==> reply.Response? && reply.ok && reply.json.Parsed?
    ensures r.Fulfilled? ==> r.value == reply.json.body
    ensures reply.Response? && !reply.ok ==> r == RejectWithValue(FETCH_FAILED)
    ensures reply.NetworkFailure? ==> r == Thrown(reply.message)
    ensures reply.Response? && reply.ok && reply.json.Malformed? ==> r == Thrown(reply.json.syntaxError)
  {
    match reply
    case NetworkFailure(m) => Thrown(m)
    case Response(ok, json) =>
      if !ok then RejectWithValue(FETCH_FAILED)
      else match json
        case Malformed(m) => Thrown(m)
        case Parsed(body) => Fulfilled(body)
  }

  /** The `viewsheet` slice state. */
  class ViewsheetState {
    var data: ListField<DayRecord>
    var status: ReqStatus
    var error: Option<string>

    /** The data is never missing, and a failed slice always explains why. */
    ghost predicate Valid()
      reads this
    {
      && !data.Absent?
      && (status == Failed ==> error.Some? && error.value != "")
    }

    constructor ()
      ensures Valid() && data == List([]) && status == Idle && error == None
    {
      data, status, error := List([]), Idle, None;
    }

    /** `fetchSheetData.pending`: the data shown so far stays. */
    method OnPending()
      requires Valid()
      modifies this
      ensures Valid() && status == Loading && data == old(data) && error == old(error)
    {
      status := Loading;
    }

    /** `fetchSheetData.fulfilled/rejected`: `payload.data || []` and
        `payload || 'Failed to load data'`. */
    method OnSettled(outcome: Settled<Envelope<ListField<DayRecord>>>)
      requires Valid()
      modifies this
      ensures Valid()
      ensures outcome.Fulfilled? ==>
        status == Succeeded && error == old(error) &&
        data == (if outcome.value.data.Absent? then List([]) else outcome.value.data)
      ensures outcome.Rejected? ==>
        status == Failed && data == old(data) && error == Some(OrElse(outcome.rejection.payload, LOAD_FAILED))
    {
      match outcome
      case Fulfilled(body) =>
        status := Succeeded;
        data := if body.data.Absent? then List([]) else body.data;
      case Rejected(rejection) =>
        status := Failed;
        error := Some(OrElse(rejection.payload, LOAD_FAILED));
    }
  }

  /** A network failure reaches the page as the generic message: the thunk
      throws it, so the reducer finds no payload. */
  lemma NetworkFailureShowsGenericMessage(message: string)
    ensures var r := FetchSheetData(NetworkFailure(message));
      r.Rejected? && OrElse(r.rejection.payload, LOAD_FAILED) == LOAD_FAILED
  {
  }
}

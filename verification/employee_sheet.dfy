/** The `employeeSheet` slice: one employee's day records for a date range,
    as the manager's employee page shows them. */
module EmployeeSheetSlice {
  import opened Js
  import opened Thunk
  import opened Records

  const FETCH_FAILED := "Failed to fetch data"

  /** `fetchEmployeeSheet`: a non-ok reply is rejected with the fixed
      message, a thrown error with its own; an ok reply yields the body's
      `data` field as it is (possibly missing). */
  function FetchEmployeeSheet(reply: Reply<Envelope<ListField<DayRecord>>>): (r: Settled<ListField<DayRecord>>)
    ensures r.Fulfilled? <==> reply.Response? && reply.ok && reply.json.Parsed?
    ensures r.Fulfilled? ==> r.value == reply.json.body.data
    ensures r.Rejected? ==> r.rejection.payload.Some?
    ensures reply.Response? && !reply.ok ==> r == RejectWithValue(FETCH_FAILED)
    ensures reply.NetworkFailure? ==> r == RejectWithValue(reply.message)
    ensures reply.Response? && reply.ok && reply.json.Malformed? ==> r == RejectWithValue(reply.json.syntaxError)
  {
    match reply
    case NetworkFailure(m) => RejectWithValue(m)
    case Response(ok, json) =>
      if !ok then RejectWithValue(FETCH_FAILED)
      else match json
        case Malformed(m) => RejectWithValue(m)
        case Parsed(body) => Fulfilled(body.data)
  }

  /** The `employeeSheet` slice state. */
  class EmployeeSheetState {
    var data: ListField<DayRecord>
    var status: ReqStatus
    var error: Option<string>

    /** An idle slice holds no data and no error. */
    ghost predicate Valid()
      reads this
    {
      status == Idle ==> data == List([]) && error == None
    }

    constructor ()
      ensures Valid() && data == List([]) && status == Idle && error == None
    {
      data, status, error := List([]), Idle, None;
    }

    /** `resetEmployeeSheet`, run when the page is left or the range changes. */
    method Reset()
      modifies this
      ensures Valid() && data == List([]) && status == Idle && error == None
    {
      data, status, error := List([]), Idle, None;
    }

    /** `fetchEmployeeSheet.pending`: the data shown so far stays. */
    method OnPending()
      modifies this
      ensures Valid() && status == Loading && data == old(data) && error == old(error)
    {
      status := Loading;
    }

    /** `fetchEmployeeSheet.fulfilled/rejected`. */
    method OnSettled(outcome: Settled<ListField<DayRecord>>)
      requires Valid()
      modifies this
      ensures Valid()
      ensures outcome.Fulfilled? ==> status == Succeeded && data == outcome.value && error == old(error)
      ensures outcome.Rejected? ==> status == Failed && error == outcome.rejection.payload && data == old(data)
    {
      match outcome
      case Fulfilled(v) =>
        status, data := Succeeded, v;
      case Rejected(rejection) =>
        status, error := Failed, rejection.payload;
    }
  }
}

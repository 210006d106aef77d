/** The `status` slice: an employee sends selected days to the manager
    (status 1) through `PUT /api/Sheet/updatestatus`. */
module StatusSlice {
  import opened Js
  import opened Thunk
  import opened Records
  import AcceptSlice

  const UPDATE_FAILED := "Failed to update status"
  /** The status code for "sent to the manager". */
  const SEND := 1

  /** `{userId: null, days: selectedTasks, status: 1}`. */
  function SendBody(selected: seq<Day>): (b: AcceptSlice.StatusBody)
    ensures b.userId == Null && b.days == selected && b.status == SEND
  {
    AcceptSlice.StatusBody(Null, selected, SEND)
  }

  /** `updateStatus`: a non-ok reply is rejected with the fixed message,
      whatever its body says; a thrown error with its own message. */
  function UpdateStatus(reply: Reply<Envelope<()>>): (r: Settled<Envelope<()>>)
    ensures r.Fulfilled? <==> reply.Response? && reply.ok && reply.json.Parsed?
    ensures r.Fulfilled? ==> r.value == reply.json.body
    ensures r.Rejected? ==> r.rejection.payload.Some?
    ensures reply.Response? && !reply.ok ==> r == RejectWithValue(UPDATE_FAILED)
    ensures reply.NetworkFailure? ==> r == RejectWithValue(reply.message)
    ensures reply.Response? && reply.ok && reply.json.Malformed? ==> r == RejectWithValue(reply.json.syntaxError)
  {
    match reply
    case NetworkFailure(m) => RejectWithValue(m)
    case Response(ok, json) =>
      if !ok then RejectWithValue(UPDATE_FAILED)
      else match json
        case Malformed(m) => RejectWithValue(m)
        case Parsed(body) => Fulfilled(body)
  }

  /** The `status` slice state. */
  class StatusState {
    var status: ReqStatus
    var error: Option<string>

    /** An idle or succeeded slice holds no error. */
    ghost predicate Valid()
      reads this
    {
      (status == Idle || status == Succeeded) ==> error == None
    }

    constructor ()
      ensures Valid() && status == Idle && error == None
    {
      status, error := Idle, None;
    }

    /** `updateStatus.pending`: an earlier error stays. */
    method OnPending()
      modifies this
      ensures Valid() && status == Loading && error == old(error)
    {
      status := Loading;
    }

    /** `updateStatus.fulfilled/rejected`. */
    method OnSettled(outcome: Settled<Envelope<()>>)
      modifies this
      ensures Valid()
      ensures outcome.Fulfilled? ==> status == Succeeded && error == None
      ensures outcome.Rejected? ==> status == Failed && error == outcome.rejection.payload
    {
      match outcome
      case Fulfilled(_) =>
        status, error := Succeeded, None;
      case Rejected(rejection) =>
        status, error := Failed, rejection.payload;
    }
  }
}

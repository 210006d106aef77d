/** The `accept` slice: a manager accepts (status 2) or rejects (status 3)
    an employee's days through `PUT /api/Sheet/updatestatus`. */
module AcceptSlice {
  import opened Js
  import opened Thunk
  import opened Records

  const UPDATE_FAILED := "Failed to update status"
  const INVALID_RESPONSE := "Failed to update status: Invalid response from server"
  const CONNECT_FAILED := "Failed to connect to the server"

  /** The JSON body `{userId, days, status}` of a status update. */
  datatype StatusBody = StatusBody(userId: Scalar, days: seq<Day>, status: int)

  /** `updateStatus`: classify the reply. Every rejection carries a
      non-empty message. */
  function UpdateStatus(reply: Reply<Envelope<()>>): (r: Settled<Envelope<()>>)
    ensures r.Fulfilled? <==> reply.Response? && reply.ok && reply.json.Parsed?
    ensures r.Fulfilled? ==> r.value == reply.json.body
    ensures r.Rejected? ==> r.rejection.payload.Some? && r.rejection.payload.value != ""
    ensures reply.Response? && !reply.ok && reply.json.Parsed? ==>
      r == RejectWithValue(OrElse(reply.json.body.message, UPDATE_FAILED))
    ensures reply.Response? && !reply.ok && reply.json.Malformed? ==> r == RejectWithValue(INVALID_RESPONSE)
    ensures reply.Response? && reply.ok && reply.json.Malformed? ==>
      r == RejectWithValue(OrElse(Some(reply.json.syntaxError), CONNECT_FAILED))
    ensures reply.NetworkFailure? ==> r == RejectWithValue(OrElse(Some(reply.message), CONNECT_FAILED))
  {
    match reply
    case NetworkFailure(m) => RejectWithValue(OrElse(Some(m), CONNECT_FAILED))
    case Response(ok, json) =>
      if !ok then
        match json
        case Malformed(_) => RejectWithValue(INVALID_RESPONSE)
        case Parsed(body) => RejectWithValue(OrElse(body.message, UPDATE_FAILED))
      else
        match json
        case Malformed(m) => RejectWithValue(OrElse(Some(m), CONNECT_FAILED))
        case Parsed(body) => Fulfilled(body)
  }

  /** The `accept` slice state. */
  class AcceptState {
    var status: ReqStatus
    var error: Option<string>

    /** Only a failed request leaves an error behind. */
    ghost predicate Valid()
      reads this
    {
      error.Some? ==> status == Failed
    }

    constructor ()
      ensures Valid() && status == Idle && error == None
    {
      status, error := Idle, None;
    }

    /** `updateStatus.pending`: clears any earlier error. */
    method OnPending()
      modifies this
      ensures Valid() && status == Loading && error == None
    {
      status, error := Loading, None;
    }

    /** `updateStatus.fulfilled/rejected`. */
    method OnSettled(outcome: Settled<Envelope<()>>)
      modifies this
      ensures Valid()
      ensures outcome.Fulfilled? ==> status == Succeeded && error == None
      ensures outcome.Rejected? ==> status == Failed && error == outcome.rejection.payload
    {
      match outcome
      case Fulfilled(_) =>
        status, error := Succeeded, None;
      case Rejected(rejection) =>
        status, error := Failed, rejection.payload;
    }
  }
}

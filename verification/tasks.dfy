/** The `tasks` slice: the task list of one project. */
module TasksSlice {
  import opened Js
  import opened Thunk
  import opened Records

  const TOKEN_MISSING := "Authorization token is missing"
  const FETCH_FAILED := "Failed to fetch tasks"
  const INVALID_RESPONSE := "Invalid tasks response"

  /** `fetchTasks(projectId)`: without a token nothing is requested and
      `reply` is never looked at. Every failure is thrown. */
  function FetchTasks(token: Scalar, reply: Reply<Envelope<ListField<TaskOption>>>): (r: Settled<seq<TaskOption>>)
    ensures !Truthy(token) ==> r == Thrown(TOKEN_MISSING)
    ensures r.Fulfilled? <==>
      Truthy(token) && reply.Response? && reply.ok && reply.json.Parsed? &&
      reply.json.body.succeeded && reply.json.body.data.List?
    ensures r.Fulfilled? ==> r.value == reply.json.body.data.items
    ensures r.Rejected? ==> r.rejection.payload.None?
    ensures Truthy(token) && reply.Response? && !reply.ok ==> r == Thrown(FETCH_FAILED)
    ensures (Truthy(token) && reply.Response? && reply.ok && reply.json.Parsed? &&
             !(reply.json.body.succeeded && reply.json.body.data.List?)) ==> r == Thrown(INVALID_RESPONSE)
    ensures Truthy(token) && reply.NetworkFailure? ==> r == Thrown(reply.message)
    ensures Truthy(token) && reply.Response? && reply.ok && reply.json.Malformed? ==> r == Thrown(reply.json.syntaxError)
  {
    if !Truthy(token) then Thrown(TOKEN_MISSING)
    else match reply
      case NetworkFailure(m) => Thrown(m)
      case Response(ok, json) =>
        if !ok then Thrown(FETCH_FAILED)
        else match json
          case Malformed(m) => Thrown(m)
          case Parsed(body) =>
            if !body.succeeded || !body.data.List? then Thrown(INVALID_RESPONSE)
            else Fulfilled(body.data.items)
  }

  /** The `tasks` slice state. */
  class TasksState {
    var tasks: seq<TaskOption>
    var status: ReqStatus
    var error: Option<string>

    /** A failed slice always holds the error's message. */
    ghost predicate Valid()
      reads this
    {
      status == Failed ==> error.Some?
    }

    constructor ()
      ensures Valid() && tasks == [] && status == Idle && error == None
    {
      tasks, status, error := [], Idle, None;
    }

    /** `fetchTasks.pending`. */
    method OnPending()
      modifies this
      ensures Valid() && status == Loading && tasks == old(tasks) && error == old(error)
    {
      status := Loading;
    }

    /** `fetchTasks.fulfilled/rejected`: a failure keeps the tasks shown so far. */
    method OnSettled(outcome: Settled<seq<TaskOption>>)
      modifies this
      ensures Valid()
      ensures outcome.Fulfilled? ==> status == Succeeded && tasks == outcome.value && error == old(error)
      ensures outcome.Rejected? ==>
        status == Failed && tasks == old(tasks) && error == Some(outcome.rejection.errorMessage)
    {
      match outcome
      case Fulfilled(v) =>
        status, tasks := Succeeded, v;
      case Rejected(rejection) =>
        status, error := Failed, Some(rejection.errorMessage);
    }
  }
}

/** The `projects` slice: the projects the user can book hours on. */
module ProjectsSlice {
  import opened Js
  import opened Thunk
  import opened Records

  const TOKEN_MISSING := "Authorization token is missing"
  const FETCH_FAILED := "Failed to fetch projects"

  /** `data.data && Array.isArray(data.data) ? data.data : []`. */
  function ProjectList(data: ListField<Project>): (r: seq<Project>)
    ensures data.List? ==> r == data.items
    ensures !data.List? ==> r == []
  {
    if data.List? then data.items else []
  }

  /** `fetchProjects`: without a token nothing is requested; every failure
      is thrown; an ok reply always succeeds, with the listed projects or
      none (the `succeeded` flag is not looked at). */
  function FetchProjects(token: Scalar, reply: Reply<Envelope<ListField<Project>>>): (r: Settled<seq<Project>>)
    ensures !Truthy(token) ==> r == Thrown(TOKEN_MISSING)
    ensures r.Fulfilled? <==> Truthy(token) && reply.Response? && reply.ok && reply.json.Parsed?
    ensures r.Fulfilled? ==> r.value == ProjectList(reply.json.body.data)
    ensures r.Rejected? ==> r.rejection.payload.None?
    ensures Truthy(token) && reply.Response? && !reply.ok ==> r == Thrown(FETCH_FAILED)
    ensures Truthy(token) && reply.NetworkFailure? ==> r == Thrown(reply.message)
    ensures Truthy(token) && reply.Response? && reply.ok && reply.json.Malformed? ==> r == Thrown(reply.json.syntaxError)
  {
    if !Truthy(token) then Thrown(TOKEN_MISSING)
    else match reply
      case NetworkFailure(m) => Thrown(m)
      case Response(ok, json) =>
        if !ok then Thrown(FETCH_FAILED)
        else match json
          case Malformed(m) => Thrown(m)
          case Parsed(body) => Fulfilled(ProjectList(body.data))
  }

  /** The `projects` slice state. */
  class ProjectsState {
    var projects: seq<Project>
    var status: ReqStatus
    var error: Option<string>

    /** A failed slice always holds the error's message. */
    ghost predicate Valid()
      reads this
    {
      status == Failed ==> error.Some?
    }

    constructor ()
      ensures Valid() && projects == [] && status == Idle && error == None
    {
      projects, status, error := [], Idle, None;
    }

    /** `fetchProjects.pending`. */
    method OnPending()
      modifies this
      ensures Valid() && status == Loading && projects == old(projects) && error == old(error)
    {
      status := Loading;
    }

    /** `fetchProjects.fulfilled/rejected`: a failure keeps the projects shown so far. */
    method OnSettled(outcome: Settled<seq<Project>>)
      modifies this
      ensures Valid()
      ensures outcome.Fulfilled? ==> status == Succeeded && projects == outcome.value && error == old(error)
      ensures outcome.Rejected? ==>
        status == Failed && projects == old(projects) && error == Some(outcome.rejection.errorMessage)
    {
      match outcome
      case Fulfilled(v) =>
        status, projects := Succeeded, v;
      case Rejected(rejection) =>
        status, error := Failed, Some(rejection.errorMessage);
    }
  }
}

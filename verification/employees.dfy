/** The `employees` slice: the manager's subordinates. */
module EmployeesSlice {
  import opened Js
  import opened Thunk

  const FETCH_FAILED := "Failed to fetch employees"

  /** One subordinate as `GET /api/Users/subordinates` lists it. */
  datatype Employee = Employee(id: int, userName: Scalar, email: Scalar)

  /** `fetchEmployees`: only a non-ok reply is rejected with a value; a
      network failure or a body that is not JSON is thrown. An ok reply
      yields the body's `data` field as it is. */
  function FetchEmployees(reply: Reply<Envelope<ListField<Employee>>>): (r: Settled<ListField<Employee>>)
    ensures r.Fulfilled? <==> reply.Response? && reply.ok && reply.json.Parsed?
    ensures r.Fulfilled? ==> r.value == reply.json.body.data
    ensures reply.Response? && !reply.ok ==> r == RejectWithValue(FETCH_FAILED)
    ensures reply.NetworkFailure? ==> r == Thrown(reply.message)
    ensures reply.Response? && reply.ok && reply.json.Malformed? ==> r == Thrown(reply.json.syntaxError)
  {
    match reply
    case NetworkFailure(m) => Thrown(m)
    case Response(ok, json) =>
      if !ok then RejectWithValue(FETCH_FAILED)
      else match json
        case Malformed(m) => Thrown(m)
        case Parsed(body) => Fulfilled(body.data)
  }

  /** The `employees` slice state. */
  class EmployeesState {
    var employees: ListField<Employee>
    var status: ReqStatus
    var error: Option<string>

    /** An idle slice holds no employees and no error. */
    ghost predicate Valid()
      reads this
    {
      status == Idle ==> employees == List([]) && error == None
    }

    constructor ()
      ensures Valid() && employees == List([]) && status == Idle && error == None
    {
      employees, status, error := List([]), Idle, None;
    }

    /** `fetchEmployees.pending`. */
    method OnPending()
      modifies this
      ensures Valid() && status == Loading && employees == old(employees) && error == old(error)
    {
      status := Loading;
    }

    /** `fetchEmployees.fulfilled/rejected`: the error is the payload, so a
        thrown error leaves it null. */
    method OnSettled(outcome: Settled<ListField<Employee>>)
      requires Valid()
      modifies this
      ensures Valid()
      ensures outcome.Fulfilled? ==> status == Succeeded && employees == outcome.value && error == old(error)
      ensures outcome.Rejected? ==>
        status == Failed && employees == old(employees) && error == outcome.rejection.payload
    {
      match outcome
      case Fulfilled(v) =>
        status, employees := Succeeded, v;
      case Rejected(rejection) =>
        status, error := Failed, rejection.payload;
    }
  }

  /** A network failure leaves no error message in the slice. */
  lemma NetworkFailureLeavesNoMessage(message: string)
    ensures FetchEmployees(NetworkFailure(message)).Rejected?
    ensures FetchEmployees(NetworkFailure(message)).rejection.payload.None?
  {
  }
}

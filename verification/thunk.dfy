/** What every Redux slice of the client shares: the request lifecycle, the
    shape of a `fetch` reply as the thunks see it, and how createAsyncThunk
    reports the outcome of a thunk to the reducers. */
module Thunk {
  import opened Js

  /** A slice's `status` field: "idle" | "loading" | "succeeded" | "failed". */
  datatype ReqStatus = Idle | Loading | Succeeded | Failed

  /** The outcome of `await response.json()`: a parsed body, or the
      SyntaxError it throws (with its message). */
  datatype Json<+B> = Parsed(body: B) | Malformed(syntaxError: string)

  /** The outcome of `await fetch(...)`: a response with its `ok` flag and
      its body, or the rejection fetch throws (network failure) with its message. */
  datatype Reply<+B> = Response(ok: bool, json: Json<B>) | NetworkFailure(message: string)

  /** A JSON field the client expects to hold an array: falsy (absent, null,
      false, 0, ""), a truthy value that is not an array, or an array. */
  datatype ListField<+T> = Absent | NotAList | List(items: seq<T>)

  /** The server's response envelope `{succeeded, message, data}`. */
  datatype Envelope<+D> = Envelope(succeeded: bool, message: Option<string>, data: D)

  /** A rejected thunk as a reducer sees it: `action.payload` (set only by
      rejectWithValue) and `action.error.message`. */
  datatype Rejection = Rejection(payload: Option<string>, errorMessage: string)

  /** The action a thunk settles with: fulfilled with a value, or rejected. */
  datatype Settled<+T> = Fulfilled(value: T) | Rejected(rejection: Rejection)

  /** The `error.message` Redux Toolkit attaches to a rejectWithValue action. */
  const REJECTED := "Rejected"

  /** `return rejectWithValue(v)`. */
  function RejectWithValue<T>(v: string): (r: Settled<T>)
    ensures r.Rejected? && r.rejection.payload == Some(v)
  {
    Rejected(Rejection(Some(v), REJECTED))
  }

  /** `throw new Error(message)` (or any other exception) out of the thunk body. */
  function Thrown<T>(message: string): (r: Settled<T>)
    ensures r.Rejected? && r.rejection.payload.None? && r.rejection.errorMessage == message
  {
    Rejected(Rejection(None, message))
  }

  /** The message of the TypeError thrown when reading a property of undefined. */
  function TypeErrorReading(property: string): string {
    "Cannot read properties of undefined (reading '" + property + "')"
  }
}

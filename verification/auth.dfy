/** The `auth` slice: the session restored from local storage when the app
    loads, the login request, and logout. Local storage is a map from keys
    to strings. */
module AuthSlice {
  import opened Js
  import opened Thunk

  const LOGIN_FAILED := "Login failed"
  /** The TypeError destructuring `data.data` throws when it is missing. */
  const NO_SESSION_DATA := "Cannot destructure property 'token' of 'data.data' as it is undefined."

  /** The five session fields, as the server sends them and the slice keeps them. */
  datatype Session = Session(token: Scalar, userId: Scalar, userName: Scalar, email: Scalar, isManager: Scalar)

  /** The login response body `{message, data}`; `data` None is null or missing. */
  datatype LoginBody = LoginBody(message: Option<string>, data: Option<Session>)

  const SIGNED_OUT := Session(Null, Null, Null, Null, Null)

  /** `localStorage.getItem(key) || null`. */
  function Stored(items: map<string, string>, key: string): (v: Scalar)
    ensures v.Null? || v.Str?
    ensures v.Str? <==> key in items && items[key] != ""
    ensures v.Str? ==> v.s == items[key]
  {
    if key in items && items[key] != "" then Str(items[key]) else Null
  }

  /** `JSON.stringify(v)` as `setItem` stores it (a string is quoted; escapes are not modelled). */
  function JsonText(v: Scalar): string {
    match v
    case Undefined => "undefined"
    case Null => "null"
    case Bool(b) => if b then "true" else "false"
    case Num(n) => IntToString(n)
    case Str(s) => "\"" + s + "\""
  }

  /** `JSON.parse(localStorage.getItem(key))` for the literals a boolean
      flag is stored as; an absent key reads as null, which parses to null.
      None is the SyntaxError thrown on any other text. */
  function ParseStored(text: Option<string>): (v: Option<Scalar>)
    ensures text.None? ==> v == Some(Null)
    ensures text == Some("true") ==> v == Some(Bool(true))
    ensures text == Some("false") ==> v == Some(Bool(false))
    ensures text == Some("null") ==> v == Some(Null)
    ensures v.None? <==> text.Some? && text.value !in {"true", "false", "null"}
    ensures v.Some? ==> v.value.Null? || v.value.Bool?
  {
    match text
    case None => Some(Null)
    case Some(t) =>
      if t == "true" then Some(Bool(true))
      else if t == "false" then Some(Bool(false))
      else if t == "null" then Some(Null)
      else None
  }

  /** `v || null`. */
  function OrNull(v: Scalar): (r: Scalar)
    ensures Truthy(v) ==> r == v
    ensures !Truthy(v) ==> r == Null
  {
    if Truthy(v) then v else Null
  }

  /** The initial session: each stored string or null, and the parsed flag or
      null. None when the flag's text does not parse (the module throws). */
  function RestoreSession(items: map<string, string>): (s: Option<Session>)
    ensures s.Some? ==>
      (s.value.token == Stored(items, "token") && s.value.userId == Stored(items, "userId") &&
       s.value.userName == Stored(items, "userName") && s.value.email == Stored(items, "email"))
    ensures s.Some? ==> s.value.isManager == Bool(true) || s.value.isManager == Null
    ensures "isManager" !in items ==> s.Some? && s.value.isManager == Null
    ensures s.None? <==> "isManager" in items && items["isManager"] !in {"true", "false", "null"}
    ensures var flag := ParseStored(if "isManager" in items then Some(items["isManager"]) else None);
      s.Some? ==> flag.Some? && s.value.isManager == OrNull(flag.value)
    ensures "isManager" in items && items["isManager"] == "true" ==> s.Some? && s.value.isManager == Bool(true)
  {
    var flag := ParseStored(if "isManager" in items then Some(items["isManager"]) else None);
    match flag
    case None => None
    case Some(v) =>
      Some(Session(Stored(items, "token"), Stored(items, "userId"), Stored(items, "userName"), Stored(items, "email"), OrNull(v)))
  }

  /** The five `setItem` calls of a successful login: `String(v)` for the
      four fields, JSON text for the flag. */
  function StoreSession(items: map<string, string>, s: Session): (r: map<string, string>)
    ensures r.Keys == items.Keys + {"token", "userId", "userName", "email", "isManager"}
    ensures forall k :: k in items && k !in {"token", "userId", "userName", "email", "isManager"} ==> r[k] == items[k]
    ensures r["token"] == ToJsString(s.token) && r["userId"] == ToJsString(s.userId)
    ensures r["userName"] == ToJsString(s.userName) && r["email"] == ToJsString(s.email)
    ensures r["isManager"] == JsonText(s.isManager)
  {
    items["token" := ToJsString(s.token)]["userId" := ToJsString(s.userId)]
      ["userName" := ToJsString(s.userName)]["email" := ToJsString(s.email)]
      ["isManager" := JsonText(s.isManager)]
  }

  /** A reload after a successful login restores a non-empty string token,
      user name and e-mail unchanged. A numeric user id comes back as its
      decimal text, a null field as the text "null", and a `false` manager
      flag as null. */
  lemma RestoreAfterLogin(items: map<string, string>, s: Session)
    requires s.isManager.Bool? || s.isManager.Null?
    ensures RestoreSession(StoreSession(items, s)).Some?
    ensures var r := RestoreSession(StoreSession(items, s)).value;
      (s.token.Str? && s.token.s != "" ==> r.token == s.token) &&
      (s.userName.Str? && s.userName.s != "" ==> r.userName == s.userName) &&
      (s.email.Str? && s.email.s != "" ==> r.email == s.email) &&
      (s.userId.Num? ==> r.userId == Str(IntToString(s.userId.n))) &&
      (s.email.Null? ==> r.email == Str("null")) &&
      (r.isManager == if s.isManager == Bool(true) then Bool(true) else Null)
  {
    var st := StoreSession(items, s);
    if s.userId.Num? {
      var t := IntToString(s.userId.n);
      assert t != "" by {
        if s.userId.n < 0 { assert |t| >= 1; } else { assert |Decimal(s.userId.n)| >= 1; }
      }
    }
  }

  /** After logout storage is empty and a reload restores a signed-out session. */
  lemma RestoreAfterLogout()
    ensures RestoreSession(map[]) == Some(SIGNED_OUT)
  {
  }

  /** `loginUser`: the body is parsed before `ok` is looked at, so a body that
      is not JSON throws whatever the status. Every failure is thrown, so the
      reducer only ever sees `error.message`. */
  function LoginUser(reply: Reply<LoginBody>): (r: Settled<Session>)
    ensures r.Fulfilled? <==> reply.Response? && reply.ok && reply.json.Parsed? && reply.json.body.data.Some?
    ensures r.Fulfilled? ==> r.value == reply.json.body.data.value
    ensures r.Rejected? ==> r.rejection.payload.None?
    ensures reply.Response? && !reply.ok && reply.json.Parsed? ==>
      r == Thrown(OrElse(reply.json.body.message, LOGIN_FAILED))
    ensures reply.Response? && reply.ok && reply.json.Parsed? && reply.json.body.data.None? ==>
      r == Thrown(NO_SESSION_DATA)
  {
    match reply
    case NetworkFailure(m) => Thrown(m)
    case Response(ok, json) =>
      match json
      case Malformed(m) => Thrown(m)
      case Parsed(body) =>
        if ok then
          match body.data
          case None => Thrown(NO_SESSION_DATA)
          case Some(session) => Fulfilled(session)
        else Thrown(OrElse(body.message, LOGIN_FAILED))
  }

  /** The browser's local storage. */
  class LocalStorage {
    var items: map<string, string>

    constructor (items: map<string, string>)
      ensures this.items == items
    {
      this.items := items;
    }
  }

  /** The `auth` slice state. */
  class AuthState {
    var session: Session
    var status: ReqStatus
    var error: Option<string>

    /** `initialState`, read from storage when the module loads; the flag's
        text must parse, otherwise loading throws. */
    constructor (storage: LocalStorage)
      requires RestoreSession(storage.items).Some?
      ensures session == RestoreSession(storage.items).value
      ensures status == Idle && error == None
    {
      session := RestoreSession(storage.items).value;
      status, error := Idle, None;
    }

    /** `loginUser.pending`. */
    method OnLoginPending()
      modifies this
      ensures status == Loading && session == old(session) && error == old(error)
    {
      status := Loading;
    }

    /** `loginUser.fulfilled/rejected`. Success copies the session and writes
        it to storage; failure records the error message and keeps the
        session and storage as they were. */
    method OnLoginSettled(outcome: Settled<Session>, storage: LocalStorage)
      modifies this, storage
      ensures outcome.Fulfilled? ==>
        status == Succeeded && session == outcome.value && error == old(error) &&
        storage.items == StoreSession(old(storage.items), outcome.value)
      ensures outcome.Rejected? ==>
        status == Failed && error == Some(outcome.rejection.errorMessage) &&
        session == old(session) && storage.items == old(storage.items)
    {
      match outcome
      case Fulfilled(s) =>
        status := Succeeded;
        session := s;
        storage.items := StoreSession(storage.items, s);
      case Rejected(rejection) =>
        status := Failed;
        error := Some(rejection.errorMessage);
    }

    /** `logout`: null session, empty storage; status and error are left as they were. */
    method Logout(storage: LocalStorage)
      modifies this, storage
      ensures session == SIGNED_OUT && storage.items == map[]
      ensures status == old(status) && error == old(error)
    {
      session := SIGNED_OUT;
      storage.items := map[];
    }
  }
}

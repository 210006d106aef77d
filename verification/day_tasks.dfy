/** The `dayTasks` slice: fetching one day's record and turning it into the
    8 rows of the day-entry form, posting the form back as hour items, and the
    reducer that tracks both requests. */
module DayTasksSlice {
  import opened Js
  import opened Thunk
  import opened Records

  const FETCH_FAILED := "Failed to fetch day tasks"
  const SAVE_FAILED := "Failed to save day tasks"
  const NO_DETAILS := "N/A"

  /** The body `GET /api/Sheet?start=d&end=d` answers with. */
  type DayBody = Envelope<ListField<DayRecord>>

  /** `hours[i] || {}`: the i-th hour record, if the day has one. */
  function HourAt(hours: seq<HourRecord>, i: nat): (h: Option<HourRecord>)
    ensures h.Some? <==> i < |hours|
    ensures h.Some? ==> h.value == hours[i]
  {
    if i < |hours| then Some(hours[i]) else None
  }

  /** `hourData.taskName?.toString() || ""`. */
  function TaskText(v: Scalar): string {
    if v.Undefined? || v.Null? then "" else ToJsString(v)
  }

  /** One form row built from an hour record (or from `{}`). */
  function DecodeRow(h: Option<HourRecord>): Row {
    match h
    case None => EMPTY_ROW
    case Some(rec) => Row(OrElse(rec.projectName, ""), TaskText(rec.taskName), OrElse(rec.details, ""), [])
  }

  /** The 8 form rows of a day, taken from its hours BY POSITION. */
  function DecodeRows(day: DayRecord): (rows: seq<Row>)
    ensures |rows| == HOURS_PER_DAY
    ensures forall i :: 0 <= i < |rows| ==> rows[i].taskOptions == []
    ensures forall i :: 0 <= i < |rows| && i < |day.hours| ==>
      rows[i].project == OrElse(day.hours[i].projectName, "") &&
      rows[i].task == TaskText(day.hours[i].taskName) &&
      rows[i].details == OrElse(day.hours[i].details, "")
    ensures forall i :: |day.hours| <= i < |rows| ==> rows[i] == EMPTY_ROW
  {
    seq(HOURS_PER_DAY, i requires 0 <= i < HOURS_PER_DAY => DecodeRow(HourAt(day.hours, i)))
  }

  /** `fetchDayTasks(date)`: classify the reply and decode the first day listed. */
  function FetchDayTasks(date: Day, reply: Reply<DayBody>): (r: Settled<DayForm>)
    ensures r.Fulfilled? <==>
      reply.Response? && reply.ok && reply.json.Parsed? && reply.json.body.succeeded &&
      reply.json.body.data.List? && reply.json.body.data.items != []
    ensures r.Fulfilled? ==>
      r.value.date == date && r.value.tasks == DecodeRows(reply.json.body.data.items[0])
    ensures r.Rejected? ==> r.rejection.payload.Some?
    ensures reply.Response? && !reply.ok ==> r == RejectWithValue(FETCH_FAILED)
    ensures reply.Response? && reply.ok && reply.json.Parsed? && !reply.json.body.succeeded ==>
      r == RejectWithValue(OrElse(reply.json.body.message, FETCH_FAILED))
    ensures (reply.Response? && reply.ok && reply.json.Parsed? && reply.json.body.succeeded &&
             reply.json.body.data == List([])) ==> r == RejectWithValue(TypeErrorReading("hours"))
    ensures (reply.Response? && reply.ok && reply.json.Parsed? && reply.json.body.succeeded &&
             reply.json.body.data.Absent?) ==> r == RejectWithValue(TypeErrorReading("0"))
    ensures reply.NetworkFailure? ==> r == RejectWithValue(reply.message)
    ensures reply.Response? && reply.ok && reply.json.Malformed? ==> r == RejectWithValue(reply.json.syntaxError)
  {
    match reply
    case NetworkFailure(m) => RejectWithValue(m)
    case Response(ok, json) =>
      if !ok then RejectWithValue(FETCH_FAILED)
      else match json
        case Malformed(m) => RejectWithValue(m)
        case Parsed(body) =>
          if !body.succeeded then RejectWithValue(OrElse(body.message, FETCH_FAILED))
          else match body.data
            case Absent => RejectWithValue(TypeErrorReading("0"))
            case NotAList => RejectWithValue(TypeErrorReading("hours"))
            case List(days) =>
              if days == [] then RejectWithValue(TypeErrorReading("hours"))
              else Fulfilled(DayForm(date, DecodeRows(days[0])))
  }

  /** The POST item for row `index` of a day: hour numbers start at 1. */
  function EncodeRow(date: Day, index: nat, row: Row): (item: PostItem) {
    PostItem(date, index + 1, ParseInt(row.task), if row.details != "" then row.details else NO_DETAILS)
  }

  /** `tasks.map((task, index) => ...)`: one item per row, in row order. */
  function EncodeRows(date: Day, rows: seq<Row>): (items: seq<PostItem>)
    ensures |items| == |rows|
    ensures forall i :: 0 <= i < |items| ==>
      items[i].day == date && items[i].hour == i + 1 &&
      items[i].taskId == ParseInt(rows[i].task) &&
      items[i].details == (if rows[i].details != "" then rows[i].details else NO_DETAILS)
  {
    seq(|rows|, i requires 0 <= i < |rows| => EncodeRow(date, i, rows[i]))
  }

  /** `saveDayTasks({date, tasks})`: classify the reply to the POST. */
  function SaveDayTasks(form: DayForm, reply: Reply<Envelope<()>>): (r: Settled<DayForm>)
    ensures r.Fulfilled? <==> reply.Response? && reply.ok && reply.json.Parsed? && reply.json.body.succeeded
    ensures r.Fulfilled? ==> r.value == form
    ensures r.Rejected? ==> r.rejection.payload.Some?
    ensures reply.Response? && !reply.ok ==> r == RejectWithValue(SAVE_FAILED)
    ensures reply.Response? && reply.ok && reply.json.Parsed? && !reply.json.body.succeeded ==>
      r == RejectWithValue(OrElse(reply.json.body.message, SAVE_FAILED))
    ensures reply.NetworkFailure? ==> r == RejectWithValue(reply.message)
    ensures reply.Response? && reply.ok && reply.json.Malformed? ==> r == RejectWithValue(reply.json.syntaxError)
  {
    match reply
    case NetworkFailure(m) => RejectWithValue(m)
    case Response(ok, json) =>
      if !ok then RejectWithValue(SAVE_FAILED)
      else match json
        case Malformed(m) => RejectWithValue(m)
        case Parsed(body) =>
          if !body.succeeded then RejectWithValue(OrElse(body.message, SAVE_FAILED))
          else Fulfilled(form)
  }

  /** Decoding a day and posting the rows back keeps each hour where it was:
      a numeric task name comes back as the same task id, the details come
      back unless empty ("N/A" then), and a missing hour is posted with a NaN
      task id. */
  lemma DecodeThenEncode(date: Day, day: DayRecord, i: nat)
    requires i < HOURS_PER_DAY
    ensures var item := EncodeRows(date, DecodeRows(day))[i];
      item.day == date && item.hour == i + 1 &&
      (i < |day.hours| ==> item.details == OrElse(day.hours[i].details, NO_DETAILS)) &&
      (i < |day.hours| && day.hours[i].taskName.Num? ==> item.taskId == Some(day.hours[i].taskName.n)) &&
      (i >= |day.hours| ==> item.taskId == None && item.details == NO_DETAILS)
  {
    var rows := DecodeRows(day);
    var item := EncodeRows(date, rows)[i];
    assert item == EncodeRow(date, i, rows[i]);
    if i < |day.hours| {
      var h := day.hours[i];
      assert rows[i].task == TaskText(h.taskName) && rows[i].details == OrElse(h.details, "");
      if h.taskName.Num? {
        var n := h.taskName.n;
        assert rows[i].task == IntToString(n);
        ParseIntOfString(n, "");
        assert IntToString(n) + "" == IntToString(n);
      }
    } else {
      assert rows[i] == EMPTY_ROW;
      assert TrimStart("") == "" && DigitRun("") == "";
    }
  }

  /** A task NAME (text starting with a letter) is decoded into the row and
      then posted as a NaN task id. */
  lemma NamedTaskEncodesAsNaN(date: Day, day: DayRecord, i: nat)
    requires i < HOURS_PER_DAY && i < |day.hours|
    requires day.hours[i].taskName.Str?
    requires var s := day.hours[i].taskName.s;
      s != [] && ('a' <= s[0] <= 'z' || 'A' <= s[0] <= 'Z')
    ensures EncodeRows(date, DecodeRows(day))[i].taskId == None
  {
    var s := day.hours[i].taskName.s;
    var rows := DecodeRows(day);
    assert rows[i].task == s;
    assert !IsSpace(s[0]) && !IsDigit(s[0]);
    ParseIntOfText(s);
    assert EncodeRows(date, rows)[i].taskId == ParseInt(s);
  }

  /** The `dayTasks` slice state, updated in place by its reducers. */
  class DayTasksState {
    var currentDay: Option<Day>
    var tasks: seq<Row>
    var status: ReqStatus
    var error: Option<string>

    /** An idle slice holds nothing. */
    ghost predicate Valid()
      reads this
    {
      status == Idle ==> currentDay == None && tasks == [] && error == None
    }

    constructor ()
      ensures Valid()
      ensures currentDay == None && tasks == [] && status == Idle && error == None
    {
      currentDay, tasks, status, error := None, [], Idle, None;
    }

    /** `clearCurrentDay`. */
    method ClearCurrentDay()
      modifies this
      ensures Valid()
      ensures currentDay == None && tasks == [] && status == Idle && error == None
    {
      currentDay, tasks, status, error := None, [], Idle, None;
    }

    /** `fetchDayTasks.pending` and `saveDayTasks.pending`. */
    method OnPending()
      requires Valid()
      modifies this
      ensures Valid()
      ensures status == Loading
      ensures currentDay == old(currentDay) && tasks == old(tasks) && error == old(error)
    {
      status := Loading;
    }

    /** `fetchDayTasks.fulfilled/rejected` and `saveDayTasks.fulfilled/rejected`:
        a fulfilled request does NOT clear an earlier error; a rejected one
        keeps the day and rows shown so far. */
    method OnSettled(outcome: Settled<DayForm>)
      requires Valid()
      modifies this
      ensures Valid()
      ensures outcome.Fulfilled? ==>
        status == Succeeded && currentDay == Some(outcome.value.date) &&
        tasks == outcome.value.tasks && error == old(error)
      ensures outcome.Rejected? ==>
        status == Failed && error == outcome.rejection.payload &&
        currentDay == old(currentDay) && tasks == old(tasks)
    {
      match outcome
      case Fulfilled(form) =>
        status := Succeeded;
        currentDay := Some(form.date);
        tasks := form.tasks;
      case Rejected(rejection) =>
        status := Failed;
        error := rejection.payload;
    }
  }
}

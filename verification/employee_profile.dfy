/** The manager's page for one employee: the days shown for the chosen view
    and date range, the hour cells of each day, and accepting or rejecting
    the selected days. */
module EmployeeProfile {
  import opened Js
  import opened Thunk
  import opened Records
  import Selection
  import AcceptSlice
  import DayTasksSlice

  const ACCEPT := 2
  const REJECT := 3

  /** The status a view mode shows: "pending" → Posted, "accepted" →
      Accepted, "rejected" → Rejected; any other mode shows nothing. */
  function ViewStatus(mode: string): (st: Option<string>)
    ensures mode == "pending" ==> st == Some(POSTED)
    ensures mode == "accepted" ==> st == Some(ACCEPTED)
    ensures mode == "rejected" ==> st == Some(REJECTED_STATUS)
    ensures st.Some? <==> mode == "pending" || mode == "accepted" || mode == "rejected"
  {
    if mode == "pending" then Some(POSTED)
    else if mode == "accepted" then Some(ACCEPTED)
    else if mode == "rejected" then Some(REJECTED_STATUS)
    else None
  }

  /** A date-picker bound as a comparison sees it: `date >= null` compares
      with 0, the epoch. */
  function Bound(b: Option<Day>): int {
    b.GetOr(0)
  }

  /** `filteredData`: the days whose status is the view's and whose date lies
      in the inclusive range, in their original order. */
  function FilteredData(data: seq<DayRecord>, mode: string, start: Option<Day>, end: Option<Day>): (r: seq<DayRecord>)
    ensures IsSublist(r, data)
    ensures ViewStatus(mode).None? ==> r == []
    ensures forall d :: d in r <==>
      d in data && ViewStatus(mode) == Some(d.status) && Bound(start) <= d.day <= Bound(end)
  {
    match ViewStatus(mode)
    case None => []
    case Some(st) => FilterDays(data, (d: DayRecord) => d.status == st && Bound(start) <= d.day <= Bound(end))
  }

  /** `day.hours.find(h => h.hour === hour + 1)`: the first entry for the
      cell's hour; None is the "No Data" cell. */
  function FindHour(hours: seq<HourRecord>, cell: nat): (r: Option<HourRecord>)
    ensures r.Some? ==> r.value in hours && r.value.hour == cell + 1
    ensures r.None? <==> forall k :: 0 <= k < |hours| ==> hours[k].hour != cell + 1
    ensures r.Some? ==>
      (exists k :: 0 <= k < |hours| && hours[k] == r.value && (forall k' :: 0 <= k' < k ==> hours[k'].hour != cell + 1))
  {
    if hours == [] then None
    else if hours[0].hour == cell + 1 then Some(hours[0])
    else
      var r := FindHour(hours[1..], cell);
      assert forall k :: 1 <= k < |hours| ==> hours[k] == hours[1..][k - 1];
      r
  }

  /** The employee page finds a cell by its `hour` field, the day-entry form
      by position. On a day whose hours are listed in order 1, 2, ... they
      show the same entry for every cell. */
  lemma {:induction false} LookupAgreesWithPosition(hours: seq<HourRecord>, cell: nat)
    requires forall k :: 0 <= k < |hours| ==> hours[k].hour == k + 1
    ensures FindHour(hours, cell) == DayTasksSlice.HourAt(hours, cell)
  {
    if cell < |hours| {
      var r := FindHour(hours, cell);
      assert hours[cell].hour == cell + 1;
      var k :| 0 <= k < |hours| && hours[k] == r.value && forall k' :: 0 <= k' < k ==> hours[k'].hour != cell + 1;
      assert k == cell;
    }
  }

  /** `filteredData.map(day => day.day)`. */
  function DaysOf(shown: seq<DayRecord>): (r: seq<Day>)
    ensures |r| == |shown| && forall i :: 0 <= i < |r| ==> r[i] == shown[i].day
  {
    seq(|shown|, i requires 0 <= i < |shown| => shown[i].day)
  }

  /** `handleSelectAll`: select every shown day, or none when the selection
      is already as long as the shown list. Whatever is selected afterwards
      is a shown day. */
  method SelectAllShown(selection: Selection.DaySelection, data: seq<DayRecord>, mode: string, start: Option<Day>, end: Option<Day>)
    modifies selection
    ensures selection.days == Selection.SelectAll(old(selection.days), DaysOf(FilteredData(data, mode, start, end)))
    ensures forall i :: 0 <= i < |selection.days| ==>
      exists d :: d in FilteredData(data, mode, start, end) && d.day == selection.days[i]
  {
    var shown := FilteredData(data, mode, start, end);
    selection.SelectAllVisible(DaysOf(shown));
    forall i | 0 <= i < |selection.days|
      ensures exists d :: d in shown && d.day == selection.days[i]
    {
      assert shown[i] in shown;
    }
  }

  /** `handleStatusUpdate(status)` with 2 (accept) or 3 (reject). An empty
      selection sends nothing. Otherwise the selected days are sent with the
      employee's id; `reply` is the server's answer. On success the selection
      is cleared and the sheet is fetched again when both range ends are set;
      on failure the selection is kept. */
  method StatusUpdate(selection: Selection.DaySelection, userId: string, status: int,
                      start: Option<Day>, end: Option<Day>, reply: Reply<Envelope<()>>)
    returns (request: Option<AcceptSlice.StatusBody>, refetch: bool, notice: Option<string>)
    modifies selection
    ensures old(selection.days) == [] ==>
      request == None && !refetch && notice == None && selection.days == []
    ensures old(selection.days) != [] ==>
      request == Some(AcceptSlice.StatusBody(Str(userId), old(selection.days), status))
    ensures old(selection.days) != [] && AcceptSlice.UpdateStatus(reply).Fulfilled? ==>
      selection.days == [] && refetch == (start.Some? && end.Some?) &&
      notice == Some(if status == ACCEPT then "Selected days accepted successfully!" else "Selected days rejected successfully!")
    ensures old(selection.days) != [] && AcceptSlice.UpdateStatus(reply).Rejected? ==>
      selection.days == old(selection.days) && !refetch &&
      notice == Some(if status == ACCEPT then "Failed to accept selected days." else "Failed to reject selected days.")
  {
    request, refetch, notice := None, false, None;
    if selection.days != [] {
      request := Some(AcceptSlice.StatusBody(Str(userId), selection.days, status));
      var outcome := AcceptSlice.UpdateStatus(reply);
      if outcome.Fulfilled? {
        notice := Some(if status == ACCEPT then "Selected days accepted successfully!" else "Selected days rejected successfully!");
        selection.Clear();
        refetch := start.Some? && end.Some?;
      } else {
        notice := Some(if status == ACCEPT then "Failed to accept selected days." else "Failed to reject selected days.");
      }
    }
  }
}

/** The employee's time-sheet page: submitted days in the current window,
    rejected days, the active-hours total, and sending the selected days to
    the manager. */
module TimeSheet {
  import opened Js
  import opened Thunk
  import opened Records
  import Selection
  import AcceptSlice
  import StatusSlice

  const SENT_NOTICE := "Status updated successfully!"
  const ALREADY_SENT_NOTICE := "There is a day already sent to the manager"

  predicate IsRejected(d: DayRecord) { d.status == REJECTED_STATUS }

  predicate IsActive(d: DayRecord) { d.status != REJECTED_STATUS }

  /** `filterTasks`: the "Submitted" days from `start` to `end` inclusive,
      in order. The window bounds come from the clock and are inputs here. */
  function FilterTasks(data: seq<DayRecord>, start: Day, end: Day): (r: seq<DayRecord>)
    ensures IsSublist(r, data)
    ensures forall d :: d in r <==> d in data && d.status == SUBMITTED && start <= d.day <= end
  {
    FilterDays(data, (d: DayRecord) => d.status == SUBMITTED && start <= d.day <= end)
  }

  /** `rejectedTasks`: the days the manager rejected, in order. */
  function RejectedTasks(data: seq<DayRecord>): (r: seq<DayRecord>)
    ensures IsSublist(r, data)
    ensures forall d :: d in r <==> d in data && d.status == REJECTED_STATUS
  {
    FilterDays(data, IsRejected)
  }

  /** Every day is either active or rejected, so the two filters split the list. */
  lemma {:induction false} ActiveRejectedSplit(data: seq<DayRecord>)
    ensures |FilterDays(data, IsActive)| + |FilterDays(data, IsRejected)| == |data|
  {
    if data != [] {
      ActiveRejectedSplit(data[1..]);
    }
  }

  /** `totalActiveHours`: 8 hours for every day that was not rejected. */
  function TotalActiveHours(data: seq<DayRecord>): (h: nat)
    ensures h % HOURS_PER_DAY == 0
    ensures h <= HOURS_PER_DAY * |data|
    ensures h + HOURS_PER_DAY * |RejectedTasks(data)| == HOURS_PER_DAY * |data|
  {
    ActiveRejectedSplit(data);
    |FilterDays(data, IsActive)| * HOURS_PER_DAY
  }

  /** `handleSendSelected`: an empty selection sends nothing. Otherwise the
      selected days go out with status 1; on success the selection is
      cleared, on failure it is kept and the notice blames a day already
      sent, whatever the server said. */
  method SendSelected(selection: Selection.DaySelection, reply: Reply<Envelope<()>>)
    returns (request: Option<AcceptSlice.StatusBody>, notice: Option<string>)
    modifies selection
    ensures old(selection.days) == [] ==> request == None && notice == None && selection.days == []
    ensures old(selection.days) != [] ==>
      request == Some(AcceptSlice.StatusBody(Null, old(selection.days), StatusSlice.SEND))
    ensures old(selection.days) != [] && StatusSlice.UpdateStatus(reply).Fulfilled? ==>
      selection.days == [] && notice == Some(SENT_NOTICE)
    ensures old(selection.days) != [] && StatusSlice.UpdateStatus(reply).Rejected? ==>
      selection.days == old(selection.days) && notice == Some(ALREADY_SENT_NOTICE)
  {
    request, notice := None, None;
    if |selection.days| > 0 {
      request := Some(StatusSlice.SendBody(selection.days));
      var outcome := StatusSlice.UpdateStatus(reply);
      if outcome.Fulfilled? {
        notice := Some(SENT_NOTICE);
        selection.Clear();
      } else {
        notice := Some(ALREADY_SENT_NOTICE);
      }
    }
  }
}

/** The `sheet` slice: posting several days' rows in one `POST /api/Sheet`. */
module SheetSlice {
  import opened Js
  import opened Thunk
  import opened Records
  import DayTasksSlice

  const POST_FAILED := "Error posting tasks"
  const NETWORK_ERROR := "Network error"

  /** Number of rows across all the days. */
  function TotalRows(days: seq<DayForm>): nat {
    if days == [] then 0 else |days[0].tasks| + TotalRows(days[1..])
  }

  /** The rows of the first `j` days, counted after the first day. */
  lemma TotalRowsPrefix(days: seq<DayForm>, j: nat)
    requires 0 < j <= |days|
    ensures TotalRows(days[..j]) == |days[0].tasks| + TotalRows(days[1..][..j - 1])
  {
    assert days[..j][0] == days[0];
    assert days[..j][1..] == days[1..][..j - 1];
  }

  /** Blocks of items laid one after the other, as `flatMap` lays them. */
  function Concat<T>(blocks: seq<seq<T>>): seq<T> {
    if blocks == [] then [] else blocks[0] + Concat(blocks[1..])
  }

  /** Where block `j` starts in the concatenation. */
  function Start<T>(blocks: seq<seq<T>>, j: nat): nat
    requires j <= |blocks|
  {
    if j == 0 then 0 else |blocks[0]| + Start(blocks[1..], j - 1)
  }

  /** Item `i` of block `j` sits at the block's start plus `i`. */
  lemma {:induction false} ConcatAt<T>(blocks: seq<seq<T>>, j: nat, i: nat)
    requires j < |blocks| && i < |blocks[j]|
    ensures Start(blocks, j) + i < |Concat(blocks)|
    ensures Concat(blocks)[Start(blocks, j) + i] == blocks[j][i]
  {
    if j > 0 {
      ConcatAt(blocks[1..], j - 1, i);
      var k := Start(blocks[1..], j - 1) + i;
      assert (blocks[0] + Concat(blocks[1..]))[|blocks[0]| + k] == Concat(blocks[1..])[k];
    }
  }

  /** Each day's rows, encoded with that day's date. */
  function DayBlocks(days: seq<DayForm>): seq<seq<PostItem>> {
    seq(|days|, k requires 0 <= k < |days| => DayTasksSlice.EncodeRows(days[k].date, days[k].tasks))
  }

  lemma DayBlocksTail(days: seq<DayForm>)
    requires days != []
    ensures DayBlocks(days)[1..] == DayBlocks(days[1..])
  {
  }

  /** `selectedData.flatMap(day => day.tasks.map(...))`: each day's rows
      encoded with that day's date, days in order. */
  function FlattenDays(days: seq<DayForm>): (items: seq<PostItem>)
    ensures |items| == TotalRows(days)
  {
    BlocksLength(days);
    Concat(DayBlocks(days))
  }

  /** The day blocks laid end to end hold one item per row, across all the days. */
  lemma {:induction false} BlocksLength(days: seq<DayForm>)
    ensures |Concat(DayBlocks(days))| == TotalRows(days)
  {
    if days != [] {
      BlocksLength(days[1..]);
      DayBlocksTail(days);
    }
  }

  /** Day `j`'s block starts after the rows of the days before it. */
  lemma {:induction false} StartIsTotalRows(days: seq<DayForm>, j: nat)
    requires j <= |days|
    ensures Start(DayBlocks(days), j) == TotalRows(days[..j])
  {
    if j == 0 {
      assert days[..0] == [];
    } else {
      StartIsTotalRows(days[1..], j - 1);
      DayBlocksTail(days);
      TotalRowsPrefix(days, j);
    }
  }

  /** Row `i` of day `j` is posted right after the rows of the days before
      it, with its own day's date, hour `i + 1`, its parsed task id and its
      details ("N/A" when empty). */
  lemma FlattenAt(days: seq<DayForm>, j: nat, i: nat)
    requires j < |days| && i < |days[j].tasks|
    ensures TotalRows(days[..j]) + i < |FlattenDays(days)|
    ensures var item := FlattenDays(days)[TotalRows(days[..j]) + i];
      var row := days[j].tasks[i];
      item.day == days[j].date && item.hour == i + 1 && item.taskId == ParseInt(row.task) &&
      item.details == (if row.details != "" then row.details else DayTasksSlice.NO_DETAILS)
  {
    ConcatAt(DayBlocks(days), j, i);
    StartIsTotalRows(days, j);
  }

  /** `postSelectedTasks`: classify the reply to the POST. */
  function PostSelectedTasks(reply: Reply<Envelope<()>>): (r: Settled<Envelope<()>>)
    ensures r.Fulfilled? <==> reply.Response? && reply.ok && reply.json.Parsed?
    ensures r.Rejected? ==> r.rejection.payload.Some? && r.rejection.payload.value != ""
    ensures reply.Response? && !reply.ok && reply.json.Parsed? ==>
      r == RejectWithValue(OrElse(reply.json.body.message, POST_FAILED))
    ensures reply.NetworkFailure? ==> r == RejectWithValue(OrElse(Some(reply.message), NETWORK_ERROR))
    ensures reply.Response? && reply.json.Malformed? ==>
      r == RejectWithValue(OrElse(Some(reply.json.syntaxError), NETWORK_ERROR))
  {
    match reply
    case NetworkFailure(m) => RejectWithValue(OrElse(Some(m), NETWORK_ERROR))
    case Response(ok, json) =>
      match json
      case Malformed(m) => RejectWithValue(OrElse(Some(m), NETWORK_ERROR))
      case Parsed(body) =>
        if ok then Fulfilled(body) else RejectWithValue(OrElse(body.message, POST_FAILED))
  }

  /** The `sheet` slice state. */
  class SheetState {
    var status: ReqStatus
    var error: Option<string>

    constructor ()
      ensures status == Idle && error == None
    {
      status, error := Idle, None;
    }

    /** `postSelectedTasks.pending`. */
    method OnPending()
      modifies this
      ensures status == Loading && error == old(error)
    {
      status := Loading;
    }

    /** `postSelectedTasks.fulfilled/rejected`: success does not clear an earlier error. */
    method OnSettled(outcome: Settled<Envelope<()>>)
      modifies this
      ensures outcome.Fulfilled? ==> status == Succeeded && error == old(error)
      ensures outcome.Rejected? ==> status == Failed && error == outcome.rejection.payload
    {
      match outcome
      case Fulfilled(_) =>
        status := Succeeded;
      case Rejected(rejection) =>
        status := Failed;
        error := rejection.payload;
    }
  }
}

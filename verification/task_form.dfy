/** The day-entry editor: an 8-row form (one row per working hour), a cache
    of task lists per project, and a "bulk" row that can be copied to every
    hour. Task lists are fetched through the `fetchTasks` thunk; the outcome
    of that request is an input of the operations that would issue it. */
module TaskForm {
  import opened Js
  import opened Thunk
  import opened Records
  import DayTasksSlice

  const SAVE_FAILED_NOTICE := "Failed to save tasks"
  const UPDATED_NOTICE := "Day's tasks updated successfully!"
  const SAVED_NOTICE := "Day's tasks saved successfully!"

  /** A row counts as filled in when it has a project and a task. */
  predicate IsComplete(row: Row) {
    row.project != "" && row.task != ""
  }

  /** `tasksForm.every(task => task.project && task.task)`: the save button's
      gate, checking the rows front to back and stopping at the first one
      that is not filled in. */
  function AllRowsComplete(rows: seq<Row>): (all: bool)
    ensures all <==> forall i :: 0 <= i < |rows| ==> IsComplete(rows[i])
  {
    if rows == [] then true
    else if !IsComplete(rows[0]) then false
    else
      assert forall i :: 1 <= i < |rows| ==> rows[i] == rows[1..][i - 1];
      AllRowsComplete(rows[1..])
  }

  /** `tasksForm.filter(task => task.project && task.task).length`. */
  function CompleteCount(rows: seq<Row>): (n: nat)
    ensures n <= |rows|
    ensures n == |rows| <==> AllRowsComplete(rows)
    ensures n == 0 <==> forall i :: 0 <= i < |rows| ==> !IsComplete(rows[i])
  {
    if rows == [] then 0
    else
      assert forall i :: 1 <= i < |rows| ==> rows[i] == rows[1..][i - 1];
      (if IsComplete(rows[0]) then 1 else 0) + CompleteCount(rows[1..])
  }

  /** The progress bar: the share of complete rows, in percent. */
  function CompletionPercentage(rows: seq<Row>): (p: real)
    requires |rows| > 0
    ensures 0.0 <= p <= 100.0
    ensures p == 100.0 <==> AllRowsComplete(rows)
    ensures p == 0.0 <==> forall i :: 0 <= i < |rows| ==> !IsComplete(rows[i])
  {
    var n := CompleteCount(rows);
    Percentage(n, |rows|);
    (n as real / |rows| as real) * 100.0
  }

  /** `n / m * 100` for `0 <= n <= m`, `m > 0`, lies in [0, 100] and hits the ends exactly at n == 0 and n == m. */
  lemma Percentage(n: nat, m: nat)
    requires 0 < m && n <= m
    ensures 0.0 <= (n as real / m as real) * 100.0 <= 100.0
    ensures (n as real / m as real) * 100.0 == 100.0 <==> n == m
    ensures (n as real / m as real) * 100.0 == 0.0 <==> n == 0
  {
    var q := n as real / m as real;
    assert q * m as real == n as real;
    assert 0.0 <= q <= 1.0;
    if q == 1.0 {
      assert n as real == m as real;
    }
    if n == m {
      assert q * m as real == 1.0 * m as real;
    }
  }

  /** The fields `handleChange` is used for. */
  datatype Field = TaskField | DetailsField

  /** The list of task options for row `j` of a prefill: the last fulfilled
      fetch among the first `k` rows that name the same (non-empty) project. */
  function LastFetched(decoded: seq<Row>, fetches: seq<Settled<seq<TaskOption>>>, k: nat, p: string): Option<seq<TaskOption>>
    requires k <= |decoded| && k <= |fetches|
  {
    if k == 0 then None
    else if p != "" && decoded[k - 1].project == p && fetches[k - 1].Fulfilled? then Some(fetches[k - 1].value)
    else LastFetched(decoded, fetches, k - 1, p)
  }

  /** The cache after the fetches of the first `k` rows of a prefill. */
  function CacheAfter(cache: map<string, seq<TaskOption>>, decoded: seq<Row>, fetches: seq<Settled<seq<TaskOption>>>, k: nat): map<string, seq<TaskOption>>
    requires k <= |decoded| && k <= |fetches|
  {
    if k == 0 then cache
    else
      var c := CacheAfter(cache, decoded, fetches, k - 1);
      var p := decoded[k - 1].project;
      if p != "" && fetches[k - 1].Fulfilled? then c[p := fetches[k - 1].value] else c
  }

  /** After a prefill the cache holds, for every project fetched, exactly the
      list the rows of that project show; other entries are as before. */
  lemma {:induction false} CacheAfterAgrees(cache: map<string, seq<TaskOption>>, decoded: seq<Row>, fetches: seq<Settled<seq<TaskOption>>>, k: nat, p: string)
    requires k <= |decoded| && k <= |fetches|
    ensures LastFetched(decoded, fetches, k, p).Some? ==>
      p in CacheAfter(cache, decoded, fetches, k) &&
      CacheAfter(cache, decoded, fetches, k)[p] == LastFetched(decoded, fetches, k, p).value
    ensures LastFetched(decoded, fetches, k, p).None? ==>
      (p in CacheAfter(cache, decoded, fetches, k) <==> p in cache) &&
      (p in cache ==> CacheAfter(cache, decoded, fetches, k)[p] == cache[p])
  {
    if k > 0 {
      CacheAfterAgrees(cache, decoded, fetches, k - 1, p);
    }
  }

  /** The editor's local state. */
  class Editor {
    var rows: array<Row>
    var cache: map<string, seq<TaskOption>>
    var bulk: Row
    /** Every (project, task list) pair a fetch has delivered. */
    ghost var fetched: set<(string, seq<TaskOption>)>

    /** A non-empty options list shown with a project was fetched for that project. */
    ghost predicate Belongs(project: string, options: seq<TaskOption>)
      reads this
    {
      options == [] || (project, options) in fetched
    }

    /** Eight rows; no row, nor the bulk row, nor the cache pairs a task list
        with a project it was not fetched for. */
    ghost predicate Valid()
      reads this, rows
    {
      && rows.Length == HOURS_PER_DAY
      && (forall i :: 0 <= i < rows.Length ==> Belongs(rows[i].project, rows[i].taskOptions))
      && Belongs(bulk.project, bulk.taskOptions)
      && (forall p :: p in cache ==> (p, cache[p]) in fetched)
    }

    /** The form as first rendered: 8 empty rows, an empty cache and bulk row. */
    constructor ()
      ensures Valid() && fresh(rows)
      ensures forall i :: 0 <= i < rows.Length ==> rows[i] == EMPTY_ROW
      ensures cache == map[] && bulk == EMPTY_ROW
    {
      rows := new Row[HOURS_PER_DAY](_ => EMPTY_ROW);
      cache := map[];
      bulk := EMPTY_ROW;
      fetched := {};
    }

    /** `handleBulkAssign`: copy the bulk row to every hour, if it names a project and a task. */
    method BulkAssign()
      requires Valid()
      modifies rows
      ensures Valid()
      ensures !IsComplete(bulk) ==> rows[..] == old(rows[..])
      ensures IsComplete(bulk) ==> forall i :: 0 <= i < rows.Length ==> rows[i] == bulk
    {
      if IsComplete(bulk) {
        var i := 0;
        while i < rows.Length
          invariant 0 <= i <= rows.Length
          invariant forall j :: 0 <= j < i ==> rows[j] == bulk
          invariant forall j :: i <= j < rows.Length ==> rows[j] == old(rows[j])
        {
          rows[i] := bulk;
          i := i + 1;
        }
      }
    }

    /** `handleProjectChange(index, projectId)`: set the row's project, clear its
        task and options, then fetch the project's tasks unless they are cached
        (or the project is empty). `requested` says whether a fetch was issued;
        `fetch` is its outcome. A failed fetch leaves the options empty. */
    method ProjectChange(index: nat, projectId: string, fetch: Settled<seq<TaskOption>>) returns (requested: bool)
      requires Valid() && index < rows.Length
      modifies this, rows
      ensures Valid() && rows == old(rows) && bulk == old(bulk)
      ensures requested <==> projectId != "" && projectId !in old(cache)
      ensures forall j :: 0 <= j < rows.Length && j != index ==> rows[j] == old(rows[j])
      ensures rows[index] == old(rows[index]).(project := projectId, task := "", taskOptions :=
        if requested then (if fetch.Fulfilled? then fetch.value else [])
        else if projectId != "" then old(cache)[projectId] else [])
      ensures cache == if requested && fetch.Fulfilled? then old(cache)[projectId := fetch.value] else old(cache)
    {
      rows[index] := rows[index].(project := projectId, task := "", taskOptions := []);
      requested := projectId != "" && projectId !in cache;
      if requested {
        if fetch.Fulfilled? {
          cache := cache[projectId := fetch.value];
          fetched := fetched + {(projectId, fetch.value)};
          rows[index] := rows[index].(taskOptions := fetch.value);
        }
      } else if projectId != "" {
        rows[index] := rows[index].(taskOptions := cache[projectId]);
      }
    }

    /** `handleBulkProjectChange(projectId)`: the same for the bulk row. */
    method BulkProjectChange(projectId: string, fetch: Settled<seq<TaskOption>>) returns (requested: bool)
      requires Valid()
      modifies this
      ensures Valid() && rows == old(rows)
      ensures requested <==> projectId != "" && projectId !in old(cache)
      ensures bulk == old(bulk).(project := projectId, task := "", taskOptions :=
        if requested then (if fetch.Fulfilled? then fetch.value else [])
        else if projectId != "" then old(cache)[projectId] else [])
      ensures cache == if requested && fetch.Fulfilled? then old(cache)[projectId := fetch.value] else old(cache)
    {
      bulk := bulk.(project := projectId, task := "", taskOptions := []);
      requested := projectId != "" && projectId !in cache;
      if requested {
        if fetch.Fulfilled? {
          cache := cache[projectId := fetch.value];
          fetched := fetched + {(projectId, fetch.value)};
          bulk := bulk.(taskOptions := fetch.value);
        }
      } else if projectId != "" {
        bulk := bulk.(taskOptions := cache[projectId]);
      }
    }

    /** The bulk row's task select. */
    method SetBulkTask(value: string)
      requires Valid()
      modifies this`bulk
      ensures Valid() && bulk == old(bulk).(task := value)
    {
      bulk := bulk.(task := value);
    }

    /** The bulk row's details input. */
    method SetBulkDetails(value: string)
      requires Valid()
      modifies this`bulk
      ensures Valid() && bulk == old(bulk).(details := value)
    {
      bulk := bulk.(details := value);
    }

    /** `handleChange(index, field, value)`: one field of one row. */
    method Change(index: nat, field: Field, value: string)
      requires Valid() && index < rows.Length
      modifies rows
      ensures Valid()
      ensures forall j :: 0 <= j < rows.Length && j != index ==> rows[j] == old(rows[j])
      ensures rows[index] == match field
        case TaskField => old(rows[index]).(task := value)
        case DetailsField => old(rows[index]).(details := value)
    {
      match field
      case TaskField => rows[index] := rows[index].(task := value);
      case DetailsField => rows[index] := rows[index].(details := value);
    }

    /** Records the task options `v` fetched for project `p` and hands them
        to every row showing `p`. */
    method Offer(p: string, v: seq<TaskOption>)
      modifies this, rows
      ensures rows == old(rows) && bulk == old(bulk)
      ensures cache == old(cache)[p := v] && fetched == old(fetched) + {(p, v)}
      ensures forall j :: 0 <= j < rows.Length ==>
        rows[j] == if old(rows[j]).project == p then old(rows[j]).(taskOptions := v) else old(rows[j])
    {
      cache := cache[p := v];
      fetched := fetched + {(p, v)};
      forall j | 0 <= j < rows.Length && rows[j].project == p {
        rows[j] := rows[j].(taskOptions := v);
      }
    }

    /** The prefill loop of an edited day: show the decoded rows, then fetch
        the tasks of every row that names a project (cached or not) and give
        the fetched list to the cache and to every row of that project.
        `fetches[k]` is the outcome of row k's fetch. */
    method Prefill(decoded: seq<Row>, fetches: seq<Settled<seq<TaskOption>>>)
      requires Valid()
      requires |decoded| == HOURS_PER_DAY && |fetches| == HOURS_PER_DAY
      requires forall j :: 0 <= j < |decoded| ==> decoded[j].taskOptions == []
      modifies this, rows
      ensures Valid() && rows == old(rows) && bulk == old(bulk)
      ensures forall j :: 0 <= j < rows.Length ==>
        rows[j] == decoded[j].(taskOptions := LastFetched(decoded, fetches, |decoded|, decoded[j].project).GetOr([]))
      ensures cache == CacheAfter(old(cache), decoded, fetches, |decoded|)
      ensures forall j :: 0 <= j < rows.Length && LastFetched(decoded, fetches, |decoded|, rows[j].project).Some? ==>
        rows[j].project in cache && rows[j].taskOptions == cache[rows[j].project]
    {
      forall j | 0 <= j < rows.Length {
        rows[j] := decoded[j];
      }
      ghost var cache0 := cache;
      var k := 0;
      while k < |decoded|
        invariant 0 <= k <= |decoded|
        invariant rows == old(rows) && rows.Length == HOURS_PER_DAY && bulk == old(bulk)
        invariant forall j :: 0 <= j < rows.Length ==>
          rows[j] == decoded[j].(taskOptions := LastFetched(decoded, fetches, k, decoded[j].project).GetOr([]))
        invariant cache == CacheAfter(cache0, decoded, fetches, k)
        invariant old(fetched) <= fetched
        invariant forall p :: p in cache ==> (p, cache[p]) in fetched
        invariant forall j :: 0 <= j < rows.Length ==> Belongs(rows[j].project, rows[j].taskOptions)
      {
        var p := decoded[k].project;
        if p != "" && fetches[k].Fulfilled? {
          Offer(p, fetches[k].value);
        }
        k := k + 1;
      }
      forall j | 0 <= j < rows.Length
        ensures LastFetched(decoded, fetches, k, rows[j].project).Some? ==>
          rows[j].project in cache && rows[j].taskOptions == cache[rows[j].project]
      {
        CacheAfterAgrees(cache0, decoded, fetches, k, rows[j].project);
      }
    }

    /** `handleSaveDay`: post the 8 rows as they stand and pick the notice.
        The button is disabled unless AllRowsComplete, but the handler itself
        does not check. A rejected save always shows the generic notice: the
        payload `unwrap()` throws is the message string itself, whose
        `.message` is undefined. */
    method SaveDay(date: Day, editing: bool, reply: Reply<Envelope<()>>)
      returns (items: seq<PostItem>, outcome: Settled<DayForm>, notice: string)
      requires Valid()
      ensures |items| == HOURS_PER_DAY
      ensures items == DayTasksSlice.EncodeRows(date, rows[..])
      ensures outcome == DayTasksSlice.SaveDayTasks(DayForm(date, rows[..]), reply)
      ensures outcome.Rejected? ==> notice == SAVE_FAILED_NOTICE
      ensures outcome.Fulfilled? ==> notice == if editing then UPDATED_NOTICE else SAVED_NOTICE
    {
      items := DayTasksSlice.EncodeRows(date, rows[..]);
      outcome := DayTasksSlice.SaveDayTasks(DayForm(date, rows[..]), reply);
      notice := if outcome.Fulfilled? then (if editing then UPDATED_NOTICE else SAVED_NOTICE) else SAVE_FAILED_NOTICE;
    }
  }
}

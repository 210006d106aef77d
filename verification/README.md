# Timesheet client: a Dafny model

This project models the logic layer of a React/Redux timesheet client. Employees fill in eight hours a day against projects and tasks. They send days to their manager. The manager accepts or rejects them. HTTP, rendering and the browser are left out. What remains is modelled and proved:

- **The day-entry editor** (`TaskForm`). A class holds:
  - an 8-slot array of rows;
  - a cache from project to task list;
  - a "bulk" row.

  Its handlers are methods with frame conditions. These are per-row project change, per-field edit, bulk project change, bulk assign, the prefill loop of an edited day, and save. The completion percentage and the save gate are functions.
- **The wire format** (`DayTasksSlice`, `SheetSlice`). A server day record is decoded into exactly 8 rows, by position. Rows are encoded as POST items `{day, hour, taskId, details}`, with `taskId` read by `parseInt` (`Js.ParseInt`). Several days are flattened into one batch. Lemmas connect decoding, encoding and flattening.
- **The review workflow** (`EmployeeProfile`, `TimeSheet`, `Selection`):
  - status/date filters;
  - the selection list (toggle, select-all, clear);
  - active hours;
  - the send / accept / reject handlers, which send nothing for an empty selection and clear the selection only on success.
- **Decisions and request lifecycles**:
  - the route guard (`App`) and the greeting formatter (`Profile`);
  - each slice's thunk, as a function from a reply to a `Settled` outcome;
  - each slice's reducers, as a class whose methods update `status`, `error` and data in place;
  - session restore, login and logout against a local-storage map (`AuthSlice`).

Shared modules:

- `Js` models the JavaScript semantics the client relies on. These are truthiness, `a || b`, `String(v)` and `parseInt(s, 10)`.
- `Thunk` models how Redux Toolkit reports a thunk's outcome to reducers:
  - `rejectWithValue(v)` sets `action.payload`;
  - a thrown error sets only `action.error.message`.

  This difference decides what several reducers store as `error`.
- `Records` holds the wire records and the order-preserving day filter.

A `fetch` reply is an input value (`Thunk.Reply`): a network failure, or a response with its `ok` flag and either a parsed body or the SyntaxError `response.json()` throws. Days are integers (days since the epoch), so they compare as `Date` values do.

Where the code and its evident intent differ, the model follows the code:

- A failed save always shows "Failed to save tasks" (`TaskForm.Editor.SaveDay`). `unwrap()` throws the rejection payload, which is the message string itself, so `error.message` is undefined.
- A failed task-list fetch in `handleProjectChange` / `handleBulkProjectChange` shows no notification. `dispatch` does not throw on a rejected thunk, so the `catch` branch never runs. The row just keeps an empty options list.
- Decoding takes hour `i` from `hours[i]`, by position. The employee page looks a cell up by its `hour` field. `EmployeeProfile.LookupAgreesWithPosition` shows that the two agree when hours are listed in order.

## Model

| member | source | states |
|---|---|---|
| TaskForm.Editor.constructor | src/components/TaskForm.jsx:33-40 | the form starts as 8 empty rows, with an empty cache and an empty bulk row |
| TaskForm.AllRowsComplete | src/components/TaskForm.jsx:62 | the left-to-right `every` check holds iff every row has both a project and a task |
| TaskForm.CompleteCount | src/components/TaskForm.jsx:57-58 | the number of complete rows is at most the row count; it equals the row count iff every row is complete, and is 0 iff none is |
| TaskForm.CompletionPercentage | src/components/TaskForm.jsx:57-60 | the percentage lies in [0, 100]; it is 100 iff every row has a project and a task, and 0 iff none has |
| TaskForm.Percentage | src/components/TaskForm.jsx:57-60 | n/m·100 with 0 ≤ n ≤ m lies in [0, 100] and reaches its ends exactly at n = 0 and n = m |
| TaskForm.Editor.BulkAssign | src/components/TaskForm.jsx:139-148 | a bulk row without project or task changes nothing; otherwise every one of the 8 rows becomes the bulk row; the list of task options always belongs to its project |
| TaskForm.Editor.BulkProjectChange | src/components/TaskForm.jsx:156-188 | sets the bulk project and clears its task; a fetch is issued iff the project is non-empty and uncached; the options become the fetched list, the cached list, or stay empty (failed fetch or empty project); the cache grows only on a successful fetch |
| TaskForm.Editor.ProjectChange | src/components/TaskForm.jsx:191-231 | row i gets the project with no task; its options are the fetched list, the cached list, or empty; a fetch is issued iff the project is non-empty and uncached; only a successful fetch enters the cache; every other row is unchanged |
| TaskForm.Editor.Change | src/components/TaskForm.jsx:233-239 | only the named field of row i changes; every other row is unchanged |
| TaskForm.Editor.SetBulkTask | src/components/TaskForm.jsx:358-361 | only the bulk row's task changes |
| TaskForm.Editor.SetBulkDetails | src/components/TaskForm.jsx:374-377 | only the bulk row's details change |
| TaskForm.Editor.Prefill | src/components/TaskForm.jsx:75-96 | the decoded rows are shown; each row's options are the last successful fetch for its project (or empty); the cache records the same lists; every fetched row agrees with the cache |
| TaskForm.Editor.Offer | src/components/TaskForm.jsx:81-92 | one successful fetch: the cache maps the project to the fetched list, every row of that project shows it, every other row is unchanged |
| TaskForm.CacheAfterAgrees | src/components/TaskForm.jsx:78-96 | after the prefill loop the cache maps each fetched project to the list its rows show, and leaves every other entry as it was |
| TaskForm.Editor.SaveDay | src/components/TaskForm.jsx:241-267 | posts exactly 8 items, the rows as they stand; the success notice depends on whether the day was being edited; any failure shows the generic notice |
| DayTasksSlice.HourAt | src/redux/dayTasksSlice.js:30 | the hour at position i exists iff i is below the number of hours, and is that entry |
| DayTasksSlice.DecodeRows | src/redux/dayTasksSlice.js:29-37 | always 8 rows with no task options; row i takes project, task text and details from hours[i]; rows past the listed hours are empty |
| DayTasksSlice.FetchDayTasks | src/redux/dayTasksSlice.js:4-47 | the fetch succeeds iff the reply is ok, parsed, succeeded and lists at least one day, and then yields the 8 decoded rows of the first day; non-ok gives "Failed to fetch day tasks"; `succeeded = false` gives the server message or that default; an empty day list gives the TypeError for reading 'hours' and a missing `data` the one for reading '0'; a network failure or an unparsable ok body is rejected with its own message; every rejection carries a payload |
| DayTasksSlice.EncodeRows | src/redux/dayTasksSlice.js:54-59 | one item per row in order, with day = date, hour = index + 1, taskId = parseInt(task), and details or "N/A" |
| DayTasksSlice.SaveDayTasks | src/redux/dayTasksSlice.js:49-85 | the save succeeds iff the reply is ok, parsed and succeeded, and then returns the form unchanged; non-ok gives "Failed to save day tasks"; `succeeded = false` gives the server message or that default; a network failure or an unparsable ok body is rejected with its own message |
| DayTasksSlice.DecodeThenEncode | src/redux/dayTasksSlice.js:29-37 | decoding a day and encoding it back keeps each hour's date and position; a numeric task name returns as the same task id; details return, or become "N/A"; a missing hour is posted with a NaN task id |
| DayTasksSlice.NamedTaskEncodesAsNaN | src/redux/dayTasksSlice.js:33 | a task given by a name that starts with a letter is posted back with a NaN task id |
| DayTasksSlice.DayTasksState.constructor | src/redux/dayTasksSlice.js:89-94 | starts with no day, no rows, idle, no error |
| DayTasksSlice.DayTasksState.ClearCurrentDay | src/redux/dayTasksSlice.js:96-101 | resets to no day, no rows, idle, no error |
| DayTasksSlice.DayTasksState.OnPending | src/redux/dayTasksSlice.js:105-107 | loading; nothing else changes |
| DayTasksSlice.DayTasksState.OnSettled | src/redux/dayTasksSlice.js:108-128 | success records the day and its rows and keeps an earlier error; failure records the payload as error and keeps the day and rows |
| Js.ParseInt | src/redux/dayTasksSlice.js:57 | blank text parses to NaN; a text starting with a digit parses to a number of at least 0; a negative result needs a minus sign in the text |
| Js.ParseIntOfString | src/redux/dayTasksSlice.js:57 | parseInt reads back any integer String() wrote, when a non-digit or nothing follows it |
| Js.ParseIntOfText | src/redux/dayTasksSlice.js:57 | a text that starts with neither white space, a sign nor a digit parses to NaN |
| Js.DecimalValue | src/redux/dayTasksSlice.js:33 | the numeral `toString()` writes for n has value n |
| Js.TrimStartSkipsSpace | src/redux/dayTasksSlice.js:57 | parseInt's skipping step leaves a suffix of the text that is empty or starts with something other than white space |
| Js.DigitRunIsLongest | src/redux/dayTasksSlice.js:57 | the digits parseInt reads are a prefix of the text and the character after them is not a digit |
| SheetSlice.FlattenDays | src/redux/sheetSlice.js:13-21 | the batch has one item per row across all days |
| SheetSlice.FlattenAt | src/redux/sheetSlice.js:13-18 | row i of day j lands after the rows of the earlier days, with that day's date, hour i + 1, taskId = parseInt(task) and details or "N/A" |
| SheetSlice.ConcatAt | src/redux/sheetSlice.js:13 | in a `flatMap` result, item i of block j sits at the total length of the blocks before it plus i |
| SheetSlice.PostSelectedTasks | src/redux/sheetSlice.js:5-42 | fulfils iff the reply is ok and parsed; non-ok gives the body's message or "Error posting tasks"; a network failure, or a body that is not JSON whatever the status, gives the error's message or "Network error"; every rejection carries a non-empty message |
| SheetSlice.SheetState.constructor | src/redux/sheetSlice.js:47-50 | starts idle with no error |
| SheetSlice.SheetState.OnSettled | src/redux/sheetSlice.js:57-63 | success does not clear an earlier error; failure records the payload |
| SheetSlice.SheetState.OnPending | src/redux/sheetSlice.js:54-56 | loading; the error stays |
| Records.FilterDays | src/components/Employeeprofile.jsx:51 | the filtered list is a sublist of the input, in order, holding exactly the days the predicate keeps |
| EmployeeProfile.ViewStatus | src/components/Employeeprofile.jsx:52-65 | the view modes "pending", "accepted" and "rejected" show Posted, Accepted and Rejected days; any other mode shows none |
| EmployeeProfile.FilteredData | src/components/Employeeprofile.jsx:51-66 | a sublist of the sheet that holds exactly the days with the view's status within the inclusive range; empty for an unknown view |
| EmployeeProfile.FindHour | src/components/Employeeprofile.jsx:261 | the cell shows the first entry whose hour is h + 1; "No Data" iff there is none |
| EmployeeProfile.LookupAgreesWithPosition | src/components/Employeeprofile.jsx:260-261 | on a day whose hours are listed 1, 2, …, the cell lookup and the form's positional decoding pick the same entry |
| EmployeeProfile.SelectAllShown | src/components/Employeeprofile.jsx:68-74 | select-all clears the selection when it is as long as the shown list, and otherwise selects exactly the shown days; every selected day is a shown day |
| EmployeeProfile.StatusUpdate | src/components/Employeeprofile.jsx:82-119 | an empty selection sends nothing; otherwise the body is the employee id, the selected days and the status; success clears the selection and refetches when the range is set; failure keeps the selection; the notice names accept/reject |
| Selection.Without | src/components/Employeeprofile.jsx:78 | removing a day keeps exactly the other selected days, and introduces no duplicate |
| Selection.Toggled | src/components/Employeeprofile.jsx:76-80 | toggling flips the membership of that day only and never introduces a duplicate |
| Selection.ToggleTwice | src/components/TimeSheet.jsx:63-71 | toggling an unselected day twice restores the selection |
| Selection.WithoutAbsent | src/components/TimeSheet.jsx:66 | removing a day that is not selected changes nothing |
| Selection.WithoutAppended | src/components/TimeSheet.jsx:66-68 | removing a day that was just appended gives the earlier selection back |
| Selection.SelectAll | src/components/Employeeprofile.jsx:69-73 | selections as long as the shown list become empty; any other selection becomes the shown days |
| Selection.SelectAllTwice | src/components/Employeeprofile.jsx:68-74 | pressing select-all twice either clears everything or selects all shown days |
| Selection.DaySelection.constructor | src/components/TimeSheet.jsx:19 | the selection starts empty |
| Selection.DaySelection.Toggle | src/components/TimeSheet.jsx:63-71 | the selection becomes the toggled list; the day's membership flips; no duplicate appears |
| Selection.DaySelection.SelectAllVisible | src/components/Employeeprofile.jsx:68-74 | the selection becomes the select-all result |
| Selection.DaySelection.Clear | src/components/TimeSheet.jsx:116 | the selection becomes empty |
| TimeSheet.FilterTasks | src/components/TimeSheet.jsx:39-53 | exactly the Submitted days within the inclusive window, in order |
| TimeSheet.RejectedTasks | src/components/TimeSheet.jsx:56 | exactly the Rejected days, in order |
| TimeSheet.ActiveRejectedSplit | src/components/TimeSheet.jsx:56-61 | the active days and the rejected days together account for every day |
| TimeSheet.TotalActiveHours | src/components/TimeSheet.jsx:59-61 | a multiple of 8, at most 8 per day, and 8 × (days − rejected days) |
| TimeSheet.SendSelected | src/components/TimeSheet.jsx:107-125 | an empty selection sends nothing; otherwise the selected days go out with status 1 and no user id; success clears the selection; failure keeps it and blames a day already sent |
| App.Redirect | src/App.jsx:17-39 | without a token, every path outside "/login…" goes to /login; a manager outside the five manager prefixes goes to /dashboard; an employee outside the three employee prefixes goes to /task-form; otherwise nothing happens |
| App.RedirectIsStable | src/App.jsx:19-38 | the guard's target is itself not redirected |
| App.EmployeePathsAreManagerPaths | src/App.jsx:22-28 | every path an employee may open, a manager may open too |
| App.ExtensionStaysAllowed | src/App.jsx:23-29 | matching is by prefix: a path the guard lets through stays allowed with anything appended, so "/profile-settings" passes like "/profile" |
| App.ManagerPagesSendEmployeesToTaskForm | src/App.jsx:23-29 | a signed-in employee on any path under "/dashboard" or "/employee" is sent to "/task-form" |
| Profile.FirstSegment | src/components/Profile.jsx:15 | the text before the first "." is a prefix without "." that stops at a "." or at the end |
| Profile.Upper | src/components/Profile.jsx:16 | upper-casing leaves no lower-case ASCII letter and never creates or removes a "." |
| Profile.FormatName | src/components/Profile.jsx:14-17 | the greeting has the first segment's length, contains no ".", and starts with the upper-cased first character |
| Profile.FirstSegmentNoDot | src/components/Profile.jsx:15 | a text without "." is its own first segment |
| Profile.NoDotOnlyFirstCharChanges | src/components/Profile.jsx:15-16 | a name without "." keeps its length and changes at most its first character |
| Profile.FormatNameIdempotent | src/components/Profile.jsx:15-16 | formatting a formatted name changes nothing |
| Profile.DisplayName | src/components/Profile.jsx:19 | a greeting exists iff the stored user name is a string; null throws |
| AuthSlice.Stored | src/redux/authSlice.js:13-16 | a stored key reads as its text when non-empty, and as null otherwise |
| AuthSlice.ParseStored | src/redux/authSlice.js:17 | an absent flag parses to null; "true", "false" and "null" parse to their values; every other text is the SyntaxError (None); the parsed flag is a boolean or null |
| AuthSlice.OrNull | src/redux/authSlice.js:17 | a truthy value stays, a falsy one becomes null |
| AuthSlice.RestoreSession | src/redux/authSlice.js:12-20 | the four fields are the stored texts or null; the restore fails (the module throws) exactly when the stored flag is a text other than "true", "false" and "null"; otherwise the flag is the parsed value, or null when that is falsy, so a stored "true" gives true and an absent flag null |
| AuthSlice.StoreSession | src/redux/authSlice.js:73-77 | the five keys are written: String() of the four fields and JSON text of the flag; every other key is kept |
| AuthSlice.RestoreAfterLogin | src/redux/authSlice.js:13-17 | a reload after login gives back a non-empty token, user name and e-mail unchanged; a numeric user id comes back as text, a null e-mail as "null", and a false flag as null |
| AuthSlice.RestoreAfterLogout | src/redux/authSlice.js:12-17 | after logout a reload restores the signed-out session |
| AuthSlice.LoginUser | src/redux/authSlice.js:22-43 | fulfils iff the reply is ok, parses and carries data, with that data; non-ok throws the server message or "Login failed"; every failure is thrown |
| AuthSlice.AuthState.constructor | src/redux/authSlice.js:12-20 | the initial session is the restored one, idle, no error |
| AuthSlice.AuthState.OnLoginPending | src/redux/authSlice.js:60-62 | loading; the session and error stay |
| AuthSlice.AuthState.OnLoginSettled | src/redux/authSlice.js:63-82 | success copies the session and writes it to storage; failure records the error message and leaves the session and storage unchanged |
| AuthSlice.AuthState.Logout | src/redux/authSlice.js:49-56 | all five session fields become null and storage is emptied; status and error stay |
| AcceptSlice.UpdateStatus | src/redux/acceptSlice.js:6-43 | fulfils iff the reply is ok and parsed; non-ok gives the body's message or "Failed to update status", or the invalid-response message when the body is not JSON; a thrown error gives its message or "Failed to connect to the server"; every rejection is non-empty |
| AcceptSlice.AcceptState.constructor | src/redux/acceptSlice.js:48-51 | starts idle with no error |
| AcceptSlice.AcceptState.OnPending | src/redux/acceptSlice.js:55-58 | loading, with the error cleared |
| AcceptSlice.AcceptState.OnSettled | src/redux/acceptSlice.js:59-66 | success clears the error; failure records the payload; an error only ever accompanies a failure |
| StatusSlice.SendBody | src/redux/statusSlice.js:17-21 | the body has no user id, the selected days and status 1 |
| StatusSlice.UpdateStatus | src/redux/statusSlice.js:6-34 | fulfils iff the reply is ok and parsed; any non-ok reply gives "Failed to update status", whatever the body says; a thrown error gives its message |
| StatusSlice.StatusState.constructor | src/redux/statusSlice.js:39-42 | starts idle with no error |
| StatusSlice.StatusState.OnPending | src/redux/statusSlice.js:46-48 | loading; the error stays |
| StatusSlice.StatusState.OnSettled | src/redux/statusSlice.js:49-56 | success clears the error; failure records the payload |
| EmployeeSheetSlice.FetchEmployeeSheet | src/redux/employeeSheetSlice.js:13-35 | fulfils iff the reply is ok and parsed, with the body's data field; non-ok gives "Failed to fetch data"; a network failure, or an ok body that is not JSON, gives the error's message |
| EmployeeSheetSlice.EmployeeSheetState.constructor | src/redux/employeeSheetSlice.js:6-10 | starts with no data, idle, no error |
| EmployeeSheetSlice.EmployeeSheetState.Reset | src/redux/employeeSheetSlice.js:42-46 | restores no data, idle, no error |
| EmployeeSheetSlice.EmployeeSheetState.OnPending | src/redux/employeeSheetSlice.js:50-52 | loading; the data stays |
| EmployeeSheetSlice.EmployeeSheetState.OnSettled | src/redux/employeeSheetSlice.js:53-60 | success replaces the data; failure records the payload and keeps the data |
| ViewsheetSlice.WindowStart | src/redux/viewsheetSlice.js:8-11 | the window starts on the 25th of the previous month (December of the year before in January), strictly before today |
| ViewsheetSlice.RequestWindow | src/redux/viewsheetSlice.js:8-13 | the window ends today and starts before it |
| ViewsheetSlice.FetchSheetData | src/redux/viewsheetSlice.js:5-28 | fulfils iff the reply is ok and parsed, with the whole body; non-ok gives "Error fetching data" as payload; a network failure or a body that is not JSON is thrown |
| ViewsheetSlice.ViewsheetState.constructor | src/redux/viewsheetSlice.js:32-36 | starts with an empty data list, idle, no error |
| ViewsheetSlice.ViewsheetState.OnPending | src/redux/viewsheetSlice.js:40-42 | loading; the data stays |
| ViewsheetSlice.ViewsheetState.OnSettled | src/redux/viewsheetSlice.js:43-50 | success sets the data, or [] when it is missing; failure sets the payload or "Failed to load data"; the data is never missing and a failure always has a message |
| ViewsheetSlice.NetworkFailureShowsGenericMessage | src/redux/viewsheetSlice.js:47-50 | a network failure reaches the page as "Failed to load data" |
| TasksSlice.FetchTasks | src/redux/tasksSlice.js:5-36 | without a token it throws "Authorization token is missing" and looks at no reply; non-ok throws "Failed to fetch tasks"; `succeeded = false` or a non-array throws "Invalid tasks response"; an ok reply with a JSON body that succeeded and lists an array fulfils with exactly the listed tasks; a network failure or an unparsable body is thrown with its message |
| TasksSlice.TasksState.constructor | src/redux/tasksSlice.js:44-48 | starts with no tasks, idle, no error |
| TasksSlice.TasksState.OnPending | src/redux/tasksSlice.js:52-54 | loading; the tasks stay |
| TasksSlice.TasksState.OnSettled | src/redux/tasksSlice.js:55-62 | success replaces the tasks; failure records the error message and keeps the tasks |
| ProjectsSlice.ProjectList | src/redux/projectsSlice.js:29 | an array is taken as is; anything else becomes [] |
| ProjectsSlice.FetchProjects | src/redux/projectsSlice.js:5-31 | without a token it throws "Authorization token is missing"; non-ok throws "Failed to fetch projects"; an ok reply with a JSON body fulfils with the normalised list; a network failure or an unparsable body is thrown with its message |
| ProjectsSlice.ProjectsState.constructor | src/redux/projectsSlice.js:35-39 | starts with no projects, idle, no error |
| ProjectsSlice.ProjectsState.OnPending | src/redux/projectsSlice.js:43-45 | loading; the projects stay |
| ProjectsSlice.ProjectsState.OnSettled | src/redux/projectsSlice.js:46-53 | success replaces the projects; failure records the error message and keeps the projects |
| EmployeesSlice.FetchEmployees | src/redux/employeeSlice.js:13-31 | fulfils iff the reply is ok and parsed, with the body's data field; non-ok gives "Failed to fetch employees" as payload; a network failure or a body that is not JSON is thrown |
| EmployeesSlice.EmployeesState.constructor | src/redux/employeeSlice.js:6-10 | starts with an empty employee list, idle, no error |
| EmployeesSlice.EmployeesState.OnPending | src/redux/employeeSlice.js:40-42 | loading; the employees stay |
| EmployeesSlice.EmployeesState.OnSettled | src/redux/employeeSlice.js:43-50 | success replaces the employees; failure records the payload (none for a thrown error) and keeps the employees |
| EmployeesSlice.NetworkFailureLeavesNoMessage | src/redux/employeeSlice.js:47-50 | a network failure leaves the slice's error null |

## Left out

- HTTP transport. Every `fetch` is an input `Reply` value: a network failure with its message, or a status and a parsed or unparsable body. A body that parses to something other than an object (`null`, a number) is not modelled.
- Async ordering. Only one request is modelled at a time. Responses that arrive out of order are not modelled, nor the stale-response race of the form's `initializeForm` effect. The effect itself is not modelled either: the projects fetch, the `fetchDayTasks(date, "no data")` call, and the "day already exists" check through an unimported `apii`. Only its prefill loop (`TaskForm.Editor.Prefill`) is.
- Dates and time zones. Days are integers. `toISOString` conversions and the UTC shift they can cause are not modelled. `ViewsheetSlice.WindowStart` works on calendar triples. TimeSheet's window bounds are parameters.
- Timers, navigation and reloads (`setTimeout`, `navigate`, `window.location.reload`), and all rendering. This includes the `dayData[index]` display fallbacks and the `details !== 'null'` display check.
- `handleDelete` in the time-sheet page. It fetches through an undefined `API_URL`, so it only ever fails at run time.
- `Header`, `Login`, `MDashboard`, the store and the Tailwind configuration. They are markup and configuration.
- Profile.Upper: only ASCII letters are upper-cased. Unicode case mapping, which can change a string's length, is not modelled.
- Js.ParseInt: only ASCII white space is skipped. Numbers are integers, so fractional or exponent notation is not modelled.
- AuthSlice.JsonText: JSON string escapes are not modelled.
- AuthSlice.ParseStored: only the texts "true", "false" and "null" are parsed. Any other stored flag is treated as the SyntaxError `JSON.parse` throws on most texts. A stored number or quoted string, which would parse, is not modelled.
- DayTasksSlice.FetchDayTasks: a falsy `data` other than null/undefined (false, 0, "") is reported with the same TypeError text as a missing one. A missing `hours` list, and project or detail fields that are not strings, are not modelled.
- EmployeeProfile.FilteredData: takes the sheet's day list as a plain sequence. When the slice's `data` is not an array (an ok reply without a `data` field, `ListField.Absent`), the page's `.filter` throws a TypeError during render; that crash is not modelled.
- TimeSheet.FilterTasks, TimeSheet.RejectedTasks and TimeSheet.TotalActiveHours: the same holds for the time-sheet page, whose `.filter` calls throw during render when the viewsheet data is not an array (`ListField.NotAList`); the model starts from an array.
- AuthSlice.LoginUser: a login body whose `data` is null is reported with the TypeError text for a missing one (`NO_SESSION_DATA`, "as it is undefined."); the engine's text for null says "null".
- DayTasksSlice.FetchDayTasks: a `data` field that is null is reported like a missing one, with the text for reading '0' of undefined (`TypeErrorReading("0")`); the engine's text for null says "null".
- TaskForm.Editor.Change: only the "task" and "details" fields are modelled, the two the page edits through `handleChange`.
- TaskForm.Editor.SaveDay: the save button's gate (`AllRowsComplete`) is not re-checked. The handler itself does not check it.

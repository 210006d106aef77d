/** The route guard of the application shell: from the session's token and
    role and the current path, the page to navigate to, if any. */
module App {
  import opened Js

  const LOGIN := "/login"
  const DASHBOARD := "/dashboard"
  const TASK_FORM := "/task-form"

  /** The path prefixes a manager may stay on. */
  const MANAGER_PATHS: seq<string> := ["/dashboard", "/task-form", "/time-sheet", "/profile", "/employee"]
  /** The path prefixes an employee may stay on. */
  const EMPLOYEE_PATHS: seq<string> := ["/task-form", "/time-sheet", "/profile"]

  /** `allowed.some(p => path.startsWith(p))`. */
  predicate Allowed(allowed: seq<string>, path: string) {
    exists i :: 0 <= i < |allowed| && allowed[i] <= path
  }

  /** The redirect decision: None leaves the user where they are. */
  function Redirect(token: Scalar, isManager: Scalar, path: string): (target: Option<string>)
    ensures !Truthy(token) ==> (target.None? <==> LOGIN <= path)
    ensures !Truthy(token) && target.Some? ==> target.value == LOGIN
    ensures Truthy(token) && Truthy(isManager) ==>
      (target.None? <==> Allowed(MANAGER_PATHS, path)) && (target.Some? ==> target.value == DASHBOARD)
    ensures Truthy(token) && !Truthy(isManager) ==>
      (target.None? <==> Allowed(EMPLOYEE_PATHS, path)) && (target.Some? ==> target.value == TASK_FORM)
  {
    if Truthy(token) then
      if Truthy(isManager) then
        if Allowed(MANAGER_PATHS, path) then None else Some(DASHBOARD)
      else
        if Allowed(EMPLOYEE_PATHS, path) then None else Some(TASK_FORM)
    else
      if LOGIN <= path then None else Some(LOGIN)
  }

  /** Whatever an employee may open, a manager may open too. */
  lemma EmployeePathsAreManagerPaths(path: string)
    ensures Allowed(EMPLOYEE_PATHS, path) ==> Allowed(MANAGER_PATHS, path)
  {
    if Allowed(EMPLOYEE_PATHS, path) {
      var i :| 0 <= i < |EMPLOYEE_PATHS| && EMPLOYEE_PATHS[i] <= path;
      assert MANAGER_PATHS[i + 1] == EMPLOYEE_PATHS[i];
    }
  }

  /** Applying the guard to its own target causes no further redirect. */
  lemma RedirectIsStable(token: Scalar, isManager: Scalar, path: string)
    requires Redirect(token, isManager, path).Some?
    ensures Redirect(token, isManager, Redirect(token, isManager, path).value).None?
  {
    if Truthy(token) {
      if Truthy(isManager) {
        assert MANAGER_PATHS[0] <= DASHBOARD;
      } else {
        assert EMPLOYEE_PATHS[0] <= TASK_FORM;
      }
    }
  }

  /** A text is not a prefix of another it differs from at some position. */
  lemma DiffersAt(p: string, s: string, k: nat)
    requires k < |p| && k < |s| && p[k] != s[k]
    ensures !(p <= s)
  {
  }

  /** Matching is by prefix: a path the guard lets through stays allowed
      whatever is appended to it ("/profile-settings" passes because
      "/profile" does). */
  lemma ExtensionStaysAllowed(token: Scalar, isManager: Scalar, path: string, suffix: string)
    requires Redirect(token, isManager, path).None?
    ensures Redirect(token, isManager, path + suffix).None?
  {
    if Truthy(token) {
      var paths := if Truthy(isManager) then MANAGER_PATHS else EMPLOYEE_PATHS;
      var i :| 0 <= i < |paths| && paths[i] <= path;
      assert paths[i] <= path + suffix;
    }
  }

  /** The manager-only pages: an employee on any path under "/dashboard" or
      "/employee" is sent to the task form. */
  lemma ManagerPagesSendEmployeesToTaskForm(token: Scalar, isManager: Scalar, path: string)
    requires Truthy(token) && !Truthy(isManager)
    requires DASHBOARD <= path || "/employee" <= path
    ensures Redirect(token, isManager, path) == Some(TASK_FORM)
  {
    forall i | 0 <= i < |EMPLOYEE_PATHS|
      ensures !(EMPLOYEE_PATHS[i] <= path)
    {
      DiffersAt(EMPLOYEE_PATHS[i], path, 1);
    }
  }
}

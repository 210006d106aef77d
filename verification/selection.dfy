/** The list of selected days both review pages keep (`selectedDays` on the
    manager's employee page, `selectedTasks` on the employee's time sheet). */
module Selection {
  import opened Records

  predicate NoDuplicates(s: seq<Day>) {
    forall i, j :: 0 <= i < j < |s| ==> s[i] != s[j]
  }

  /** `s.filter(x => x !== d)`. */
  function Without(s: seq<Day>, d: Day): (r: seq<Day>)
    ensures |r| <= |s|
    ensures forall x :: x in r <==> x in s && x != d
    ensures NoDuplicates(s) ==> NoDuplicates(r)
  {
    if s == [] then []
    else if s[0] == d then Without(s[1..], d)
    else
      assert NoDuplicates(s) ==> s[0] !in s[1..] && NoDuplicates(s[1..]) by {
        if NoDuplicates(s) {
          forall i | 0 <= i < |s[1..]| ensures s[1..][i] != s[0] { assert s[1..][i] == s[i + 1]; }
        }
      }
      [s[0]] + Without(s[1..], d)
  }

  /** The toggle: remove `d` if it is selected, append it otherwise. */
  function Toggled(s: seq<Day>, d: Day): (r: seq<Day>)
    ensures forall x :: x != d ==> (x in r <==> x in s)
    ensures d in r <==> d !in s
    ensures NoDuplicates(s) ==> NoDuplicates(r)
  {
    if d in s then Without(s, d) else s + [d]
  }

  /** Removing a day that is not selected changes nothing. */
  lemma {:induction false} WithoutAbsent(s: seq<Day>, d: Day)
    requires d !in s
    ensures Without(s, d) == s
  {
    if s != [] {
      WithoutAbsent(s[1..], d);
      assert [s[0]] + s[1..] == s;
    }
  }

  /** Removing a day from a list it was appended to gives the list back. */
  lemma {:induction false} WithoutAppended(s: seq<Day>, d: Day)
    requires d !in s
    ensures Without(s + [d], d) == s
  {
    if s == [] {
      assert Without([d], d) == Without([], d);
    } else {
      assert (s + [d])[1..] == s[1..] + [d];
      WithoutAppended(s[1..], d);
      assert [s[0]] + s[1..] == s;
    }
  }

  /** Clicking an unselected day twice leaves the selection as it was. */
  lemma ToggleTwice(s: seq<Day>, d: Day)
    requires d !in s
    ensures Toggled(Toggled(s, d), d) == s
  {
    WithoutAppended(s, d);
  }

  /** `handleSelectAll`: deselect everything when the selection is as long
      as the visible list, otherwise select exactly the visible days. */
  function SelectAll(s: seq<Day>, visible: seq<Day>): (r: seq<Day>)
    ensures |s| == |visible| ==> r == []
    ensures |s| != |visible| ==> r == visible
  {
    if |s| == |visible| then [] else visible
  }

  /** Pressing select-all twice ends with nothing selected, or with all the
      visible days when they were exactly what the first press cleared. */
  lemma SelectAllTwice(s: seq<Day>, visible: seq<Day>)
    ensures |s| != |visible| ==> SelectAll(SelectAll(s, visible), visible) == []
    ensures |s| == |visible| && visible != [] ==> SelectAll(SelectAll(s, visible), visible) == visible
  {
  }

  /** A selection list updated in place. */
  class DaySelection {
    var days: seq<Day>

    constructor ()
      ensures days == []
    {
      days := [];
    }

    /** `handleSelectDay(d)` / `handleSelectTask({day: d})`. */
    method Toggle(d: Day)
      modifies this
      ensures days == Toggled(old(days), d)
      ensures forall x :: x != d ==> (x in days <==> x in old(days))
      ensures d in days <==> d !in old(days)
      ensures NoDuplicates(old(days)) ==> NoDuplicates(days)
    {
      days := Toggled(days, d);
    }

    /** `handleSelectAll` over the visible days. */
    method SelectAllVisible(visible: seq<Day>)
      modifies this
      ensures days == SelectAll(old(days), visible)
    {
      days := SelectAll(days, visible);
    }

    /** `setSelectedDays([])` / `setSelectedTasks([])`. */
    method Clear()
      modifies this
      ensures days == []
    {
      days := [];
    }
  }
}

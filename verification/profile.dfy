/** The profile page's greeting: the user name up to its first "." with the
    first letter capitalised ("jane.doe" greets "Jane"). */
module Profile {
  import opened Js

  /** `fullName.split('.')[0]`: the text before the first ".". */
  function FirstSegment(s: string): (f: string)
    ensures f <= s
    ensures '.' !in f
    ensures |f| < |s| ==> s[|f|] == '.'
  {
    if s == [] || s[0] == '.' then [] else [s[0]] + FirstSegment(s[1..])
  }

  /** `toUpperCase` on one character (ASCII letters). */
  function Upper(c: char): (u: char)
    ensures !('a' <= u <= 'z')
    ensures ('a' <= c <= 'z') || u == c
    ensures u == '.' <==> c == '.'
  {
    if 'a' <= c <= 'z' then (c as int - 'a' as int + 'A' as int) as char else c
  }

  /** `formatName`: the first segment with its first character upper-cased. */
  function FormatName(s: string): (r: string)
    ensures |r| == |FirstSegment(s)| <= |s|
    ensures '.' !in r
    ensures r != [] ==> r[0] == Upper(s[0]) && r[1..] == FirstSegment(s)[1..]
  {
    var f := FirstSegment(s);
    if f == [] then [] else [Upper(f[0])] + f[1..]
  }

  /** A text without "." is its own first segment. */
  lemma {:induction false} FirstSegmentNoDot(s: string)
    requires '.' !in s
    ensures FirstSegment(s) == s
  {
    if s != [] {
      assert s[0] != '.';
      assert '.' !in s[1..];
      FirstSegmentNoDot(s[1..]);
    }
  }

  /** A name without "." keeps its length and changes at most its first
      character; the empty name stays empty. */
  lemma NoDotOnlyFirstCharChanges(s: string)
    requires '.' !in s
    ensures |FormatName(s)| == |s|
    ensures forall i :: 1 <= i < |s| ==> FormatName(s)[i] == s[i]
  {
    FirstSegmentNoDot(s);
  }

  /** Formatting a formatted name changes nothing. */
  lemma FormatNameIdempotent(s: string)
    ensures FormatName(FormatName(s)) == FormatName(s)
  {
    var r := FormatName(s);
    FirstSegmentNoDot(r);
    if r != [] {
      assert Upper(r[0]) == r[0];
      assert [r[0]] + r[1..] == r;
    }
  }

  /** The greeting for the stored user name: `formatName(userName)` throws
      when the name is not a string (null after logout, for instance). */
  function DisplayName(userName: Scalar): (r: Option<string>)
    ensures r.Some? <==> userName.Str?
    ensures r.Some? ==> r.value == FormatName(userName.s)
  {
    if userName.Str? then Some(FormatName(userName.s)) else None
  }
}

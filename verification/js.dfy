/** JavaScript value semantics the client relies on: truthiness, the `||`
    default idiom, `String(v)` and `parseInt(s, 10)`. Numbers are integers
    here: the client only ever converts hour numbers, ids and task ids. */
module Js {

  datatype Option<+T> = None | Some(value: T) {
    function GetOr(default: T): T {
      match this
      case Some(v) => v
      case None => default
    }
  }

  /** A scalar JSON/JavaScript value as the server or the browser hands it over. */
  datatype Scalar = Undefined | Null | Bool(b: bool) | Num(n: int) | Str(s: string)

  /** JavaScript truthiness. */
  predicate Truthy(v: Scalar) {
    match v
    case Undefined => false
    case Null => false
    case Bool(b) => b
    case Num(n) => n != 0
    case Str(s) => s != ""
  }

  /** `s || d` where `s` is a string, or null/undefined (None). */
  function OrElse(s: Option<string>, d: string): (r: string)
    ensures s.Some? && s.value != "" ==> r == s.value
    ensures s.None? || s.value == "" ==> r == d
  {
    if s.Some? && s.value != "" then s.value else d
  }

  // ---------------------------------------------------------------------
  // Decimal digits

  predicate IsDigit(c: char) { '0' <= c <= '9' }

  predicate AllDigits(s: string) { forall i :: 0 <= i < |s| ==> IsDigit(s[i]) }

  function DigitChar(d: nat): (c: char)
    requires d < 10
    ensures IsDigit(c) && c as int - '0' as int == d
  {
    ('0' as int + d) as char
  }

  /** The decimal numeral of `n`, most significant digit first, no leading zeros. */
  function Decimal(n: nat): (s: string)
    ensures |s| >= 1 && AllDigits(s)
    ensures s[0] == '0' ==> n == 0
    decreases n
  {
    if n < 10 then [DigitChar(n)] else Decimal(n / 10) + [DigitChar(n % 10)]
  }

  /** The value of a numeral. */
  function DigitsValue(d: string): nat
    requires AllDigits(d)
    decreases |d|
  {
    if d == [] then 0 else DigitsValue(d[..|d| - 1]) * 10 + (d[|d| - 1] as int - '0' as int)
  }

  /** `String(n)` for an integer `n`. */
  function IntToString(n: int): string {
    if n < 0 then "-" + Decimal(-n) else Decimal(n)
  }

  /** `String(v)`, the conversion `localStorage.setItem` and `toString()` apply. */
  function ToJsString(v: Scalar): string {
    match v
    case Undefined => "undefined"
    case Null => "null"
    case Bool(b) => if b then "true" else "false"
    case Num(n) => IntToString(n)
    case Str(s) => s
  }

  // ---------------------------------------------------------------------
  // parseInt(s, 10)

  /** The white space parseInt skips (the ASCII part of it). */
  predicate IsSpace(c: char) {
    c == ' ' || c == '\t' || c == '\n' || c == '\r' || c as int == 11 || c as int == 12
  }

  function TrimStart(s: string): string {
    if s != [] && IsSpace(s[0]) then TrimStart(s[1..]) else s
  }

  /** TrimStart drops exactly the leading white space: what is left is a
      suffix of `s` that is empty or starts with something else. */
  lemma {:induction false} TrimStartSkipsSpace(s: string)
    ensures var t := TrimStart(s);
      |t| <= |s| && t == s[|s| - |t|..] && (t == [] || !IsSpace(t[0]))
    decreases |s|
  {
    if s != [] && IsSpace(s[0]) {
      TrimStartSkipsSpace(s[1..]);
      var t := TrimStart(s);
      assert s[1..][|s| - 1 - |t|..] == s[|s| - |t|..];
    }
  }

  /** A run of decimal digits read from the front of a text. */
  function DigitRun(s: string): (d: string)
    ensures AllDigits(d)
  {
    if s != [] && IsDigit(s[0]) then [s[0]] + DigitRun(s[1..]) else []
  }

  /** DigitRun is the LONGEST digit prefix: the character after it, if any,
      is not a digit. */
  lemma {:induction false} DigitRunIsLongest(s: string)
    ensures var d := DigitRun(s);
      d <= s && (|d| < |s| ==> !IsDigit(s[|d|]))
    decreases |s|
  {
    if s != [] && IsDigit(s[0]) {
      DigitRunIsLongest(s[1..]);
    }
  }

  /** `parseInt(s, 10)`: skip leading white space, read an optional sign and
      the longest run of digits; None stands for NaN (no digit at all). */
  function ParseInt(s: string): (r: Option<int>)
    ensures TrimStart(s) == [] ==> r.None?
    ensures s != [] && IsDigit(s[0]) ==> r.Some? && r.value >= 0
    ensures r.Some? && r.value < 0 ==> '-' in s
  {
    TrimStartSkipsSpace(s);
    var t := TrimStart(s);
    var signed := t != [] && (t[0] == '-' || t[0] == '+');
    var d := DigitRun(if signed then t[1..] else t);
    var magnitude: int := if d == [] then 0 else DigitsValue(d);
    if d == [] then None
    else if signed && t[0] == '-' then Some(-magnitude)
    else Some(magnitude)
  }

  lemma {:induction false} DecimalValue(n: nat)
    ensures DigitsValue(Decimal(n)) == n
    decreases n
  {
    if n >= 10 {
      DecimalValue(n / 10);
      var d := Decimal(n);
      assert d[..|d| - 1] == Decimal(n / 10);
    }
  }

  /** The digit run of a numeral followed by a non-digit is the numeral. */
  lemma {:induction false} DigitRunOfNumeral(a: string, rest: string)
    requires AllDigits(a)
    requires rest == [] || !IsDigit(rest[0])
    ensures DigitRun(a + rest) == a
    decreases |a|
  {
    if a != [] {
      assert (a + rest)[1..] == a[1..] + rest;
      DigitRunOfNumeral(a[1..], rest);
    }
  }

  /** parseInt of a text that starts with a digit reads its digit run. */
  lemma {:induction false} ParseIntOfDigits(s: string)
    requires s != [] && IsDigit(s[0])
    ensures DigitRun(s) != [] && ParseInt(s) == Some(DigitsValue(DigitRun(s)) as int)
  {
    assert !IsSpace(s[0]);
    assert TrimStart(s) == s;
  }

  /** parseInt of a text that starts with '-' followed by a digit. */
  lemma {:induction false} ParseIntOfNegative(s: string)
    requires |s| >= 2 && s[0] == '-' && IsDigit(s[1])
    ensures DigitRun(s[1..]) != [] && ParseInt(s) == Some(-(DigitsValue(DigitRun(s[1..])) as int))
  {
    assert !IsSpace(s[0]);
    assert TrimStart(s) == s;
  }

  lemma {:induction false} ParseIntOfNumeral(m: nat, rest: string)
    requires rest == [] || !IsDigit(rest[0])
    ensures ParseInt(Decimal(m) + rest) == Some(m)
  {
    DigitRunOfNumeral(Decimal(m), rest);
    DecimalValue(m);
    ParseIntOfDigits(Decimal(m) + rest);
  }

  lemma {:induction false} ParseIntOfMinusNumeral(m: nat, rest: string)
    requires rest == [] || !IsDigit(rest[0])
    ensures ParseInt("-" + Decimal(m) + rest) == Some(-(m as int))
  {
    var a := Decimal(m);
    var t := a + rest;
    var s := "-" + t;
    assert s == "-" + a + rest;
    assert s[1..] == t && s[1] == a[0];
    DigitRunOfNumeral(a, rest);
    DecimalValue(m);
    ParseIntOfNegative(s);
  }

  /** parseInt reads back what String(n) wrote, and stops at the first
      character that is not a digit. */
  lemma {:induction false} ParseIntOfString(n: int, rest: string)
    requires rest == [] || !IsDigit(rest[0])
    ensures ParseInt(IntToString(n) + rest) == Some(n)
  {
    var s := IntToString(n) + rest;
    if n < 0 {
      assert s == "-" + Decimal(-n) + rest;
      ParseIntOfMinusNumeral(-n, rest);
    } else {
      assert s == Decimal(n) + rest;
      ParseIntOfNumeral(n, rest);
    }
  }

  /** A text whose first character is neither white space, a sign nor a digit
      (a task NAME rather than an id, for instance) parses to NaN. */
  lemma {:induction false} ParseIntOfText(s: string)
    requires s != [] && !IsSpace(s[0]) && !IsDigit(s[0]) && s[0] != '-' && s[0] != '+'
    ensures ParseInt(s) == None
  {
  }
}

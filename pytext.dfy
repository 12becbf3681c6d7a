/** The Python built-ins the webhook applies to text: `int(s)` on a str,
    `str(n)` on an int, `str.strip` (inside `int`) and `str.join`. */
module PyText {
  import opened Wrappers

  /** A character `int()` ignores at either end of its argument: the ASCII
      characters tab, line feed, vertical tab, form feed, carriage return and
      space, and the non-ASCII characters `str.isspace` accepts. The ASCII
      separators U+001C to U+001F, which `str.isspace` also accepts, are not
      ignored by `int()`. */
  predicate IsSpace(c: char) {
    ('\U{0009}' <= c <= '\U{000D}') || c == ' '
    || c == '\U{0085}' || c == '\U{00A0}' || c == '\U{1680}'
    || ('\U{2000}' <= c <= '\U{200A}') || c == '\U{2028}' || c == '\U{2029}'
    || c == '\U{202F}' || c == '\U{205F}' || c == '\U{3000}'
  }

  predicate IsDigit(c: char) {
    '0' <= c <= '9'
  }

  function DigitValue(c: char): (d: nat)
    requires IsDigit(c)
    ensures d < 10
  {
    c as int - '0' as int
  }

  function DigitChar(d: nat): (c: char)
    requires d < 10
    ensures IsDigit(c) && DigitValue(c) == d
  {
    ('0' as int + d) as char
  }

  /** The leading `IsSpace` characters `int()` drops. */
  function TrimStart(s: string): (r: string)
    ensures |r| <= |s|
  {
    if s != [] && IsSpace(s[0]) then TrimStart(s[1..]) else s
  }

  /** The trailing `IsSpace` characters `int()` drops. */
  function TrimEnd(s: string): (r: string)
    ensures |r| <= |s|
  {
    if s != [] && IsSpace(s[|s| - 1]) then TrimEnd(s[..|s| - 1]) else s
  }

  /** The trimming `int()` applies to its argument before reading digits. */
  function Strip(s: string): string {
    TrimEnd(TrimStart(s))
  }

  /** `TrimStart` removes the leading `IsSpace` characters and nothing else. */
  lemma {:induction false} TrimStartSpec(s: string)
    ensures var r := TrimStart(s);
      r == s[|s| - |r|..]
      && (forall i :: 0 <= i < |s| - |r| ==> IsSpace(s[i]))
      && (r != [] ==> !IsSpace(r[0]))
  {
    if s != [] && IsSpace(s[0]) {
      TrimStartSpec(s[1..]);
    }
  }

  /** `TrimEnd` removes the trailing `IsSpace` characters and nothing else. */
  lemma {:induction false} TrimEndSpec(s: string)
    ensures var r := TrimEnd(s);
      r == s[..|r|]
      && (forall i :: |r| <= i < |s| ==> IsSpace(s[i]))
      && (r != [] ==> !IsSpace(r[|r| - 1]))
  {
    if s != [] && IsSpace(s[|s| - 1]) {
      TrimEndSpec(s[..|s| - 1]);
      assert s[..|s| - 1][..|TrimEnd(s)|] == s[..|TrimEnd(s)|];
    }
  }

  /** `Strip` keeps a contiguous piece of its argument that neither starts
      nor ends with an `IsSpace` character, dropping only such characters
      around it. */
  lemma StripSpec(s: string)
    ensures var r := Strip(s);
      (exists k :: 0 <= k <= |s| && r <= s[k..])
      && (r != [] ==> !IsSpace(r[0]) && !IsSpace(r[|r| - 1]))
  {
    var t := TrimStart(s);
    TrimStartSpec(s);
    TrimEndSpec(t);
    assert Strip(s) <= s[|s| - |t|..];
  }

  /** A string with no `IsSpace` character at either end is its own `Strip`. */
  lemma StripUnpadded(s: string)
    requires s != [] && !IsSpace(s[0]) && !IsSpace(s[|s| - 1])
    ensures Strip(s) == s
  {
  }

  /** The digits of a base-10 literal as `int()` accepts them: ASCII digits,
      an underscore allowed only singly and between two digits. */
  predicate IsDigitRun(s: string)
    decreases |s|
  {
    s != [] && IsDigit(s[0]) && (|s| == 1 || IsDigitRun(if s[1] == '_' then s[2..] else s[1..]))
  }

  /** The number a digit run denotes; underscores carry no value. */
  function DigitsValue(s: string): nat
  {
    if s == [] then 0
    else if IsDigit(s[|s| - 1]) then DigitsValue(s[..|s| - 1]) * 10 + DigitValue(s[|s| - 1])
    else DigitsValue(s[..|s| - 1])
  }

  /** Python's `int(s)` for a str `s`: `Some` of the value, or `None` where
      `int` raises `ValueError`. Surrounding `IsSpace` characters are ignored, one sign
      is allowed, leading zeros are allowed. */
  function ParseInt(s: string): (r: Option<int>)
  {
    var t := Strip(s);
    if t != [] && (t[0] == '+' || t[0] == '-') then
      if IsDigitRun(t[1..]) then
        Some(if t[0] == '-' then -(DigitsValue(t[1..]) as int) else DigitsValue(t[1..]))
      else None
    else if IsDigitRun(t) then Some(DigitsValue(t))
    else None
  }

  /** `str(n)` for a non-negative int: its decimal digits, no leading zero. */
  function NatToString(n: nat): (r: string)
    ensures r != [] && forall i :: 0 <= i < |r| ==> IsDigit(r[i])
    ensures |r| > 1 ==> r[0] != '0'
  {
    if n < 10 then [DigitChar(n)] else NatToString(n / 10) + [DigitChar(n % 10)]
  }

  /** `str(n)` for an int: a minus sign for negative numbers, then the digits. */
  function IntToString(n: int): (r: string)
    ensures r != [] && (n < 0 <==> r[0] == '-')
    ensures forall i :: 0 <= i < |r| ==> IsDigit(r[i]) || (i == 0 && r[i] == '-')
  {
    if n < 0 then "-" + NatToString(-n) else NatToString(n)
  }

  /** `sep.join(parts)`. */
  function Join(sep: string, parts: seq<string>): string
  {
    if parts == [] then ""
    else if |parts| == 1 then parts[0]
    else parts[0] + sep + Join(sep, parts[1..])
  }

  /** A digit run begins with a digit and holds only digits and underscores;
      conversely every non-empty string of digits alone is one. */
  lemma {:induction false} DigitRunShape(s: string)
    ensures IsDigitRun(s) ==> IsDigit(s[0]) && forall i :: 0 <= i < |s| ==> IsDigit(s[i]) || s[i] == '_'
    ensures s != [] && (forall i :: 0 <= i < |s| ==> IsDigit(s[i])) ==> IsDigitRun(s)
    decreases |s|
  {
    if |s| > 1 {
      var rest := if s[1] == '_' then s[2..] else s[1..];
      DigitRunShape(rest);
      if IsDigitRun(s) {
        forall i | 0 < i < |s| ensures IsDigit(s[i]) || s[i] == '_' {
          if s[1] == '_' { if i > 1 { assert s[i] == rest[i - 2]; } } else { assert s[i] == rest[i - 1]; }
        }
      }
      if forall i :: 0 <= i < |s| ==> IsDigit(s[i]) {
        assert s[1] != '_';
        forall i | 0 <= i < |rest| ensures IsDigit(rest[i]) { assert rest[i] == s[i + 1]; }
      }
    }
  }

  /** `int(s)` fails for every text without a digit in it (the empty string,
      "?", "all", ...). */
  lemma ParseIntNeedsDigit(s: string)
    requires forall i :: 0 <= i < |s| ==> !IsDigit(s[i])
    ensures ParseInt(s).None?
  {
    var t := Strip(s);
    StripSpec(s);
    var k :| 0 <= k <= |s| && t <= s[k..];
    assert forall i :: 0 <= i < |t| ==> t[i] == s[k + i];
    if t != [] {
      DigitRunShape(t);
      if |t| > 1 { DigitRunShape(t[1..]); assert t[1..][0] == t[1]; }
    }
  }

  lemma {:induction false} DigitsValueOfNatToString(n: nat)
    ensures DigitsValue(NatToString(n)) == n
  {
    if n >= 10 {
      var p := NatToString(n / 10);
      DigitsValueOfNatToString(n / 10);
      assert (p + [DigitChar(n % 10)])[..|p|] == p;
    }
  }

  /** `int(str(n)) == n`: the text the webhook speaks for a camera number
      reads back as that number. */
  lemma ParseIntOfIntToString(n: int)
    ensures ParseInt(IntToString(n)) == Some(n)
  {
    var s := IntToString(n);
    StripUnpadded(s);
    var digits := if n < 0 then -n else n;
    var run := NatToString(digits);
    assert s == if n < 0 then "-" + run else run;
    assert n < 0 ==> s[1..] == run;
    DigitRunShape(run);
    DigitsValueOfNatToString(digits);
  }

  /** `int()` accepts surrounding whitespace and leading zeros. */
  lemma ParseIntAcceptsPadding()
    ensures ParseInt(" 07\n") == Some(7)
  {
    assert Strip(" 07\n") == "07" by {
      assert TrimStart(" 07\n") == TrimStart("07\n") == "07\n";
      assert TrimEnd("07\n") == TrimEnd("07") == "07";
    }
    assert IsDigitRun("07") by { assert "07"[1..] == "7"; }
    assert DigitsValue("07") == 7 by { assert "07"[..1] == "0"; assert "0"[..0] == ""; }
  }

  /** `int()` accepts a sign and single underscores between digits. */
  lemma ParseIntAcceptsSignAndUnderscore()
    ensures ParseInt("-3") == Some(-3)
    ensures ParseInt("1_0") == Some(10)
  {
    assert Strip("-3") == "-3";
    assert "-3"[1..] == "3";
    assert Strip("1_0") == "1_0";
    assert IsDigitRun("1_0") by { assert "1_0"[2..] == "0"; }
    assert DigitsValue("1_0") == 10 by { assert "1_0"[..2] == "1_"; assert "1_"[..1] == "1"; assert "1"[..0] == ""; }
  }

  /** `int()` rejects a doubled underscore, a decimal point, a space after the
      sign and a leading file separator (U+001C). */
  lemma ParseIntRejects()
    ensures ParseInt("1__0").None?
    ensures ParseInt("2.0").None?
    ensures ParseInt("- 3").None?
    ensures ParseInt("\U{001C}7").None?
  {
  }
}

/** How the scripts' f-strings render numbers, the temperature suffix both scripts
    append, and the line structure of the reports.

    Temperatures and rainfall are held as integer tenths (15.6 is 156): every value
    the scripts print went through round(x, 1) or is a one-decimal reading of the
    input, and Python prints such a float as its integer part, a point and one digit. */
module Text {
  import opened Results

  /** DEGREE_SYBMOL: the degree sign followed by the letter C. */
  const DegreeSign: string := "\U{00B0}C"

  predicate IsDigit(c: char)
  {
    '0' <= c <= '9'
  }

  predicate AllDigits(s: string)
  {
    forall i :: 0 <= i < |s| ==> IsDigit(s[i])
  }

  function Digit(d: nat): (c: char)
    requires d < 10
    ensures IsDigit(c)
  {
    (('0' as int) + d) as char
  }

  function DigitValue(c: char): (d: nat)
    requires IsDigit(c)
  {
    (c as int) - ('0' as int)
  }

  /** str(n) for a natural number: its decimal digits, most significant first. */
  function NatText(n: nat): (s: string)
    ensures |s| > 0 && AllDigits(s)
    ensures s[0] == '0' <==> n == 0
    ensures |s| > 1 ==> s[0] != '0'
  {
    if n < 10 then [Digit(n)] else NatText(n / 10) + [Digit(n % 10)]
  }

  /** The number a string of decimal digits denotes. */
  function DigitsValue(s: string): (n: nat)
    requires AllDigits(s)
  {
    if s == [] then 0 else DigitsValue(s[..|s| - 1]) * 10 + DigitValue(s[|s| - 1])
  }

  lemma {:induction false} NatTextRoundTrip(n: nat)
    ensures DigitsValue(NatText(n)) == n
  {
    if n >= 10 {
      var s := NatText(n);
      assert s[..|s| - 1] == NatText(n / 10);
      NatTextRoundTrip(n / 10);
    }
  }

  /** A non-empty digit string with no leading zero denotes a positive number unless it is "0". */
  lemma {:induction false} DigitsValuePositive(s: string)
    requires |s| > 0 && AllDigits(s) && s[0] != '0'
    ensures DigitsValue(s) > 0
  {
    if |s| > 1 {
      DigitsValuePositive(s[..|s| - 1]);
    }
  }

  /** Decimal digits without a leading zero are the only text str() gives their value:
      the text of a count is unique. */
  lemma {:induction false} CanonicalDigitsAreNatText(s: string)
    requires |s| > 0 && AllDigits(s)
    requires |s| > 1 ==> s[0] != '0'
    ensures s == NatText(DigitsValue(s))
  {
    var last := s[|s| - 1];
    if |s| == 1 {
      assert s[..0] == [];
      assert s == [Digit(DigitValue(last))];
    } else {
      var p := s[..|s| - 1];
      DigitsValuePositive(p);
      CanonicalDigitsAreNatText(p);
      var v := DigitsValue(s);
      assert v / 10 == DigitsValue(p) && v % 10 == DigitValue(last);
      assert s == p + [Digit(DigitValue(last))];
    }
  }

  /** str(i) for a Python int: a minus sign exactly for negatives, then the
      digits of the magnitude with no leading zero. */
  function IntText(i: int): (s: string)
    ensures |s| > 0 && (s[0] == '-' <==> i < 0)
    ensures AllDigits(Unsigned(s)) && |Unsigned(s)| > 0
    ensures DigitsValue(Unsigned(s)) == if i < 0 then -i else i
    ensures |Unsigned(s)| > 1 ==> Unsigned(s)[0] != '0'
  {
    var m := if i < 0 then -i else i;
    NatTextRoundTrip(m);
    var s := (if i < 0 then "-" else "") + NatText(m);
    assert Unsigned(s) == NatText(m);
    s
  }

  /** str(x) for a float x with one decimal, given as t = 10 * x. */
  function TenthsText(t: int): (r: string)
    ensures |r| >= 3
    ensures r[0] == '-' <==> t < 0
    ensures NoLeadingZero(Unsigned(r))
  {
    var a := if t < 0 then -t else t;
    var body := NatText(a / 10) + "." + [Digit(a % 10)];
    assert body[0] == NatText(a / 10)[0];
    var r := (if t < 0 then "-" else "") + body;
    assert t < 0 ==> r[1..] == body;
    r
  }

  /** The text after an optional minus sign. */
  function Unsigned(s: string): (body: string)
  {
    if |s| > 0 && s[0] == '-' then s[1..] else s
  }

  /** In "<digits>.<digit>", the integer part has no leading zero. */
  predicate NoLeadingZero(body: string)
  {
    |body| > 3 ==> body[0] != '0'
  }

  /** Reads back "<digits>.<digit>" as a number of tenths. */
  function ParseUnsignedTenths(s: string): (u: Option<nat>)
  {
    if |s| >= 3 && s[|s| - 2] == '.' && IsDigit(s[|s| - 1]) && AllDigits(s[..|s| - 2])
    then Some(DigitsValue(s[..|s| - 2]) * 10 + DigitValue(s[|s| - 1]))
    else None
  }

  /** Reads back an optionally signed one-decimal number as a number of tenths. */
  function ParseTenths(s: string): (t: Option<int>)
  {
    if |s| > 0 && s[0] == '-' then
      match ParseUnsignedTenths(s[1..])
      case Some(u) => Some(-(u as int))
      case None => None
    else ParseUnsignedTenths(s)
  }

  /** The unsigned one-decimal text of a reads back as a. */
  lemma UnsignedTenthsRoundTrip(a: nat)
    ensures ParseUnsignedTenths(NatText(a / 10) + "." + [Digit(a % 10)]) == Some(a)
  {
    var ip, d := NatText(a / 10), Digit(a % 10);
    var body := ip + "." + [d];
    assert body[..|body| - 2] == ip && body[|body| - 2] == '.' && body[|body| - 1] == d;
    NatTextRoundTrip(a / 10);
    assert DigitValue(d) == a % 10;
    assert DigitsValue(ip) * 10 + DigitValue(d) == a;
  }

  /** The printed number reads back as exactly the number printed. */
  lemma TenthsTextRoundTrip(t: int)
    ensures ParseTenths(TenthsText(t)) == Some(t)
  {
    var a := if t < 0 then -t else t;
    var body := NatText(a / 10) + "." + [Digit(a % 10)];
    UnsignedTenthsRoundTrip(a);
    if t < 0 {
      assert TenthsText(t) == "-" + body;
      assert ("-" + body)[1..] == body;
    } else {
      assert TenthsText(t) == body;
      assert body[0] == NatText(a / 10)[0];
    }
  }

  /** Any text that reads back as t, carries a minus sign exactly when t is negative
      (no "-0.0") and has no leading zero (no "05.0") is the text str() prints for t. */
  lemma TenthsTextUnique(s: string, t: int)
    requires ParseTenths(s) == Some(t)
    requires |s| > 0 && (s[0] == '-' <==> t < 0)
    requires NoLeadingZero(Unsigned(s))
    ensures s == TenthsText(t)
  {
    var a := if t < 0 then -t else t;
    var b := Unsigned(s);
    assert ParseUnsignedTenths(b) == Some(a);
    var ip, c := b[..|b| - 2], b[|b| - 1];
    assert b == ip + "." + [c];
    assert |ip| > 1 ==> ip[0] == b[0];
    CanonicalDigitsAreNatText(ip);
    assert a / 10 == DigitsValue(ip) && a % 10 == DigitValue(c);
    assert [c] == [Digit(a % 10)];
    if t < 0 {
      assert s == "-" + b;
    }
  }

  /** format_temperature(temp): the text of temp followed by the degree suffix, with
      nothing rounded or added, so the text before the suffix reads back as temp. */
  function FormatTemperature(t: int): (r: string)
    ensures |r| >= 2 && r[|r| - 2..] == DegreeSign
    ensures ParseTenths(r[..|r| - 2]) == Some(t)
    ensures r[0] == '-' <==> t < 0
    ensures NoLeadingZero(Unsigned(r[..|r| - 2]))
  {
    var r := TenthsText(t) + DegreeSign;
    assert r[..|r| - 2] == TenthsText(t);
    TenthsTextRoundTrip(t);
    r
  }

  /** The contract of FormatTemperature determines its text: "-0.0°C" and "05.0°C"
      are not the text of 0 and 50. */
  lemma FormatTemperatureUnique(r: string, t: int)
    requires |r| >= 3 && r[|r| - 2..] == DegreeSign
    requires ParseTenths(r[..|r| - 2]) == Some(t)
    requires r[0] == '-' <==> t < 0
    requires NoLeadingZero(Unsigned(r[..|r| - 2]))
    ensures r == FormatTemperature(t)
  {
    var p := r[..|r| - 2];
    assert p[0] == r[0];
    TenthsTextUnique(p, t);
    assert r == p + DegreeSign;
  }

  /** The lines of a text joined by line breaks ("\n".join). */
  function JoinLines(lines: seq<string>): (text: string)
    requires |lines| > 0
  {
    if |lines| == 1 then lines[0] else lines[0] + "\n" + JoinLines(lines[1..])
  }

  /** The index of the first occurrence of c in s. */
  function IndexOf(s: string, c: char): (i: nat)
    requires c in s
    ensures i < |s| && s[i] == c && c !in s[..i]
  {
    if s[0] == c then 0
    else
      var j := IndexOf(s[1..], c);
      assert s[..j + 1] == [s[0]] + s[1..][..j];
      j + 1
  }

  /** str.split("\n"). */
  function SplitLines(s: string): (lines: seq<string>)
    ensures |lines| > 0
    decreases |s|
  {
    if '\n' in s then
      var i := IndexOf(s, '\n');
      [s[..i]] + SplitLines(s[i + 1..])
    else [s]
  }

  predicate NoLineBreak(s: string)
  {
    '\n' !in s
  }

  /** Lines without line breaks are recovered from their join, in order. */
  lemma {:induction false} SplitJoinLines(lines: seq<string>)
    requires |lines| > 0
    requires forall k :: 0 <= k < |lines| ==> NoLineBreak(lines[k])
    ensures SplitLines(JoinLines(lines)) == lines
  {
    if |lines| > 1 {
      SplitAtFirstBreak(lines[0], JoinLines(lines[1..]));
      SplitJoinLines(lines[1..]);
      assert lines == [lines[0]] + lines[1..];
    }
  }

  /** A single-line first line is split off at the break that follows it. */
  lemma SplitAtFirstBreak(first: string, rest: string)
    requires NoLineBreak(first)
    ensures SplitLines(first + "\n" + rest) == [first] + SplitLines(rest)
  {
    var s := first + "\n" + rest;
    var n := |first|;
    assert s[n] == '\n';
    assert s[..n] == first;
    assert IndexOf(s, '\n') == n;
    assert s[n + 1..] == rest;
  }

  lemma NoLineBreakConcat(a: string, b: string)
    requires NoLineBreak(a) && NoLineBreak(b)
    ensures NoLineBreak(a + b)
  {
  }

  lemma DigitsHaveNoLineBreak(s: string)
    requires AllDigits(s)
    ensures NoLineBreak(s)
  {
  }

  lemma NatTextNoLineBreak(n: nat)
    ensures NoLineBreak(NatText(n))
  {
    DigitsHaveNoLineBreak(NatText(n));
  }

  lemma IntTextNoLineBreak(i: int)
    ensures NoLineBreak(IntText(i))
  {
    DigitsHaveNoLineBreak(NatText(if i < 0 then -i else i));
  }

  lemma TenthsTextNoLineBreak(t: int)
    ensures NoLineBreak(TenthsText(t)) && NoLineBreak(FormatTemperature(t))
  {
    var a := if t < 0 then -t else t;
    DigitsHaveNoLineBreak(NatText(a / 10));
    DigitsHaveNoLineBreak([Digit(a % 10)]);
  }

  /** Rendered numbers and temperatures are single-line. */
  lemma NumberTextsHaveNoLineBreak(n: nat, i: int, t: int)
    ensures NoLineBreak(NatText(n)) && NoLineBreak(IntText(i))
    ensures NoLineBreak(TenthsText(t)) && NoLineBreak(FormatTemperature(t))
  {
    NatTextNoLineBreak(n);
    IntTextNoLineBreak(i);
    TenthsTextNoLineBreak(t);
  }

}

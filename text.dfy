/** The string matching the two scripts rely on: literal-token regular
    expressions (`/iPhone/.test(ua)`), the capture of `token(\d+)`, and
    the decimal rendering of numbers inside template strings. */
module Text {
  import opened Options

  /** `t` occurs in `s` starting at index `i`. */
  predicate OccursAt(s: string, t: string, i: int)
  {
    0 <= i && i + |t| <= |s| && s[i..i + |t|] == t
  }

  /** The first index at or after `from` where `t` occurs in `s`. */
  function IndexFrom(s: string, t: string, from: nat): (r: Option<nat>)
    decreases |s| - from
    ensures r.Some? ==> from <= r.value && OccursAt(s, t, r.value)
    ensures r.Some? ==> forall j :: from <= j < r.value ==> !OccursAt(s, t, j)
    ensures r.None? ==> forall j :: from <= j ==> !OccursAt(s, t, j)
  {
    if from + |t| > |s| then None
    else if s[from..from + |t|] == t then Some(from)
    else IndexFrom(s, t, from + 1)
  }

  /** `/t/.test(s)` for a pattern `t` made of literal characters only. */
  predicate Contains(s: string, t: string)
    ensures Contains(s, t) <==> exists i :: OccursAt(s, t, i)
  {
    IndexFrom(s, t, 0).Some?
  }

  /** `\d`: an ASCII decimal digit. */
  predicate IsDigit(c: char)
  {
    '0' <= c <= '9'
  }

  predicate AllDigits(s: string)
  {
    forall i :: 0 <= i < |s| ==> IsDigit(s[i])
  }

  /** The longest prefix of `s` made of digits: what a greedy `\d+` consumes. */
  function DigitRun(s: string): (r: string)
    ensures r <= s && AllDigits(r)
    ensures |r| < |s| ==> !IsDigit(s[|r|])
    ensures |r| > 0 <==> (|s| > 0 && IsDigit(s[0]))
  {
    if |s| > 0 && IsDigit(s[0]) then [s[0]] + DigitRun(s[1..]) else []
  }

  /** The pattern `token\d` matches at index `i`: `token` occurs there and a digit follows it. */
  predicate NumberAfterAt(s: string, token: string, i: int)
  {
    OccursAt(s, token, i) && i + |token| < |s| && IsDigit(s[i + |token|])
  }

  /** The first index at or after `from` where `token(\d+)` matches: the leftmost match a
      regular-expression engine reports. */
  function NumberAfterFrom(s: string, token: string, from: nat): (r: Option<nat>)
    decreases |s| - from
    ensures r.Some? ==> from <= r.value && NumberAfterAt(s, token, r.value)
    ensures r.Some? ==> forall j :: from <= j < r.value ==> !NumberAfterAt(s, token, j)
    ensures r.None? ==> forall j :: from <= j ==> !NumberAfterAt(s, token, j)
  {
    if from + |token| >= |s| then None
    else if NumberAfterAt(s, token, from) then Some(from)
    else NumberAfterFrom(s, token, from + 1)
  }

  /** `s.match(/token(\d+)/)?.[1]`: the whole digit run after the leftmost `token` that is
      followed by a digit, or nothing when there is no such `token`. */
  function CaptureNumber(s: string, token: string): (r: Option<string>)
    ensures r.Some? <==> exists i :: NumberAfterAt(s, token, i)
    ensures r.Some? ==> |r.value| > 0 && AllDigits(r.value)
  {
    match NumberAfterFrom(s, token, 0)
    case None => None
    case Some(i) => Some(DigitRun(s[i + |token|..]))
  }

  /** The numeric value of a string of digits. */
  function DigitsValue(s: string): nat
    requires AllDigits(s)
  {
    if s == [] then 0 else DigitsValue(s[..|s| - 1]) * 10 + ((s[|s| - 1] as int) - ('0' as int))
  }

  function DigitChar(d: nat): (c: char)
    requires d < 10
    ensures IsDigit(c) && (c as int) - ('0' as int) == d
  {
    (('0' as int) + d) as char
  }

  /** How a template string renders a non-negative integer: decimal, no leading zeros. */
  function NatText(n: nat): (r: string)
    ensures |r| > 0 && AllDigits(r)
    ensures |r| > 1 ==> r[0] != '0'
  {
    if n < 10 then [DigitChar(n)] else NatText(n / 10) + [DigitChar(n % 10)]
  }

  /** Rendering a number and reading it back gives the number. */
  lemma {:induction false} NatTextRoundTrip(n: nat)
    ensures DigitsValue(NatText(n)) == n
  {
    if n >= 10 {
      NatTextRoundTrip(n / 10);
      var s := NatText(n);
      assert s[..|s| - 1] == NatText(n / 10);
    }
  }

  /** How a template string renders an integer: a minus sign before negative values. */
  function IntText(i: int): (r: string)
    ensures |r| > 0 && (r[0] == '-' <==> i < 0)
  {
    if i < 0 then "-" + NatText(-i) else NatText(i)
  }

  /** Reading back a rendered integer: its sign, then its digits, give the integer. */
  lemma IntTextRoundTrip(i: int)
    ensures var r := IntText(i);
      if i < 0 then AllDigits(r[1..]) && DigitsValue(r[1..]) == -i
      else AllDigits(r) && DigitsValue(r) == i
  {
    if i < 0 {
      NatTextRoundTrip(-i);
      assert IntText(i)[1..] == NatText(-i);
    } else {
      NatTextRoundTrip(i);
    }
  }

  /** How a template string renders a boolean. */
  function BoolText(b: bool): (r: string)
    ensures r == "true" || r == "false"
    ensures (r == "true") == b
  {
    if b then "true" else "false"
  }
}

/** Decimal text: the number-to-string conversions the source gets from
    JavaScript template literals, Python's `f"{n:02d}"` and `parseInt`. */
module Text {
  import opened Wrappers

  predicate IsDigit(c: char) { '0' <= c <= '9' }

  predicate AllDigits(s: string) { forall i :: 0 <= i < |s| ==> IsDigit(s[i]) }

  function DigitValue(c: char): (d: nat)
    requires IsDigit(c)
    ensures d < 10
  {
    c as int - '0' as int
  }

  function DigitChar(d: nat): (c: char)
    requires d < 10
    ensures IsDigit(c) && DigitValue(c) == d
  {
    ('0' as int + d) as char
  }

  /** The value of a string of decimal digits, most significant first;
      the empty string reads as 0. */
  function DigitsValue(s: string): nat
    requires AllDigits(s)
  {
    if |s| == 0 then 0 else DigitsValue(s[..|s| - 1]) * 10 + DigitValue(s[|s| - 1])
  }

  /** The decimal rendering JavaScript and Python give a non-negative integer:
      no leading zeros, "0" for zero. */
  function NatToString(n: nat): (s: string)
    ensures |s| >= 1 && AllDigits(s)
    ensures |s| > 1 ==> s[0] != '0'
  {
    if n < 10 then [DigitChar(n)] else NatToString(n / 10) + [DigitChar(n % 10)]
  }

  lemma {:induction false} NatToStringRoundTrip(n: nat)
    ensures DigitsValue(NatToString(n)) == n
  {
    if n >= 10 {
      var s := NatToString(n);
      assert s[..|s| - 1] == NatToString(n / 10);
      NatToStringRoundTrip(n / 10);
    }
  }

  /** A signed integer as a template literal renders it. */
  function IntToString(i: int): (s: string)
    ensures i >= 0 ==> s == NatToString(i)
    ensures i < 0 ==> s == "-" + NatToString(-i)
  {
    if i < 0 then "-" + NatToString(-i) else NatToString(i)
  }

  /** Python's `f"{n:02d}"` for 0 <= n < 100. */
  function Pad2(n: nat): (s: string)
    requires n < 100
    ensures |s| == 2 && AllDigits(s) && DigitsValue(s) == n
    ensures s[0] == DigitChar(n / 10) && s[1] == DigitChar(n % 10)
  {
    var s := [DigitChar(n / 10), DigitChar(n % 10)];
    assert s[..1] == [DigitChar(n / 10)] && s[..1][..0] == [];
    assert DigitsValue(s[..1]) == n / 10;
    s
  }

  /** JavaScript's `%`: the remainder truncates toward zero, so its sign is
      the sign of the dividend (Dafny's `%` never returns a negative value). */
  function JsRem(a: int, b: int): (r: int)
    requires b > 0
    ensures a >= 0 ==> r == a % b
    ensures -b < r < b
    ensures a <= 0 ==> r <= 0
    ensures a == b * (if a >= 0 then a / b else -((-a) / b)) + r
  {
    if a >= 0 then a % b
    else
      var q := (-a) / b;
      assert -a == b * q + (-a) % b;
      -((-a) % b)
  }

  /** The arithmetic shared by the three `formatDuration` helpers once their
      guards have passed: hours are `Math.floor(m / 60)` (Dafny's `/` with a
      positive divisor rounds down too) and minutes are JavaScript's `m % 60`. */
  function DurationText(minutes: int): string
  {
    var hours := minutes / 60;
    var mins := JsRem(minutes, 60);
    if hours > 0 then IntToString(hours) + "h " + IntToString(mins) + "m"
    else IntToString(mins) + "m"
  }

  /** The first index of `c` in `s`. */
  function IndexOf(s: string, c: char): (r: Option<nat>)
    ensures r.Some? ==> r.value < |s|
  {
    if |s| == 0 then None
    else if s[0] == c then Some(0)
    else match IndexOf(s[1..], c)
      case None => None
      case Some(k) => Some(k + 1)
  }

  /** Reads back a non-negative duration text, "{h}h {r}m" or "{r}m". */
  function ParseDurationText(s: string): Option<int>
  {
    if |s| < 2 || s[|s| - 1] != 'm' then None else ParseDurationBody(s[..|s| - 1])
  }

  function ParseDurationBody(body: string): Option<int>
  {
    match IndexOf(body, 'h')
    case None => ParseDigits(body)
    case Some(i) => ParseAfterHours(body[..i], body[i + 1..])
  }

  /** The part after "h" must be a space and at least one digit. */
  function ParseAfterHours(hoursText: string, rest: string): Option<int>
  {
    if |rest| > 1 && rest[0] == ' ' then CombineHours(ParseDigits(hoursText), ParseDigits(rest[1..])) else None
  }

  function CombineHours(h: Option<int>, m: Option<int>): Option<int>
  {
    if h.Some? && m.Some? then Some(h.value * 60 + m.value) else None
  }

  function ParseDigits(t: string): Option<int>
  {
    if |t| > 0 && AllDigits(t) then Some(DigitsValue(t)) else None
  }

  lemma DigitsHaveNoLetter(s: string, c: char)
    requires AllDigits(s) && !IsDigit(c)
    ensures IndexOf(s, c).None?
  {
  }

  lemma CombineDigits(hs: string, ms: string)
    requires |hs| > 0 && AllDigits(hs) && |ms| > 0 && AllDigits(ms)
    ensures CombineHours(ParseDigits(hs), ParseDigits(ms)) == Some(DigitsValue(hs) * 60 + DigitsValue(ms))
  {
  }

  lemma BodySplitsAtH(hs: string, ms: string)
    requires AllDigits(hs)
    ensures ParseDurationBody(hs + "h " + ms) == ParseAfterHours(hs, " " + ms)
  {
    var body := hs + "h " + ms;
    assert body == hs + ("h " + ms);
    DigitsHaveNoLetter(hs, 'h');
    IndexOfAfter(hs, "h " + ms, 'h');
    assert body[..|hs|] == hs;
    assert body[|hs| + 1..] == " " + ms;
  }

  lemma AfterHoursSplits(hs: string, ms: string)
    requires |ms| > 0
    ensures ParseAfterHours(hs, " " + ms) == CombineHours(ParseDigits(hs), ParseDigits(ms))
  {
    assert (" " + ms)[1..] == ms;
  }

  lemma ParseBodyHours(hs: string, ms: string)
    requires |hs| > 0 && AllDigits(hs) && |ms| > 0 && AllDigits(ms)
    ensures ParseDurationBody(hs + "h " + ms) == Some(DigitsValue(hs) * 60 + DigitsValue(ms))
  {
    BodySplitsAtH(hs, ms);
    AfterHoursSplits(hs, ms);
    CombineDigits(hs, ms);
  }

  lemma ParseHoursForm(hs: string, ms: string)
    requires |hs| > 0 && AllDigits(hs) && |ms| > 0 && AllDigits(ms)
    ensures ParseDurationText(hs + "h " + ms + "m") == Some(DigitsValue(hs) * 60 + DigitsValue(ms))
  {
    var s := hs + "h " + ms + "m";
    assert s[..|s| - 1] == hs + "h " + ms;
    ParseBodyHours(hs, ms);
  }

  lemma ParseMinutesForm(ms: string)
    requires |ms| > 0 && AllDigits(ms)
    ensures ParseDurationText(ms + "m") == Some(DigitsValue(ms))
  {
    var s := ms + "m";
    assert s[..|s| - 1] == ms;
    DigitsHaveNoLetter(ms, 'h');
    assert ParseDurationBody(ms) == Some(DigitsValue(ms));
  }

  /** The duration text of a non-negative number of minutes determines that
      number: `ParseDurationText` inverts `DurationText` on every m >= 0. */
  lemma DurationTextRoundTrip(m: int)
    requires m >= 0
    ensures ParseDurationText(DurationText(m)) == Some(m)
  {
    var hours, mins := m / 60, m % 60;
    assert JsRem(m, 60) == mins;
    NatToStringRoundTrip(mins);
    if hours > 0 {
      assert DurationText(m) == NatToString(hours) + "h " + NatToString(mins) + "m";
      NatToStringRoundTrip(hours);
      ParseHoursForm(NatToString(hours), NatToString(mins));
    } else {
      assert DurationText(m) == NatToString(mins) + "m";
      ParseMinutesForm(NatToString(mins));
    }
  }

  lemma {:induction false} IndexOfAfter(a: string, b: string, c: char)
    requires IndexOf(a, c).None? && |b| > 0 && b[0] == c
    ensures IndexOf(a + b, c) == Some(|a|)
  {
    if |a| > 0 {
      assert (a + b)[1..] == a[1..] + b;
      IndexOfAfter(a[1..], b, c);
    } else {
      assert a + b == b;
    }
  }

  /** Distinct non-negative durations never render alike. */
  lemma DurationTextInjective(m1: int, m2: int)
    requires m1 >= 0 && m2 >= 0 && DurationText(m1) == DurationText(m2)
    ensures m1 == m2
  {
    DurationTextRoundTrip(m1);
    DurationTextRoundTrip(m2);
  }
}

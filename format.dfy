// Display helpers: decimal rendering of integers, the account age text
// (`accountAge`) and HTML escaping (`escapeHTML`).

module Format {
  import opened Wrappers
  import opened Numeric
  import opened Text
  import opened Items

  // ------------------------------------------------------------ decimal text

  function DigitChar(d: nat): char
    requires d < 10
  {
    "0123456789"[d]
  }

  /** The decimal digits of `n`, most significant first. */
  function NatToString(n: nat): (s: string)
    ensures s != [] && AllChars(s, IsDigit)
  {
    if n < 10 then [DigitChar(n)] else NatToString(n / 10) + [DigitChar(n % 10)]
  }

  /** `${n}` for an integer `n`. */
  function IntToString(n: int): string
  {
    if n < 0 then "-" + NatToString(-n) else NatToString(n)
  }

  /** The number a string of decimal digits denotes. */
  function DigitsValue(s: string): int
  {
    if s == [] then 0 else 10 * DigitsValue(s[..|s| - 1]) + (s[|s| - 1] as int - '0' as int)
  }

  /** The digits read back as `n`, with no leading zero. */
  lemma {:induction false} NatToStringRoundTrip(n: nat)
    ensures var s := NatToString(n);
      && s != []
      && AllChars(s, IsDigit)
      && DigitsValue(s) == n
      && (s[0] == '0' ==> n == 0)
  {
    var s := NatToString(n);
    if n >= 10 {
      NatToStringRoundTrip(n / 10);
      assert s[..|s| - 1] == NatToString(n / 10);
      assert s[0] == NatToString(n / 10)[0];
      assert forall i | 0 <= i < |s| - 1 :: s[i] == NatToString(n / 10)[i];
    }
  }

  /** `${n}` starts with a minus sign exactly for negative numbers, and the rest
      is the decimal form of its magnitude. */
  lemma IntToStringSign(n: int)
    ensures (IntToString(n)[0] == '-') <==> n < 0
    ensures n < 0 ==> DigitsValue(IntToString(n)[1..]) == -n
    ensures n >= 0 ==> DigitsValue(IntToString(n)) == n
  {
    if n < 0 {
      var t := NatToString(-n);
      NatToStringRoundTrip(-n);
      assert IntToString(n) == "-" + t;
      assert ("-" + t)[1..] == t;
    } else {
      NatToStringRoundTrip(n);
      assert IsDigit(NatToString(n)[0]);
    }
  }

  // ------------------------------------------------------------- account age

  /** `${n} ${unit}`, with an `s` unless `n` is exactly 1. */
  function Quantity(n: int, unit: string): string
  {
    IntToString(n) + " " + unit + (if n != 1 then "s" else "")
  }

  /** Whole 365-day years and the whole 30-day months left over, of `now - ts`
      seconds. `Math.floor` after `/` and JavaScript's `%`. */
  function Years(now: int, ts: int): int
  {
    (now - ts) / SecondsPerYear
  }

  function Months(now: int, ts: int): int
  {
    JsRem(now - ts, SecondsPerYear) / SecondsPerMonth
  }

  /** `accountAge(ts)` at time `now`: the months alone under a year, the years
      alone when no month is left over, otherwise both. */
  function AccountAge(now: int, ts: int): string
  {
    var y := Years(now, ts);
    var m := Months(now, ts);
    if y == 0 then Quantity(m, "month")
    else if m == 0 then Quantity(y, "year")
    else Quantity(y, "year") + ", " + Quantity(m, "month")
  }

  /** For a creation time in the past the age splits into `y` years and `m`
      months with `m` between 0 and 12 (a 365-day year holds twelve 30-day
      months and five days), and the seconds left over are fewer than a
      month's. */
  lemma AccountAgeParts(now: int, ts: int)
    requires ts <= now
    ensures var y, m := Years(now, ts), Months(now, ts);
      && y >= 0 && 0 <= m <= 12
      && y * SecondsPerYear + m * SecondsPerMonth <= now - ts < y * SecondsPerYear + (m + 1) * SecondsPerMonth
  {
    var s := now - ts;
    var y := Years(now, ts);
    var r := JsRem(s, SecondsPerYear);
    assert s == y * SecondsPerYear + r;
    MulDivBounds(r, SecondsPerMonth);
  }

  /** Under a year, the text is the number of whole months, from "0 months" up
      to "12 months" (for an age of 360 to 364 days). */
  lemma AccountAgeUnderAYear(now: int, ts: int)
    requires 0 <= now - ts < SecondsPerYear
    ensures AccountAge(now, ts) == Quantity((now - ts) / SecondsPerMonth, "month")
    ensures now - ts >= 12 * SecondsPerMonth ==> AccountAge(now, ts) == "12 months"
  {
    var s := now - ts;
    DivUnique(s, SecondsPerYear, 0, s);
    assert Years(now, ts) == 0 && Months(now, ts) == s / SecondsPerMonth;
    if s >= 12 * SecondsPerMonth {
      DivUnique(s, SecondsPerMonth, 12, s - 12 * SecondsPerMonth);
      TwelveMonths();
    }
  }

  lemma TwelveMonths()
    ensures Quantity(12, "month") == "12 months"
  {
    assert NatToString(12) == NatToString(1) + [DigitChar(2)];
    assert IntToString(12) == "12";
  }

  /** `y` whole years and less than a month over read "y year" or "y years". */
  lemma AccountAgeWholeYears(now: int, ts: int, y: int, rest: int)
    requires y > 0 && 0 <= rest < SecondsPerMonth
    requires now - ts == y * SecondsPerYear + rest
    ensures AccountAge(now, ts) == Quantity(y, "year")
  {
    DivUnique(now - ts, SecondsPerYear, y, rest);
    DivUnique(rest, SecondsPerMonth, 0, rest);
    assert Years(now, ts) == y && Months(now, ts) == 0;
  }

  /** `y` years and `m` months (1 to 12) over read "y year(s), m month(s)". */
  lemma AccountAgeYearsAndMonths(now: int, ts: int, y: int, m: int, rest: int)
    requires y > 0 && 1 <= m && 0 <= rest < SecondsPerMonth
    requires m * SecondsPerMonth + rest < SecondsPerYear
    requires now - ts == y * SecondsPerYear + m * SecondsPerMonth + rest
    ensures AccountAge(now, ts) == Quantity(y, "year") + ", " + Quantity(m, "month")
  {
    DivUnique(now - ts, SecondsPerYear, y, m * SecondsPerMonth + rest);
    DivUnique(m * SecondsPerMonth + rest, SecondsPerMonth, m, rest);
    assert Years(now, ts) == y && Months(now, ts) == m;
  }

  /** The unit is plural exactly when the count is not 1. */
  lemma QuantityPlural(n: int, unit: string)
    ensures var q := Quantity(n, unit);
      q == IntToString(n) + " " + unit + "s" || (n == 1 && q == "1 " + unit)
    ensures Quantity(n, unit)[|Quantity(n, unit)| - 1] == 's' <==> n != 1 || (unit != [] && unit[|unit| - 1] == 's')
  {
    if n == 1 {
      assert IntToString(1) == "1";
    }
  }

  // ------------------------------------------------------------ HTML escaping

  /** `String(str || '')` followed by the four global replacements, `&` first.
      `None` stands for `null` or `undefined`. */
  function EscapeHtml(str: Option<string>): string
  {
    var s := if str.Some? then str.value else "";
    ReplaceAll(ReplaceAll(ReplaceAll(ReplaceAll(s, '&', "&amp;"), '<', "&lt;"), '>', "&gt;"), '"', "&quot;")
  }

  /** The replacements applied to a string. */
  function Escaped(s: string): string
  {
    EscapeHtml(Some(s))
  }

  /** The entity each character becomes. */
  function EscapeChar(c: char): string
  {
    if c == '&' then "&amp;"
    else if c == '<' then "&lt;"
    else if c == '>' then "&gt;"
    else if c == '"' then "&quot;"
    else [c]
  }

  /** Reference escaping: each character replaced by its entity on its own. */
  function EscapeEach(s: string): string
  {
    if s == [] then [] else EscapeChar(s[0]) + EscapeEach(s[1..])
  }

  /** What an HTML parser reads back from escaped text. */
  function Unescape(s: string): string
  {
    if s == [] then []
    else if |s| >= 5 && s[..5] == "&amp;" then "&" + Unescape(s[5..])
    else if |s| >= 4 && s[..4] == "&lt;" then "<" + Unescape(s[4..])
    else if |s| >= 4 && s[..4] == "&gt;" then ">" + Unescape(s[4..])
    else if |s| >= 6 && s[..6] == "&quot;" then "\"" + Unescape(s[6..])
    else [s[0]] + Unescape(s[1..])
  }

  lemma EscapedAppend(a: string, b: string)
    ensures Escaped(a + b) == Escaped(a) + Escaped(b)
  {
    ReplaceAllAppend(a, b, '&', "&amp;");
    var a1, b1 := ReplaceAll(a, '&', "&amp;"), ReplaceAll(b, '&', "&amp;");
    ReplaceAllAppend(a1, b1, '<', "&lt;");
    var a2, b2 := ReplaceAll(a1, '<', "&lt;"), ReplaceAll(b1, '<', "&lt;");
    ReplaceAllAppend(a2, b2, '>', "&gt;");
    var a3, b3 := ReplaceAll(a2, '>', "&gt;"), ReplaceAll(b2, '>', "&gt;");
    ReplaceAllAppend(a3, b3, '"', "&quot;");
  }

  lemma EscapedChar(c: char)
    ensures Escaped([c]) == EscapeChar(c)
  {
    if c == '&' { EscapedAmp(); }
    else if c == '<' { EscapedLt(); }
    else if c == '>' { EscapedGt(); }
    else if c == '"' { EscapedQuot(); }
    else {
      ReplaceAllAbsent([c], '&', "&amp;");
      ReplaceAllAbsent([c], '<', "&lt;");
      ReplaceAllAbsent([c], '>', "&gt;");
      ReplaceAllAbsent([c], '"', "&quot;");
    }
  }

  lemma EscapedAmp()
    ensures Escaped("&") == "&amp;"
  {
    ReplaceAllSingle('&', '&', "&amp;");
    LaterStepsAbsent("&amp;");
  }

  /** The last three replacements leave text without `<`, `>` and `"` alone. */
  lemma LaterStepsAbsent(s: string)
    requires '<' !in s && '>' !in s && '"' !in s
    ensures ReplaceAll(ReplaceAll(ReplaceAll(s, '<', "&lt;"), '>', "&gt;"), '"', "&quot;") == s
  {
    ReplaceAllAbsent(s, '<', "&lt;");
    ReplaceAllAbsent(s, '>', "&gt;");
    ReplaceAllAbsent(s, '"', "&quot;");
  }

  lemma EscapedLt()
    ensures Escaped("<") == "&lt;"
  {
    ReplaceAllAbsent("<", '&', "&amp;");
    ReplaceAllSingle('<', '<', "&lt;");
    ReplaceAllAbsent("&lt;", '>', "&gt;");
    ReplaceAllAbsent("&lt;", '"', "&quot;");
  }

  lemma EscapedGt()
    ensures Escaped(">") == "&gt;"
  {
    ReplaceAllAbsent(">", '&', "&amp;");
    ReplaceAllAbsent(">", '<', "&lt;");
    ReplaceAllSingle('>', '>', "&gt;");
    ReplaceAllAbsent("&gt;", '"', "&quot;");
  }

  lemma EscapedQuot()
    ensures Escaped("\"") == "&quot;"
  {
    ReplaceAllAbsent("\"", '&', "&amp;");
    ReplaceAllAbsent("\"", '<', "&lt;");
    ReplaceAllAbsent("\"", '>', "&gt;");
    ReplaceAllSingle('"', '"', "&quot;");
  }

  /** The chain of global replacements escapes every character on its own:
      replacing `&` first keeps the later entities from being escaped again. */
  lemma {:induction false} EscapedIsEscapeEach(s: string)
    ensures Escaped(s) == EscapeEach(s)
  {
    if s != [] {
      assert s == [s[0]] + s[1..];
      EscapedAppend([s[0]], s[1..]);
      EscapedChar(s[0]);
      EscapedIsEscapeEach(s[1..]);
    }
  }

  lemma UnescapeEscapeChar(c: char, t: string)
    ensures Unescape(EscapeChar(c) + t) == [c] + Unescape(t)
  {
    if c == '&' { UnescapeAmp(t); }
    else if c == '<' || c == '>' { UnescapeAngle(c, t); }
    else if c == '"' { UnescapeQuot(t); }
    else { UnescapeOther(c, t); }
  }

  /** Any other character reads back as itself. */
  lemma UnescapeOther(c: char, t: string)
    requires c != '&'
    ensures Unescape([c] + t) == [c] + Unescape(t)
  {
    var e := [c] + t;
    assert e[0] == c && e[1..] == t;
    if |e| >= 4 { assert e[..4][0] == c; }
    if |e| >= 5 { assert e[..5][0] == c; }
    if |e| >= 6 { assert e[..6][0] == c; }
  }

  /** Each entity at the front of the text reads back as its character. */
  lemma UnescapeAmp(t: string)
    ensures Unescape("&amp;" + t) == "&" + Unescape(t)
  {
    var e := "&amp;" + t;
    assert e[..5] == "&amp;" && e[5..] == t;
  }

  /** `&lt;` and `&gt;` read back as `<` and `>`. */
  lemma UnescapeAngle(c: char, t: string)
    requires c == '<' || c == '>'
    ensures Unescape(EscapeChar(c) + t) == [c] + Unescape(t)
  {
    var entity := EscapeChar(c);
    var e := entity + t;
    assert |entity| == 4 && entity[1] != 'a';
    assert e[1] == entity[1];
    assert e[..4] == entity && e[4..] == t;
  }

  lemma UnescapeQuot(t: string)
    ensures Unescape("&quot;" + t) == "\"" + Unescape(t)
  {
    var e := "&quot;" + t;
    assert e[1] == 'q';
    assert e[..6] == "&quot;" && e[6..] == t;
  }

  /** Escaping loses nothing: the escaped text reads back as the original. */
  lemma {:induction false} EscapeHtmlRoundTrip(s: string)
    ensures Unescape(EscapeHtml(Some(s))) == s
  {
    EscapedIsEscapeEach(s);
    EscapeEachRoundTrip(s);
  }

  lemma {:induction false} EscapeEachRoundTrip(s: string)
    ensures Unescape(EscapeEach(s)) == s
  {
    if s != [] {
      EscapeEachRoundTrip(s[1..]);
      UnescapeEscapeChar(s[0], EscapeEach(s[1..]));
    }
  }

  /** The output holds no `<`, `>` or `"`, and a missing value escapes to
      the empty string. */
  lemma EscapeHtmlSafe(str: Option<string>)
    ensures var r := EscapeHtml(str); '<' !in r && '>' !in r && '"' !in r
    ensures str.None? ==> EscapeHtml(str) == ""
  {
    var s := if str.Some? then str.value else "";
    var s1 := ReplaceAll(s, '&', "&amp;");
    var s2 := ReplaceAll(s1, '<', "&lt;");
    var s3 := ReplaceAll(s2, '>', "&gt;");
    ReplaceAllKeepsOut(s2, '>', "&gt;", '<');
    ReplaceAllKeepsOut(s3, '"', "&quot;", '<');
    ReplaceAllKeepsOut(s3, '"', "&quot;", '>');
  }

  /** Text without any of the four special characters is left unchanged. */
  lemma EscapeHtmlPlain(s: string)
    requires '&' !in s && '<' !in s && '>' !in s && '"' !in s
    ensures EscapeHtml(Some(s)) == s
  {
    ReplaceAllAbsent(s, '&', "&amp;");
    ReplaceAllAbsent(s, '<', "&lt;");
    ReplaceAllAbsent(s, '>', "&gt;");
    ReplaceAllAbsent(s, '"', "&quot;");
  }
}

/** The release-date conversion of the content loader: Python's
    `datetime.strptime` with the formats `%Y-%m-%dT%H:%M:%S.%fZ` and
    `%Y-%m-%dT%H:%M:%SZ`, and `datetime.isoformat()` of the result.

    `strptime` matches a regular expression built from the format, case
    insensitively, against the whole string: `%Y` is exactly four digits,
    `%m` one or two digits for 1..12, `%d` one or two digits for 1..31 or a
    space and one digit, `%H` 0..23, `%M` 0..59, `%S` 0..61 (one or two
    digits each), `%f` one to six digits padded with zeros on the right to
    microseconds. The `datetime` built from the fields must then exist:
    year at least 1, the day within the month, seconds at most 59. Every
    failure is a ValueError. */
module ReleaseDate {

  import opened Values
  import opened Decimal

  /** A parsed field and the text after it. */
  datatype Scan = Scan(value: nat, rest: string)

  /** The number of leading ASCII digits of `s`. */
  function DigitPrefix(s: string): (n: nat)
    ensures n <= |s| && AllDigits(s[..n])
    ensures n < |s| ==> !IsDigit(s[n])
  {
    if s != [] && IsDigit(s[0]) then
      var n := 1 + DigitPrefix(s[1..]);
      assert s[..n] == [s[0]] + s[1..][..n - 1];
      n
    else 0
  }

  /** A numeric field: the whole run of leading digits, of an accepted
      length, denoting a value in `lo..hi`. The text after a field never
      starts with a digit, so shorter matches of the run cannot be completed
      by the next literal. */
  function Number(s: string, minLen: nat, maxLen: nat, lo: nat, hi: nat): (r: Result<Scan>)
    ensures r.Ok? ==> lo <= r.value.value <= hi && |r.value.rest| < |s|
    ensures r.Err? ==> r.error == ValueError
  {
    var n := DigitPrefix(s);
    if 1 <= minLen <= n <= maxLen && lo <= DigitsValue(s[..n]) <= hi then Ok(Scan(DigitsValue(s[..n]), s[n..]))
    else Err(ValueError)
  }

  /** A literal of the format; `options` holds both cases of a letter. */
  function Literal(s: string, options: string): (r: Result<string>)
    ensures r.Ok? ==> s != [] && s[0] in options && r.value == s[1..]
    ensures r.Err? ==> r.error == ValueError
  {
    if s != [] && s[0] in options then Ok(s[1..]) else Err(ValueError)
  }

  /** `%d`: one or two digits for 1..31, or a space and one digit. */
  function Day(s: string): (r: Result<Scan>)
    ensures r.Ok? ==> 1 <= r.value.value <= 31
    ensures r.Err? ==> r.error == ValueError
  {
    if s != [] && s[0] == ' ' then Number(s[1..], 1, 1, 1, 9) else Number(s, 1, 2, 1, 31)
  }

  /** `.%f`: a dot, then one to six digits read as a fraction of a second. */
  function Fraction(s: string): (r: Result<Scan>)
    ensures r.Err? ==> r.error == ValueError
  {
    var afterDot :- Literal(s, ".");
    var digits :- Number(afterDot, 1, 6, 0, 999999);
    var n := |afterDot| - |digits.rest|;
    if 1 <= n <= 6 then Ok(Scan(digits.value * Pow10(6 - n), digits.rest)) else Err(ValueError)
  }

  predicate IsLeapYear(year: int) {
    year % 4 == 0 && (year % 100 != 0 || year % 400 == 0)
  }

  function DaysInMonth(year: int, month: int): int
    requires 1 <= month <= 12
  {
    if month == 2 then (if IsLeapYear(year) then 29 else 28)
    else if month in {4, 6, 9, 11} then 30
    else 31
  }

  /** A `datetime` that Python can represent. */
  predicate ValidDateTime(dt: DateTime) {
    && 1 <= dt.year <= 9999
    && 1 <= dt.month <= 12
    && 1 <= dt.day <= DaysInMonth(dt.year, dt.month)
    && 0 <= dt.hour <= 23
    && 0 <= dt.minute <= 59
    && 0 <= dt.second <= 59
    && 0 <= dt.microsecond <= 999999
  }

  /** The `datetime` constructor: ValueError when the fields name no instant. */
  function MakeDateTime(dt: DateTime): (r: Result<DateTime>)
    ensures r.Ok? <==> ValidDateTime(dt)
    ensures r.Ok? ==> r.value == dt
    ensures r.Err? ==> r.error == ValueError
  {
    if ValidDateTime(dt) then Ok(dt) else Err(ValueError)
  }

  /** Three numeric fields and the text after them. */
  datatype Fields = Fields(first: nat, second: nat, third: nat, rest: string)

  /** `%Y-%m-%d`. */
  function DatePart(s: string): (r: Result<Fields>)
    ensures r.Err? ==> r.error == ValueError
    ensures r.Ok? ==> 1 <= r.value.second <= 12 && 1 <= r.value.third <= 31 && r.value.first <= 9999
  {
    var year :- Number(s, 4, 4, 0, 9999);
    var s1 :- Literal(year.rest, "-");
    var month :- Number(s1, 1, 2, 1, 12);
    var s2 :- Literal(month.rest, "-");
    var day :- Day(s2);
    Ok(Fields(year.value, month.value, day.value, day.rest))
  }

  /** `%H:%M:%S`. */
  function TimePart(s: string): (r: Result<Fields>)
    ensures r.Err? ==> r.error == ValueError
    ensures r.Ok? ==> r.value.first <= 23 && r.value.second <= 59 && r.value.third <= 61
  {
    var hour :- Number(s, 1, 2, 0, 23);
    var s1 :- Literal(hour.rest, ":");
    var minute :- Number(s1, 1, 2, 0, 59);
    var s2 :- Literal(minute.rest, ":");
    var second :- Number(s2, 1, 2, 0, 61);
    Ok(Fields(hour.value, minute.value, second.value, second.rest))
  }

  /** `datetime.strptime(s, format)` for the format with (`withFraction`) or
      without the `.%f` part; the whole string must be consumed. */
  function ParseFormat(s: string, withFraction: bool): (r: Result<DateTime>)
    ensures r.Ok? ==> ValidDateTime(r.value)
    ensures r.Err? ==> r.error == ValueError
    ensures r.Ok? && !withFraction ==> r.value.microsecond == 0
  {
    var date :- DatePart(s);
    var s1 :- Literal(date.rest, "Tt");
    var time :- TimePart(s1);
    var fraction :- if withFraction then Fraction(time.rest) else Ok(Scan(0, time.rest));
    var s2 :- Literal(fraction.rest, "Zz");
    if s2 != [] then Err(ValueError)
    else MakeDateTime(DateTime(date.first, date.second, date.third, time.first, time.second, time.third, fraction.value))
  }

  /** The `try`/`except ValueError` of `generate_documents`: the format with
      fractional seconds first, the whole-seconds format only when that
      fails. A value that is not a string raises TypeError, which the
      `except` does not catch. */
  function ParseRelease(v: Value): (r: Result<DateTime>)
    ensures r.Ok? ==> v.Str? && ValidDateTime(r.value)
    ensures !v.Str? ==> r == Err(TypeError)
    ensures v.Str? && ParseFormat(v.s, true).Ok? ==> r == ParseFormat(v.s, true)
    ensures v.Str? && ParseFormat(v.s, true).Err? ==> r == ParseFormat(v.s, false)
  {
    if !v.Str? then Err(TypeError)
    else
      match ParseFormat(v.s, true)
      case Ok(dt) => Ok(dt)
      case Err(_) => ParseFormat(v.s, false)
  }

  /** The fractional part `isoformat` writes: nothing for a whole second,
      otherwise a dot and six digits. */
  function FractionText(microsecond: int): (s: string)
    requires 0 <= microsecond <= 999999
  {
    if microsecond == 0 then "" else "." + Fixed(microsecond, 6)
  }

  /** `isoformat()` of a valid `datetime` without time zone, followed by
      `suffix`: `YYYY-MM-DDTHH:MM:SS`, then `.ffffff` only when the
      microseconds are not zero. */
  function IsoText(dt: DateTime, suffix: string): (s: string)
    requires ValidDateTime(dt)
  {
    Fixed(dt.year, 4) + ("-" + (Fixed(dt.month, 2) + ("-" + (Fixed(dt.day, 2) + ("T" + (Fixed(dt.hour, 2)
      + (":" + (Fixed(dt.minute, 2) + (":" + (Fixed(dt.second, 2) + (FractionText(dt.microsecond) + suffix)))))))))))
  }

  /** `dt.isoformat()`. */
  function IsoFormat(dt: DateTime): (s: string)
    requires ValidDateTime(dt)
    ensures |s| == (if dt.microsecond == 0 then 19 else 26)
  {
    IsoText(dt, "")
  }

  lemma IsoTextSuffix(dt: DateTime, suffix: string)
    requires ValidDateTime(dt)
    ensures IsoText(dt, suffix) == IsoFormat(dt) + suffix
  {
  }

  /** Reading a run of digits that ends where non-digits start. */
  lemma {:induction false} DigitPrefixOf(a: string, rest: string)
    requires AllDigits(a)
    requires rest == [] || !IsDigit(rest[0])
    ensures DigitPrefix(a + rest) == |a|
  {
    if a != [] {
      assert (a + rest)[1..] == a[1..] + rest;
      DigitPrefixOf(a[1..], rest);
    }
  }

  lemma NumberOf(a: string, rest: string, minLen: nat, maxLen: nat, lo: nat, hi: nat)
    requires AllDigits(a) && (rest == [] || !IsDigit(rest[0]))
    requires 1 <= minLen <= |a| <= maxLen && lo <= DigitsValue(a) <= hi
    ensures Number(a + rest, minLen, maxLen, lo, hi) == Ok(Scan(DigitsValue(a), rest))
  {
    DigitPrefixOf(a, rest);
    assert (a + rest)[..|a|] == a && (a + rest)[|a|..] == rest;
  }

  lemma FixedField(n: nat, width: nat, rest: string, minLen: nat, maxLen: nat, lo: nat, hi: nat)
    requires n < Pow10(width)
    requires rest == [] || !IsDigit(rest[0])
    requires 1 <= minLen <= width <= maxLen && lo <= n <= hi
    ensures Number(Fixed(n, width) + rest, minLen, maxLen, lo, hi) == Ok(Scan(n, rest))
  {
    FixedValue(n, width);
    NumberOf(Fixed(n, width), rest, minLen, maxLen, lo, hi);
  }

  /** Six written digits read back as the same number of microseconds. */
  lemma FractionOf(microsecond: nat, rest: string)
    requires 0 < microsecond <= 999999
    requires rest == [] || !IsDigit(rest[0])
    ensures Fraction(FractionText(microsecond) + rest) == Ok(Scan(microsecond, rest))
  {
    var afterDot := Fixed(microsecond, 6) + rest;
    assert FractionText(microsecond) + rest == "." + afterDot;
    FixedField(microsecond, 6, rest, 1, 6, 0, 999999);
    FractionRead(afterDot, microsecond, rest);
  }

  /** Six fractional digits need no padding. */
  lemma FractionRead(afterDot: string, v: nat, rest: string)
    requires Number(afterDot, 1, 6, 0, 999999) == Ok(Scan(v, rest))
    requires |afterDot| == 6 + |rest|
    ensures Fraction("." + afterDot) == Ok(Scan(v, rest))
  {
    assert ("." + afterDot)[1..] == afterDot;
  }

  lemma DatePartOf(dt: DateTime, rest: string)
    requires ValidDateTime(dt)
    requires rest == [] || !IsDigit(rest[0])
    ensures DatePart(Fixed(dt.year, 4) + ("-" + (Fixed(dt.month, 2) + ("-" + (Fixed(dt.day, 2) + rest)))))
         == Ok(Fields(dt.year, dt.month, dt.day, rest))
  {
    var s2 := Fixed(dt.day, 2) + rest;
    var s1 := Fixed(dt.month, 2) + ("-" + s2);
    FixedField(dt.year, 4, "-" + s1, 4, 4, 0, 9999);
    FixedField(dt.month, 2, "-" + s2, 1, 2, 1, 12);
    FixedField(dt.day, 2, rest, 1, 2, 1, 31);
    assert ("-" + s1)[1..] == s1 && ("-" + s2)[1..] == s2;
  }

  lemma TimePartOf(dt: DateTime, rest: string)
    requires ValidDateTime(dt)
    requires rest == [] || !IsDigit(rest[0])
    ensures TimePart(Fixed(dt.hour, 2) + (":" + (Fixed(dt.minute, 2) + (":" + (Fixed(dt.second, 2) + rest)))))
         == Ok(Fields(dt.hour, dt.minute, dt.second, rest))
  {
    var s2 := Fixed(dt.second, 2) + rest;
    var s1 := Fixed(dt.minute, 2) + (":" + s2);
    FixedField(dt.hour, 2, ":" + s1, 1, 2, 0, 23);
    FixedField(dt.minute, 2, ":" + s2, 1, 2, 0, 59);
    FixedField(dt.second, 2, rest, 1, 2, 0, 61);
    assert (":" + s1)[1..] == s1 && (":" + s2)[1..] == s2;
  }

  /** `ParseFormat` assembled from its parts, for text ending in `Z`. */
  lemma ParseFormatSteps(s: string, withFraction: bool, date: Fields, time: Fields, fraction: Scan)
    requires DatePart(s) == Ok(date) && date.rest != [] && date.rest[0] == 'T'
    requires TimePart(date.rest[1..]) == Ok(time)
    requires (if withFraction then Fraction(time.rest) else Ok(Scan(0, time.rest))) == Ok(fraction)
    requires fraction.rest == "Z"
    ensures ParseFormat(s, withFraction)
         == MakeDateTime(DateTime(date.first, date.second, date.third, time.first, time.second, time.third, fraction.value))
  {
  }

  /** Text that ends right after the seconds has no fractional part. */
  lemma ParseFormatNoFraction(s: string, date: Fields, time: Fields)
    requires DatePart(s) == Ok(date) && date.rest != [] && date.rest[0] == 'T'
    requires TimePart(date.rest[1..]) == Ok(time)
    requires time.rest == "Z"
    ensures ParseFormat(s, true).Err?
  {
  }

  /** The timestamp format of the source collection round-trips: parsing
      `isoformat()` plus `Z` gives back the same `datetime`, through the
      fractional format when there are microseconds and through the
      whole-seconds fallback otherwise. */
  lemma ParseIsoFormat(dt: DateTime)
    requires ValidDateTime(dt)
    ensures ParseRelease(Str(IsoFormat(dt) + "Z")) == Ok(dt)
  {
    IsoTextSuffix(dt, "Z");
    var tail := FractionText(dt.microsecond) + "Z";
    var time := Fixed(dt.hour, 2) + (":" + (Fixed(dt.minute, 2) + (":" + (Fixed(dt.second, 2) + tail))));
    var s := IsoText(dt, "Z");
    assert s == Fixed(dt.year, 4) + ("-" + (Fixed(dt.month, 2) + ("-" + (Fixed(dt.day, 2) + ("T" + time)))));
    DatePartOf(dt, "T" + time);
    var date := Fields(dt.year, dt.month, dt.day, "T" + time);
    assert date.rest[1..] == time;
    TimePartOf(dt, tail);
    var t := Fields(dt.hour, dt.minute, dt.second, tail);
    if dt.microsecond != 0 {
      FractionOf(dt.microsecond, "Z");
      ParseFormatSteps(s, true, date, t, Scan(dt.microsecond, "Z"));
    } else {
      ParseFormatNoFraction(s, date, t);
      ParseFormatSteps(s, false, date, t, Scan(0, "Z"));
    }
  }

  /** The emitted `release_date` denotes the parsed instant: reading it back
      with a `Z` appended gives the same `datetime`. */
  lemma EmittedDateRoundTrips(v: Value)
    requires ParseRelease(v).Ok?
    ensures ParseRelease(Str(IsoFormat(ParseRelease(v).value) + "Z")) == ParseRelease(v)
  {
    ParseIsoFormat(ParseRelease(v).value);
  }
}

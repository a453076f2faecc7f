/**
 * The current-time text of `iso_utc_now`: the UTC clock reading rendered with
 * `strftime("%Y-%m-%dT%H:%M:%S.%f")`, its last three characters cut off and a
 * `Z` appended, which gives the extended ISO 8601 form
 * YYYY-MM-DDTHH:MM:SS.mmmZ (section 5.6 of RFC 3339) with milliseconds.
 * The clock itself is an input: a valid Python `datetime` in UTC.
 */
module Timestamp {
  import opened Base
  import opened Digits

  /** The components of a Python `datetime` (its tzinfo is UTC). */
  datatype DateTime = DateTime(
    year: int, month: int, day: int,
    hour: int, minute: int, second: int, microsecond: int)

  /** What the timestamp text keeps: the reading truncated to the millisecond. */
  datatype Stamp = Stamp(
    year: int, month: int, day: int,
    hour: int, minute: int, second: int, millisecond: int)

  predicate IsLeapYear(y: int) {
    y % 4 == 0 && (y % 100 != 0 || y % 400 == 0)
  }

  function DaysInMonth(y: int, m: int): (n: int)
    requires 1 <= m <= 12
    ensures 28 <= n <= 31
  {
    if m == 2 then (if IsLeapYear(y) then 29 else 28)
    else if m == 4 || m == 6 || m == 9 || m == 11 then 30
    else 31
  }

  /** The ranges `datetime` enforces (MINYEAR 1 to MAXYEAR 9999). */
  predicate Valid(dt: DateTime) {
    && 1 <= dt.year <= 9999
    && 1 <= dt.month <= 12
    && 1 <= dt.day <= DaysInMonth(dt.year, dt.month)
    && 0 <= dt.hour < 24
    && 0 <= dt.minute < 60
    && 0 <= dt.second < 60
    && 0 <= dt.microsecond < 1000000
  }

  /** `dt.strftime("%Y-%m-%dT%H:%M:%S.%f")`: every field zero-padded. */
  function Strftime(dt: DateTime): (s: string)
    requires Valid(dt)
    ensures |s| == 26
  {
    Padded(dt.year, 4) + "-" + Padded(dt.month, 2) + "-" + Padded(dt.day, 2)
    + "T" + Padded(dt.hour, 2) + ":" + Padded(dt.minute, 2) + ":" + Padded(dt.second, 2)
    + "." + Padded(dt.microsecond, 6)
  }

  /** `strftime(...)[:-3] + "Z"`. */
  function IsoUtc(dt: DateTime): (s: string)
    requires Valid(dt)
    ensures |s| == 24 && s[23] == 'Z'
  {
    var f := Strftime(dt);
    f[..|f| - 3] + "Z"
  }

  /** The millisecond reading of a datetime: the microseconds divided by 1000, truncated. */
  function Truncate(dt: DateTime): Stamp {
    Stamp(dt.year, dt.month, dt.day, dt.hour, dt.minute, dt.second, dt.microsecond / 1000)
  }

  predicate DigitsAt(s: string, lo: nat, hi: nat)
    requires lo <= hi <= |s|
  {
    forall i :: lo <= i < hi ==> IsDigit(s[i])
  }

  /** YYYY-MM-DDTHH:MM:SS.mmmZ: digits and separators in their fixed places. */
  predicate IsTimestampShape(s: string) {
    && |s| == 24
    && DigitsAt(s, 0, 4) && s[4] == '-' && DigitsAt(s, 5, 7) && s[7] == '-' && DigitsAt(s, 8, 10)
    && s[10] == 'T' && DigitsAt(s, 11, 13) && s[13] == ':' && DigitsAt(s, 14, 16) && s[16] == ':'
    && DigitsAt(s, 17, 19) && s[19] == '.' && DigitsAt(s, 20, 23) && s[23] == 'Z'
  }

  /** The number held in the digits `s[lo..hi]`. */
  function FieldValue(s: string, lo: nat, hi: nat): nat
    requires lo <= hi <= |s| && DigitsAt(s, lo, hi)
  {
    assert AllDigits(s[lo..hi]);
    ValueOf(s[lo..hi])
  }

  /** Reads a timestamp text back into its seven numbers. */
  function ParseStamp(s: string): Option<Stamp>
  {
    if !IsTimestampShape(s) then None
    else Some(Stamp(FieldValue(s, 0, 4), FieldValue(s, 5, 7), FieldValue(s, 8, 10),
                    FieldValue(s, 11, 13), FieldValue(s, 14, 16), FieldValue(s, 17, 19),
                    FieldValue(s, 20, 23)))
  }

  /** The text laid out from seven fields of the right widths. */
  function Layout(y: string, mo: string, d: string, h: string, mi: string, se: string, ms: string): string
  {
    y + "-" + mo + "-" + d + "T" + h + ":" + mi + ":" + se + "." + ms + "Z"
  }

  /** Each field of a layout sits at its fixed position. */
  lemma LayoutFields(y: string, mo: string, d: string, h: string, mi: string, se: string, ms: string)
    requires |y| == 4 && |mo| == 2 && |d| == 2 && |h| == 2 && |mi| == 2 && |se| == 2 && |ms| == 3
    ensures var s := Layout(y, mo, d, h, mi, se, ms);
      && |s| == 24
      && s[0..4] == y && s[5..7] == mo && s[8..10] == d && s[11..13] == h
      && s[14..16] == mi && s[17..19] == se && s[20..23] == ms
      && s[4] == '-' && s[7] == '-' && s[10] == 'T' && s[13] == ':' && s[16] == ':'
      && s[19] == '.' && s[23] == 'Z'
  {
  }

  /** The timestamp is the strftime text with the microsecond field cut to its first three digits. */
  lemma IsoUtcPieces(dt: DateTime)
    requires Valid(dt)
    ensures IsoUtc(dt) == Layout(
      Padded(dt.year, 4), Padded(dt.month, 2), Padded(dt.day, 2),
      Padded(dt.hour, 2), Padded(dt.minute, 2), Padded(dt.second, 2),
      Padded(dt.microsecond / 1000, 3))
  {
    var head := Padded(dt.year, 4) + "-" + Padded(dt.month, 2) + "-" + Padded(dt.day, 2)
      + "T" + Padded(dt.hour, 2) + ":" + Padded(dt.minute, 2) + ":" + Padded(dt.second, 2) + ".";
    var f := Strftime(dt);
    assert f == head + Padded(dt.microsecond, 6);
    assert |head| == 20;
    SixDigitPrefix(dt.microsecond);
    assert f[..23] == head + Padded(dt.microsecond, 6)[..3];
  }

  /** Every timestamp has the shape YYYY-MM-DDTHH:MM:SS.mmmZ. */
  lemma IsoUtcShape(dt: DateTime)
    requires Valid(dt)
    ensures IsTimestampShape(IsoUtc(dt))
  {
    IsoUtcPieces(dt);
    LayoutFields(
      Padded(dt.year, 4), Padded(dt.month, 2), Padded(dt.day, 2),
      Padded(dt.hour, 2), Padded(dt.minute, 2), Padded(dt.second, 2),
      Padded(dt.microsecond / 1000, 3));
  }

  /** The millisecond field holds `microsecond // 1000`: truncated, never rounded. */
  lemma MillisecondField(dt: DateTime)
    requires Valid(dt)
    ensures ValueOf(IsoUtc(dt)[20..23]) == dt.microsecond / 1000
  {
    IsoUtcPieces(dt);
    LayoutFields(
      Padded(dt.year, 4), Padded(dt.month, 2), Padded(dt.day, 2),
      Padded(dt.hour, 2), Padded(dt.minute, 2), Padded(dt.second, 2),
      Padded(dt.microsecond / 1000, 3));
    PaddedRoundTrip(dt.microsecond / 1000, 3);
  }

  /** Reading the timestamp back gives the clock reading truncated to the millisecond. */
  lemma IsoUtcRoundTrip(dt: DateTime)
    requires Valid(dt)
    ensures ParseStamp(IsoUtc(dt)) == Some(Truncate(dt))
  {
    var s := IsoUtc(dt);
    IsoUtcShape(dt);
    IsoUtcPieces(dt);
    LayoutFields(
      Padded(dt.year, 4), Padded(dt.month, 2), Padded(dt.day, 2),
      Padded(dt.hour, 2), Padded(dt.minute, 2), Padded(dt.second, 2),
      Padded(dt.microsecond / 1000, 3));
    PaddedRoundTrip(dt.year, 4);
    PaddedRoundTrip(dt.month, 2);
    PaddedRoundTrip(dt.day, 2);
    PaddedRoundTrip(dt.hour, 2);
    PaddedRoundTrip(dt.minute, 2);
    PaddedRoundTrip(dt.second, 2);
    PaddedRoundTrip(dt.microsecond / 1000, 3);
  }

  /** Two clock readings give the same text exactly when they agree to the millisecond. */
  lemma IsoUtcSameIffSameMillisecond(a: DateTime, b: DateTime)
    requires Valid(a) && Valid(b)
    ensures IsoUtc(a) == IsoUtc(b) <==> Truncate(a) == Truncate(b)
  {
    IsoUtcRoundTrip(a);
    IsoUtcRoundTrip(b);
    IsoUtcPieces(a);
    IsoUtcPieces(b);
  }
}

/**
 * Uptime of the service (`get_uptime_seconds`): whole elapsed seconds and
 * a human-readable "<hours> hours, <minutes> minutes" text. The clock read
 * and the float subtraction happen outside the model; `elapsed` is the
 * already-truncated `int(delta)`.
 */
module Uptime {
  import opened Base
  import opened Digits

  const SecondsPerHour: nat := 3600
  const SecondsPerMinute: nat := 60
  const HoursWord := " hours, "
  const MinutesWord := " minutes"

  /** What `get_uptime_seconds` returns: its `seconds` and `human` entries. */
  datatype UptimeInfo = UptimeInfo(seconds: nat, human: string)

  /** `h` whole hours and `m` whole minutes are the truncated reading of `s` seconds. */
  predicate IsTruncatedSplit(s: nat, h: nat, m: nat) {
    && m < 60
    && h * SecondsPerHour + m * SecondsPerMinute <= s
    && s < h * SecondsPerHour + m * SecondsPerMinute + SecondsPerMinute
  }

  /** `seconds // 3600` and `(seconds % 3600) // 60`: a truncating split, minutes below 60. */
  function HoursMinutes(seconds: nat): (hm: (nat, nat))
    ensures IsTruncatedSplit(seconds, hm.0, hm.1)
  {
    (seconds / SecondsPerHour, (seconds % SecondsPerHour) / SecondsPerMinute)
  }

  /** The f-string `f"{hours} hours, {minutes} minutes"`. */
  function HumanText(hours: nat, minutes: nat): string
  {
    Decimal(hours) + HoursWord + Decimal(minutes) + MinutesWord
  }

  /**
   * `get_uptime_seconds` once the clock has been read: the seconds unchanged,
   * and a text that reads back as the truncated hours and minutes.
   */
  function GetUptime(elapsed: nat): (u: UptimeInfo)
    ensures u.seconds == elapsed
    ensures ParseHuman(u.human).Some?
    ensures IsTruncatedSplit(elapsed, ParseHuman(u.human).value.0, ParseHuman(u.human).value.1)
    ensures forall h: nat, m: nat :: IsTruncatedSplit(elapsed, h, m) ==> u.human == HumanText(h, m)
  {
    var hm := HoursMinutes(elapsed);
    HumanRoundTrip(hm.0, hm.1);
    assert forall h: nat, m: nat :: IsTruncatedSplit(elapsed, h, m) ==> (h, m) == hm by {
      forall h: nat, m: nat | IsTruncatedSplit(elapsed, h, m) ensures (h, m) == hm {
        TruncatedSplitUnique(elapsed, h, m);
      }
    }
    UptimeInfo(elapsed, HumanText(hm.0, hm.1))
  }

  /** There is exactly one truncated split, so the text cannot name another. */
  lemma TruncatedSplitUnique(s: nat, h: nat, m: nat)
    requires IsTruncatedSplit(s, h, m)
    ensures (h, m) == HoursMinutes(s)
  {
    DivUnique(s, SecondsPerHour, h, m * SecondsPerMinute + (s - h * SecondsPerHour - m * SecondsPerMinute));
    DivUnique(s % SecondsPerHour, SecondsPerMinute, m, s - h * SecondsPerHour - m * SecondsPerMinute);
  }

  /** Later readings never report fewer hours, nor fewer minutes within the same hour. */
  lemma UptimeMonotone(s1: nat, s2: nat)
    requires s1 <= s2
    ensures HoursMinutes(s1).0 <= HoursMinutes(s2).0
    ensures HoursMinutes(s1).0 == HoursMinutes(s2).0 ==> HoursMinutes(s1).1 <= HoursMinutes(s2).1
  {
  }

  /** Number of leading decimal digits of `s`. */
  function LeadingDigits(s: string): (n: nat)
    ensures n <= |s|
    ensures forall i :: 0 <= i < n ==> IsDigit(s[i])
    ensures n == |s| || !IsDigit(s[n])
  {
    if s == [] || !IsDigit(s[0]) then 0 else 1 + LeadingDigits(s[1..])
  }

  /**
   * Reads "<digits> hours, <digits> minutes" back into its two numbers.
   * Each number must be written as `str` writes it, without leading zeros.
   */
  function ParseHuman(t: string): Option<(nat, nat)>
  {
    var i := LeadingDigits(t);
    if i == 0 || !IsCanonical(t[..i]) || !(HoursWord <= t[i..]) then None
    else
      var rest := t[i + |HoursWord|..];
      var j := LeadingDigits(rest);
      if j == 0 || !IsCanonical(rest[..j]) || rest[j..] != MinutesWord then None
      else Some((ValueOf(t[..i]), ValueOf(rest[..j])))
  }

  /** What an accepted text consists of: two canonical digit runs around the two words. */
  lemma ParseHumanFields(t: string)
    requires ParseHuman(t).Some?
    ensures var i := LeadingDigits(t);
      && i + |HoursWord| <= |t| && HoursWord <= t[i..]
      && var rest := t[i + |HoursWord|..];
      && var j := LeadingDigits(rest);
      && IsCanonical(t[..i]) && IsCanonical(rest[..j]) && rest[j..] == MinutesWord
      && ParseHuman(t).value == (ValueOf(t[..i]), ValueOf(rest[..j]))
  {
  }

  /** A text cut at the two digit runs is those runs joined by the two words. */
  lemma Reassemble(t: string, i: nat, rest: string, j: nat)
    requires i + |HoursWord| <= |t| && HoursWord <= t[i..] && rest == t[i + |HoursWord|..]
    requires j <= |rest| && rest[j..] == MinutesWord
    ensures t == t[..i] + HoursWord + rest[..j] + MinutesWord
  {
    assert t[i..] == HoursWord + rest;
    assert rest == rest[..j] + MinutesWord;
    assert t == t[..i] + t[i..];
  }

  /** Only the exact human text of a pair reads back as that pair. */
  lemma ParseHumanExact(t: string, hours: nat, minutes: nat)
    requires ParseHuman(t) == Some((hours, minutes))
    ensures t == HumanText(hours, minutes)
  {
    ParseHumanFields(t);
    var i := LeadingDigits(t);
    var rest := t[i + |HoursWord|..];
    var j := LeadingDigits(rest);
    Reassemble(t, i, rest, j);
    CanonicalIsDecimal(t[..i]);
    CanonicalIsDecimal(rest[..j]);
  }

  /** Digits followed by a non-digit: the digit run is exactly the prefix. */
  lemma {:induction false} LeadingDigitsOfDigits(d: string, rest: string)
    requires AllDigits(d)
    requires rest == [] || !IsDigit(rest[0])
    ensures LeadingDigits(d + rest) == |d|
    ensures (d + rest)[..|d|] == d && (d + rest)[|d|..] == rest
  {
    if d != [] {
      assert (d + rest)[1..] == d[1..] + rest;
      LeadingDigitsOfDigits(d[1..], rest);
    }
  }

  /** What `ParseHuman` needs to see to accept a text with the given digit fields. */
  lemma ParseHumanAccepts(t: string, dh: string, rest: string, dm: string)
    requires IsCanonical(dh) && IsCanonical(dm)
    requires LeadingDigits(t) == |dh| && t[..|dh|] == dh
    requires HoursWord <= t[|dh|..] && t[|dh| + |HoursWord|..] == rest
    requires LeadingDigits(rest) == |dm| && rest[..|dm|] == dm && rest[|dm|..] == MinutesWord
    ensures ParseHuman(t) == Some((ValueOf(dh), ValueOf(dm)))
  {
  }

  /** A digit run followed by the hours word: the run ends where the word starts. */
  lemma HoursRun(dh: string, tail: string)
    requires AllDigits(dh) && HoursWord <= tail
    ensures LeadingDigits(dh + tail) == |dh| && (dh + tail)[..|dh|] == dh
    ensures HoursWord <= (dh + tail)[|dh|..]
    ensures (dh + tail)[|dh| + |HoursWord|..] == tail[|HoursWord|..]
  {
    assert tail[0] == ' ';
    LeadingDigitsOfDigits(dh, tail);
  }

  /** Any two canonical digit strings laid out as the human text are read back as their values. */
  lemma ParseHumanLayout(dh: string, dm: string)
    requires IsCanonical(dh) && IsCanonical(dm)
    ensures ParseHuman(dh + HoursWord + dm + MinutesWord) == Some((ValueOf(dh), ValueOf(dm)))
  {
    var rest := dm + MinutesWord;
    var tail := HoursWord + rest;
    var t := dh + HoursWord + dm + MinutesWord;
    assert t == dh + tail;
    assert LeadingDigits(t) == |dh| && t[..|dh|] == dh && HoursWord <= t[|dh|..]
      && t[|dh| + |HoursWord|..] == rest by {
      assert tail[|HoursWord|..] == rest;
      HoursRun(dh, tail);
    }
    LeadingDigitsOfDigits(dm, MinutesWord);
    ParseHumanAccepts(t, dh, rest, dm);
  }

  /** The human text is read back as exactly the hours and minutes it was built from. */
  lemma HumanRoundTrip(hours: nat, minutes: nat)
    ensures ParseHuman(HumanText(hours, minutes)) == Some((hours, minutes))
  {
    ParseHumanLayout(Decimal(hours), Decimal(minutes));
    DecimalRoundTrip(hours);
    DecimalRoundTrip(minutes);
  }
}

/** Wall-clock arithmetic of `infra/clock.py` and the HH:MM strings of `domain/signal.py`,
    for a zone with a fixed offset; a date is a day number. */
module Clock {
  import opened Gale

  const DAY: int := 86400

  // ----- HH:MM text -----

  predicate IsDigit(c: char) { '0' <= c <= '9' }

  function DigitValue(c: char): int
    requires IsDigit(c)
  {
    c as int - '0' as int
  }

  function Digit(d: int): char
    requires 0 <= d < 10
  {
    (d + '0' as int) as char
  }

  /** The regex shape of a time: two digits, a colon, two digits. */
  predicate HhmmShape(s: string) {
    |s| == 5 && IsDigit(s[0]) && IsDigit(s[1]) && s[2] == ':' && IsDigit(s[3]) && IsDigit(s[4])
  }

  function Hour(s: string): int
    requires HhmmShape(s)
  {
    10 * DigitValue(s[0]) + DigitValue(s[1])
  }

  function Minute(s: string): int
    requires HhmmShape(s)
  {
    10 * DigitValue(s[3]) + DigitValue(s[4])
  }

  /** Shape plus the range check made after matching. */
  predicate ValidHhmm(s: string) { HhmmShape(s) && Hour(s) <= 23 && Minute(s) <= 59 }

  function MinuteOfDay(s: string): int
    requires HhmmShape(s)
  {
    Hour(s) * 60 + Minute(s)
  }

  function TwoDigits(n: int): string
    requires 0 <= n < 100
  {
    [Digit(n / 10), Digit(n % 10)]
  }

  function FormatHhmm(minuteOfDay: int): string
    requires 0 <= minuteOfDay < 1440
  {
    TwoDigits(minuteOfDay / 60) + ":" + TwoDigits(minuteOfDay % 60)
  }

  function AddMinutes(s: string, minutes: int): string
    requires HhmmShape(s)
  {
    FormatHhmm((Hour(s) * 60 + Minute(s) + minutes) % 1440)
  }

  lemma FormatThenRead(m: int)
    requires 0 <= m < 1440
    ensures ValidHhmm(FormatHhmm(m)) && MinuteOfDay(FormatHhmm(m)) == m
  {
  }

  /** Reading then formatting gives a valid time back: times and minutes of the day correspond one to one. */
  lemma ReadThenFormat(s: string)
    requires ValidHhmm(s)
    ensures 0 <= MinuteOfDay(s) < 1440 && FormatHhmm(MinuteOfDay(s)) == s
  {
  }

  lemma AddMinutesReads(s: string, a: int)
    requires ValidHhmm(s)
    ensures ValidHhmm(AddMinutes(s, a)) && MinuteOfDay(AddMinutes(s, a)) == (MinuteOfDay(s) + a) % 1440
  {
  }

  /** Adding minutes is an action of the integers modulo 1440 on valid times. */
  lemma AddMinutesIsAction(s: string, a: int, b: int)
    requires ValidHhmm(s)
    ensures ValidHhmm(AddMinutes(s, a))
    ensures AddMinutes(AddMinutes(s, a), b) == AddMinutes(s, a + b)
    ensures AddMinutes(s, a) == s <==> a % 1440 == 0
  {
    AddMinutesReads(s, a);
    var m := MinuteOfDay(s);
    ModAdd(m + a, b);
    ReadThenFormat(s);
    ShiftFixes(m, a);
  }

  lemma ModAdd(x: int, y: int)
    ensures (x % 1440 + y) % 1440 == (x + y) % 1440
  {
  }

  lemma ShiftFixes(m: int, a: int)
    requires 0 <= m < 1440
    ensures (m + a) % 1440 == m <==> a % 1440 == 0
  {
  }

  // ----- Unix time in a fixed-offset zone -----

  function SignalDate(t: real, utcOffset: int): int {
    ((t + utcOffset as real) / DAY as real).Floor
  }

  function LocalMinute(t: real, utcOffset: int): int {
    ((t + utcOffset as real - (SignalDate(t, utcOffset) * DAY) as real) / 60.0).Floor
  }

  function HhmmToUnix(minuteOfDay: int, date: int, utcOffset: int): real {
    (date * DAY + minuteOfDay * 60 - utcOffset) as real
  }

  /** `format_local_hhmm`. */
  function FormatLocalHhmm(t: real, utcOffset: int): string {
    LocalMinuteInRange(t, utcOffset);
    FormatHhmm(LocalMinute(t, utcOffset))
  }

  lemma LocalMinuteInRange(t: real, utcOffset: int)
    ensures 0 <= LocalMinute(t, utcOffset) < 1440
    ensures HhmmToUnix(LocalMinute(t, utcOffset), SignalDate(t, utcOffset), utcOffset) <= t
          < HhmmToUnix(LocalMinute(t, utcOffset), SignalDate(t, utcOffset), utcOffset) + 60.0
  {
  }

  /** The date and the HH:MM read off a trigger are the ones it was built from. */
  lemma ClockRoundTrip(minuteOfDay: int, date: int, utcOffset: int)
    requires 0 <= minuteOfDay < 1440
    ensures SignalDate(HhmmToUnix(minuteOfDay, date, utcOffset), utcOffset) == date
    ensures LocalMinute(HhmmToUnix(minuteOfDay, date, utcOffset), utcOffset) == minuteOfDay
    ensures FormatLocalHhmm(HhmmToUnix(minuteOfDay, date, utcOffset), utcOffset) == FormatHhmm(minuteOfDay)
  {
  }

  /** The gale times printed in the message are the local times of trigger + 300 and + 600 seconds,
      across midnight too. */
  lemma GaleTimesAreLocal(s: string, date: int, utcOffset: int, steps: nat)
    requires ValidHhmm(s)
    ensures AddMinutes(s, 5 * steps)
            == FormatLocalHhmm(HhmmToUnix(MinuteOfDay(s), date, utcOffset) + 300.0 * steps as real, utcOffset)
  {
    var total := MinuteOfDay(s) + 5 * steps;
    var t := HhmmToUnix(MinuteOfDay(s), date, utcOffset) + 300.0 * steps as real;
    assert total == (total / 1440) * 1440 + total % 1440;
    assert t == HhmmToUnix(total % 1440, date + total / 1440, utcOffset);
    ClockRoundTrip(total % 1440, date + total / 1440, utcOffset);
  }

  predicate IsWithinWindow(trigger: real, now: real) {
    now - 60.0 <= trigger <= now + 1800.0
  }
}

/**
 * Time arithmetic shared by the reminder code. An instant is an integer
 * number of milliseconds on the local clock; a calendar day is the integer
 * part of the instant divided by the length of a day (no time zones, no
 * daylight-saving transitions).
 */
module Clock {
  import opened Wrappers
  import Text

  const MS_PER_MINUTE: int := 60 * 1000
  const MS_PER_HOUR: int := 60 * MS_PER_MINUTE
  const MS_PER_DAY: int := 24 * MS_PER_HOUR

  /** The local calendar day an instant falls on. */
  function DayIndex(t: int): int { t / MS_PER_DAY }

  /** Milliseconds since the start of the instant's day. */
  function TimeOfDay(t: int): (r: int)
    ensures 0 <= r < MS_PER_DAY
  {
    t % MS_PER_DAY
  }

  /** `d.setHours(0, 0, 0, 0)`: local midnight at the start of the instant's day. */
  function StartOfDay(t: int): (r: int)
    ensures r <= t < r + MS_PER_DAY
    ensures DayIndex(r) == DayIndex(t) && TimeOfDay(r) == 0
    ensures r == t - TimeOfDay(t)
  {
    DayIndex(t) * MS_PER_DAY
  }

  /** Instants with the same start of day are exactly the instants on the same day. */
  lemma SameDay(a: int, b: int)
    ensures StartOfDay(a) == StartOfDay(b) <==> DayIndex(a) == DayIndex(b)
  {
  }

  /** An instant `k` days after midnight `m` plus an offset inside one day lies on day `DayIndex(m) + k`. */
  lemma DayOfOffset(m: int, k: int, off: int)
    requires TimeOfDay(m) == 0 && 0 <= off < MS_PER_DAY
    ensures DayIndex(m + k * MS_PER_DAY + off) == DayIndex(m) + k
    ensures TimeOfDay(m + k * MS_PER_DAY + off) == off
  {
    var q := DayIndex(m) + k;
    assert m + k * MS_PER_DAY + off == q * MS_PER_DAY + off;
  }

  /** The range test applied by `calculateTimeUntilReminder`. */
  predicate InClockRange(h: int, m: int) { 0 <= h <= 23 && 0 <= m <= 59 }

  /**
   * `d.setHours(h, m, 0, 0)`: the instant's day at h:m:00.000. Out-of-range
   * fields roll over into neighbouring days, as JavaScript's `Date` does.
   */
  function SetHours(t: int, h: int, m: int): (r: int)
    ensures InClockRange(h, m) ==> DayIndex(r) == DayIndex(t) && TimeOfDay(r) == Offset(h, m)
    ensures var off := h * MS_PER_HOUR + m * MS_PER_MINUTE;
      DayIndex(r) == DayIndex(t) + off / MS_PER_DAY && TimeOfDay(r) == off % MS_PER_DAY
  {
    var off := h * MS_PER_HOUR + m * MS_PER_MINUTE;
    var r := StartOfDay(t) + off;
    assert r == StartOfDay(t) + (off / MS_PER_DAY) * MS_PER_DAY + off % MS_PER_DAY;
    DayOfOffset(StartOfDay(t), off / MS_PER_DAY, off % MS_PER_DAY);
    r
  }

  /** `d.setDate(d.getDate() + n)`: the same time of day, `n` calendar days later. */
  function AddDays(t: int, n: int): (r: int)
    ensures DayIndex(r) == DayIndex(t) + n
    ensures TimeOfDay(r) == TimeOfDay(t)
  {
    DayOfOffset(StartOfDay(t), n, TimeOfDay(t));
    t + n * MS_PER_DAY
  }

  /**
   * `time.split(':').map(Number)` destructured into `[hours, minutes]`:
   * `None` when either field is NaN. A missing minutes field is `undefined`,
   * hence NaN; fields after the second are ignored.
   */
  function HoursMinutes(time: string): (r: Option<(int, int)>)
    ensures var f := Text.Split(time, ':');
      r.Some? <==> |f| >= 2 && Text.ToNumber(f[0]).Some? && Text.ToNumber(f[1]).Some?
    ensures var f := Text.Split(time, ':');
      r.Some? ==> |f| >= 2 && r.value == (Text.ToNumber(f[0]).value, Text.ToNumber(f[1]).value)
    ensures ':' !in time ==> r.None?
  {
    var fields := Text.Split(time, ':');
    assert ':' !in time ==> fields == [time] by {
      if ':' !in time { Text.SplitNone(time, ':'); }
    }
    var hours := Text.ToNumber(fields[0]);
    var minutes := if |fields| >= 2 then Text.ToNumber(fields[1]) else None;
    if hours.Some? && minutes.Some? then Some((hours.value, minutes.value)) else None
  }

  /** A time whose fields are numbers within 0..23 and 0..59. */
  predicate ValidClock(time: string) {
    HoursMinutes(time).Some? && InClockRange(HoursMinutes(time).value.0, HoursMinutes(time).value.1)
  }

  /** Milliseconds from midnight to h:m. */
  function Offset(h: int, m: int): (r: int)
    requires InClockRange(h, m)
    ensures 0 <= r < MS_PER_DAY
  {
    h * MS_PER_HOUR + m * MS_PER_MINUTE
  }

  /** Milliseconds from midnight to a valid "HH:MM". */
  function ClockOffset(time: string): (r: int)
    requires ValidClock(time)
    ensures 0 <= r < MS_PER_DAY
  {
    var hm := HoursMinutes(time).value;
    Offset(hm.0, hm.1)
  }

  /**
   * The fire instant of a reminder: the date's day at the parsed "HH:MM",
   * or `None` when the Date would be invalid (a NaN field).
   */
  function FireInstant(date: int, time: string): (r: Option<int>)
    ensures r.Some? <==> HoursMinutes(time).Some?
    ensures ValidClock(time) ==>
      DayIndex(r.value) == DayIndex(date) && TimeOfDay(r.value) == ClockOffset(time)
  {
    var hm := HoursMinutes(time);
    if hm.None? then None else Some(SetHours(date, hm.value.0, hm.value.1))
  }

  /** Two decimal digits, zero-padded, for 0 <= n < 100. */
  function TwoDigits(n: int): (s: string)
    requires 0 <= n < 100
    ensures |s| == 2 && Text.AllDigits(s) && Text.DigitsValue(s) == n
  {
    var s := [('0' as int + n / 10) as char, ('0' as int + n % 10) as char];
    assert s[..1] == [s[0]] && s[..1][..0] == [];
    assert Text.DigitsValue(s[..1]) == n / 10;
    s
  }

  /** The canonical "HH:MM" (24-hour) text of a clock time. */
  function FormatClock(h: int, m: int): string
    requires InClockRange(h, m)
  {
    TwoDigits(h) + ":" + TwoDigits(m)
  }

  /** Parsing a canonical "HH:MM" gives back the clock time. */
  lemma {:induction false} ClockRoundTrip(h: int, m: int)
    requires InClockRange(h, m)
    ensures HoursMinutes(FormatClock(h, m)) == Some((h, m))
  {
    var a, b := TwoDigits(h), TwoDigits(m);
    assert ':' !in a && ':' !in b by {
      assert forall i :: 0 <= i < 2 ==> Text.IsDigit(a[i]) && Text.IsDigit(b[i]);
    }
    Text.SplitJoin(a, b, ':');
    assert FormatClock(h, m) == a + [':'] + b;
  }
}

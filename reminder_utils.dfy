/**
 * The front end's reminder helpers: time until a reminder fires, whether a
 * date is today, the display text of a reminder, and the next date of a
 * repeating reminder. A missing date is `None`, a missing time is "".
 */
module ReminderUtils {
  import opened Wrappers
  import opened Clock

  /**
   * `calculateTimeUntilReminder`: the milliseconds from `now` until the
   * reminder date's day at "HH:MM", or `None` when an argument is missing,
   * a field is NaN or out of range, or that instant is not in the future.
   */
  function CalculateTimeUntilReminder(reminderDate: Option<int>, reminderTime: string, now: int): (r: Option<int>)
    ensures r.Some? <==>
      reminderDate.Some? && reminderTime != "" && ValidClock(reminderTime) &&
      FireInstant(reminderDate.value, reminderTime).value > now
    ensures r.Some? ==> r.value > 0
    ensures r.Some? ==>
      DayIndex(now + r.value) == DayIndex(reminderDate.value) &&
      TimeOfDay(now + r.value) == ClockOffset(reminderTime)
  {
    if reminderDate.None? || reminderTime == "" then None
    else if !ValidClock(reminderTime) then None
    else
      var diff := FireInstant(reminderDate.value, reminderTime).value - now;
      if diff > 0 then Some(diff) else None
  }

  /** `isReminderToday`: a present date whose local midnight is today's. */
  function IsReminderToday(reminderDate: Option<int>, now: int): (r: bool)
    ensures r <==> (reminderDate.Some? &&
      StartOfDay(now) <= reminderDate.value < StartOfDay(now) + MS_PER_DAY)
  {
    reminderDate.Some? && StartOfDay(reminderDate.value) == StartOfDay(now)
  }

  /**
   * `formatReminderDateTime`: "Not set" without a date or a time; on the
   * reminder's day "Today at T", with " (passed)" once the fire instant is
   * behind `now`; on any other day the locale date text (rendered by
   * `localeDate`; "Invalid Date" when a field is NaN) followed by " at T".
   */
  function FormatReminderDateTime(reminderDate: Option<int>, reminderTime: string, now: int,
                                  localeDate: int -> string): (r: string)
    ensures reminderDate.None? || reminderTime == "" ==> r == "Not set"
    ensures reminderDate.Some? && reminderTime != "" && IsReminderToday(reminderDate, now) ==>
      var fire := FireInstant(reminderDate.value, reminderTime);
      r == if fire.Some? && fire.value < now then "Today at " + reminderTime + " (passed)"
           else "Today at " + reminderTime
    ensures reminderDate.Some? && reminderTime != "" && !IsReminderToday(reminderDate, now) ==>
      var fire := FireInstant(reminderDate.value, reminderTime);
      r == (if fire.Some? then localeDate(fire.value) else "Invalid Date") + " at " + reminderTime
  {
    if reminderDate.None? || reminderTime == "" then "Not set"
    else
      var date := FireInstant(reminderDate.value, reminderTime);
      var isToday := IsReminderToday(reminderDate, now);
      var isPast := date.Some? && date.value < now;
      if isToday && isPast then "Today at " + reminderTime + " (passed)"
      else if isToday then "Today at " + reminderTime
      else (if date.Some? then localeDate(date.value) else "Invalid Date") + " at " + reminderTime
  }

  /**
   * The display and the countdown agree: for a valid time on today's date,
   * a reminder still to come is shown without " (passed)", and one shown
   * as passed has no time left.
   */
  lemma FormatAgreesWithCountdown(reminderDate: int, reminderTime: string, now: int, localeDate: int -> string)
    requires IsReminderToday(Some(reminderDate), now) && reminderTime != ""
    requires ValidClock(reminderTime)
    ensures CalculateTimeUntilReminder(Some(reminderDate), reminderTime, now).Some? ==>
      FormatReminderDateTime(Some(reminderDate), reminderTime, now, localeDate) == "Today at " + reminderTime
    ensures FormatReminderDateTime(Some(reminderDate), reminderTime, now, localeDate) ==
              "Today at " + reminderTime + " (passed)" ==>
      CalculateTimeUntilReminder(Some(reminderDate), reminderTime, now).None?
  {
    var passed := "Today at " + reminderTime + " (passed)";
    var plain := "Today at " + reminderTime;
    assert passed != plain by { assert |passed| != |plain|; }
  }

  /**
   * `calculateNextReminderDate`: `None` without a date or without a positive
   * repeat; otherwise the same time of day exactly `repeatAfterDays`
   * calendar days later.
   */
  function CalculateNextReminderDate(currentDate: Option<int>, repeatAfterDays: int): (r: Option<int>)
    ensures r.Some? <==> currentDate.Some? && repeatAfterDays > 0
    ensures r.Some? ==>
      DayIndex(r.value) == DayIndex(currentDate.value) + repeatAfterDays &&
      TimeOfDay(r.value) == TimeOfDay(currentDate.value)
  {
    if currentDate.None? || repeatAfterDays == 0 || repeatAfterDays <= 0 then None
    else Some(AddDays(currentDate.value, repeatAfterDays))
  }
}

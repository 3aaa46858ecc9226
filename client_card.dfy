/**
 * The decisions a client card takes: the colour of the status pill, and
 * whether the card is highlighted as urgent or as having a reminder due,
 * from the client's next work date, its reminder time and the clock.
 */
module ClientCard {
  import opened Wrappers
  import opened Clock
  import ClientModel
  import ReminderUtils

  const GREEN: string := "bg-green-100 text-green-800"
  const YELLOW: string := "bg-yellow-100 text-yellow-800"
  const RED: string := "bg-red-100 text-red-800"
  const GRAY: string := "bg-gray-100 text-gray-800"

  /** The pill's classes for a status text; any unknown text is gray. */
  function GetStatusColor(status: string): (r: string)
    ensures r in {GREEN, YELLOW, RED, GRAY}
    ensures r == GRAY <==> status !in {"Completed", "Partial", "Pending"}
  {
    if status == "Completed" then GREEN
    else if status == "Partial" then YELLOW
    else if status == "Pending" then RED
    else GRAY
  }

  /** Every status the server derives has its own colour, none of them gray. */
  lemma DerivedStatusColored(a: ClientModel.Status, b: ClientModel.Status)
    ensures GetStatusColor(ClientModel.StatusName(a)) != GRAY
    ensures a != b ==> GetStatusColor(ClientModel.StatusName(a)) != GetStatusColor(ClientModel.StatusName(b))
    ensures GetStatusColor(ClientModel.StatusName(ClientModel.Completed)) == GREEN
    ensures GetStatusColor(ClientModel.StatusName(ClientModel.Partial)) == YELLOW
    ensures GetStatusColor(ClientModel.StatusName(ClientModel.Pending)) == RED
  {
  }

  /**
   * `hasUpcomingReminder`: a reminder time is set and the next work date
   * itself (not the reminder instant) lies between now and the same time
   * tomorrow.
   */
  function HasUpcomingReminder(nextWorkDate: Option<int>, reminderTime: string, now: int): (r: bool)
    ensures r <==> nextWorkDate.Some? && reminderTime != "" && 0 <= nextWorkDate.value - now <= MS_PER_DAY
  {
    if nextWorkDate.None? || reminderTime == "" then false
    else
      var tomorrow := AddDays(now, 1);
      now <= nextWorkDate.value <= tomorrow
  }

  /** `Math.ceil(a / d)` for a positive divisor. */
  function CeilDiv(a: int, d: int): (q: int)
    requires d > 0
    ensures (q - 1) * d < a <= q * d
  {
    -((-a) / d)
  }

  /**
   * `isUrgent`: the number of whole days from today's midnight to the due
   * day's midnight is at most one, so the date is overdue, today or
   * tomorrow.
   */
  function IsUrgent(nextWorkDate: Option<int>, now: int): (r: bool)
    ensures r <==> nextWorkDate.Some? && DayIndex(nextWorkDate.value) <= DayIndex(now) + 1
  {
    if nextWorkDate.None? then false
    else
      var diffTime := StartOfDay(nextWorkDate.value) - StartOfDay(now);
      DaysBetweenMidnights(nextWorkDate.value, now);
      CeilDiv(diffTime, MS_PER_DAY) <= 1
  }

  lemma DaysBetweenMidnights(a: int, b: int)
    ensures StartOfDay(a) - StartOfDay(b) == (DayIndex(a) - DayIndex(b)) * MS_PER_DAY
    ensures CeilDiv(StartOfDay(a) - StartOfDay(b), MS_PER_DAY) == DayIndex(a) - DayIndex(b)
  {
    var k := DayIndex(a) - DayIndex(b);
    assert StartOfDay(a) - StartOfDay(b) == k * MS_PER_DAY;
  }

  /** `isReminderDue`: an upcoming reminder whose date is today. */
  function IsReminderDue(nextWorkDate: Option<int>, reminderTime: string, now: int): (r: bool)
    ensures r <==> (nextWorkDate.Some? && reminderTime != "" &&
                    DayIndex(nextWorkDate.value) == DayIndex(now) && now <= nextWorkDate.value)
  {
    SameDay(nextWorkDate.GetOr(now), now);
    HasUpcomingReminder(nextWorkDate, reminderTime, now) && ReminderUtils.IsReminderToday(nextWorkDate, now)
  }

  datatype Ring = UrgentRing | ReminderRing | NoRing

  /** The highlight of a card: its ring, its two badges, and the reminder line's emphasis. */
  datatype Highlight = Highlight(ring: Ring, reminderBadge: bool, urgentBadge: bool, reminderEmphasis: bool)

  /** Urgency wins over a due reminder for the ring; the reminder badge shows only when not urgent. */
  function CardHighlight(nextWorkDate: Option<int>, reminderTime: string, now: int): (h: Highlight)
    ensures h.urgentBadge <==> h.ring == UrgentRing
    ensures h.reminderBadge ==> h.ring == ReminderRing
    ensures h.reminderEmphasis <==> IsReminderDue(nextWorkDate, reminderTime, now)
    ensures h.urgentBadge <==> IsUrgent(nextWorkDate, now)
  {
    var due := IsReminderDue(nextWorkDate, reminderTime, now);
    var urgent := IsUrgent(nextWorkDate, now);
    Highlight(if urgent then UrgentRing else if due then ReminderRing else NoRing,
              due && !urgent, urgent, due)
  }

  /**
   * A reminder that is due is always also urgent, so no card ever shows the
   * yellow ring or the reminder badge: a due reminder is shown only by the
   * emphasis of its reminder line, on a card marked urgent.
   */
  lemma {:induction false} ReminderCueNeverShown(nextWorkDate: Option<int>, reminderTime: string, now: int)
    ensures var h := CardHighlight(nextWorkDate, reminderTime, now);
      h.ring != ReminderRing && !h.reminderBadge &&
      (h.reminderEmphasis ==> h.ring == UrgentRing && h.urgentBadge)
  {
    if IsReminderDue(nextWorkDate, reminderTime, now) {
      assert IsUrgent(nextWorkDate, now);
    }
  }

  /** The card is urgent exactly when the date is set and no later than tomorrow. */
  lemma UrgentCard(nextWorkDate: Option<int>, reminderTime: string, now: int)
    ensures CardHighlight(nextWorkDate, reminderTime, now).ring == UrgentRing <==>
      nextWorkDate.Some? && DayIndex(nextWorkDate.value) <= DayIndex(now) + 1
  {
  }
}

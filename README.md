# Daily Client Management: a Dafny model

Daily Client Management is a small web application. Each service provider
keeps a list of clients and records their work dates, what they owe, and
what they have paid. The application reminds the provider of a client's
next work day at a chosen clock time, and can repeat the reminder every N
days.

This project models three parts of it and proves properties of each. All
files verify together.

- **Payment bookkeeping on the server.**
  - The client document and its pre-save hook, which derives the remaining
    balance and the status (`client_model.dfy`).
  - The client routes as a `ClientStore` class (`client_store.dfy`). It has
    one method per handler: list, get, create, update, soft delete,
    upcoming reminders, record a payment, mark complete. Each method returns
    the HTTP status code.
  - The filter and stable sort that stand in for the database query
    (`query.dfy`).
- **Reminder time arithmetic.**
  - Clock and calendar arithmetic, and `"HH:MM"` parsing (`clock.dfy`).
  - The JavaScript string primitives this needs: `trim`, `split` and
    `Number` (`text.dfy`).
  - The four reminder helpers of the front end (`reminder_utils.dfy`).
- **The reminder scheduler of the front end.**
  - A pure state machine (`scheduler.dfy`). It tracks a set of notified
    keys, a map from key to timeout, the list of recorded timeouts, the
    refresh interval, and the page's live timers.
  - Its proved properties (`scheduler_lemmas.dfy`).
  - A `NotificationManager` class whose methods are proved to produce exactly
    the states the state machine specifies (`notification_manager.dfy`).
- **Two front-end components.**
  - The client card's status colour and its urgency and reminder highlights
    (`client_card.dfy`).
  - The payment dialog's checks, request body and form state
    (`payment_modal.dfy`).

Conventions:

- Amounts are `real`.
- Instants are integer milliseconds on the local clock. The calendar day of
  an instant is `t / 86400000`.
- A missing text field is `""`, the value JavaScript treats as false. A
  missing date is `None`.
- Calls to things outside the model become parameters:
  - the clock is `now`;
  - the client list a fetch returns is `fetched`, which is `None` when the
    fetch failed;
  - whether the write-back of a repeated reminder's new date succeeded is
    `writeOk`;
  - the server's reply to a payment is `reply`;
  - the locale date text is `localeDate`.
- Browser notifications and the alarm sound are one entry in the `alerts`
  log each time they are invoked.

Three behaviours of the code deserve notice:

- **A failed write-back is not retried.** When `triggerReminder` reschedules
  a repeating client, it has already added the reminder key to the notified
  set. If the write of the new date fails, `scheduleReminder` ignores that
  client and date at every later re-scan until the midnight reset, so the
  write is never attempted again (`TriggerWritesBack`, `TriggerOnce`).
- **The re-scan can duplicate a timer after midnight.** The midnight reset
  empties the key map without cancelling any timer. The next re-scan can
  then arm a second live timeout for a key whose first timeout is still
  pending (`ResetLetsRefreshDuplicate`). The notified set still keeps that
  key to one alert (`RunAlertsOnce`).
- **There is no complete-cycle route and no history write.**
  `frontend/src/components/TaskCompletionModal.jsx` posts to
  `/clients/:id/complete-cycle`, but `routes/clients.js` defines no such
  route, and none of its handlers writes a history entry.

The client card never shows its yellow "reminder due" ring or its Reminder
badge. A due reminder is always also urgent, and urgency takes precedence
(`ClientCard.ReminderCueNeverShown`).

## Model

| member | source | states |
|---|---|---|
| ClientModel.StatusName | backend/models/Client.js:53-57 | every status is one of the three enum texts |
| ClientModel.DeriveStatus | backend/models/Client.js:77-84 | Pending iff received is 0 (whatever the total, even 0); Partial iff received is non-zero and below the total; Completed iff received is non-zero and at least the total |
| ClientModel.PreSave | backend/models/Client.js:74-87 | the saved document is consistent: remaining = total − received, not clamped, and status = DeriveStatus; only those two fields change |
| ClientModel.PreSaveFixesConsistent | backend/models/Client.js:74-87 | the hook leaves a document unchanged iff it is already consistent; applying it twice equals applying it once |
| ClientModel.Fresh | backend/models/Client.js:26-61 | schema defaults: reminder time "09:00", no repeat, all amounts 0, Pending, active, empty history, work date = creation time |
| Text.TrimSlice | backend/models/Client.js:9-25 | the trimmed text is a slice of the input with no white space at either end; it is empty iff the input is all white space |
| Text.Split | frontend/src/utils/reminderUtils.js:16 | `split` on one character: at least one part, no part contains the separator |
| Text.SplitJoinsBack | frontend/src/utils/reminderUtils.js:16 | joining the parts of a split with the separator gives back the input, so no character is lost or added |
| Text.ToNumber | frontend/src/utils/reminderUtils.js:16 | NaN (`None`) iff the trimmed text is not empty, not all digits, and not a sign followed by digits; digits, with or without surrounding white space, give their decimal value; blank text gives 0 |
| Text.ToNumberSigned | frontend/src/utils/reminderUtils.js:16 | a leading `-` negates the digits' value and a leading `+` keeps it |
| Clock.StartOfDay | frontend/src/utils/reminderUtils.js:41-45 | local midnight is on the same day, at time of day 0, at most one day before the instant |
| Clock.HoursMinutes | frontend/src/utils/reminderUtils.js:16-20 | `split(':').map(Number)`: a time iff there are at least two fields and `Number` of each of the first two is a number, and then it is those two numbers; so a text without a colon, or with a non-numeric field, gives no time |
| Clock.SetHours | frontend/src/utils/reminderUtils.js:22 | for an in-range h:m, the same day at that time of day; otherwise the offset h·1h + m·1min rolls over, landing offset ÷ 1 day days later (floor) at time of day offset mod 1 day, so "25:00" is 01:00 the next day |
| Clock.AddDays | frontend/src/utils/reminderUtils.js:91-92 | exactly n calendar days later, at the same time of day |
| Clock.FireInstant | frontend/src/components/NotificationManager.jsx:103-107 | a reminder instant exists iff both "HH:MM" fields are numbers; for a valid time it is on the date's day at that time of day |
| Clock.ClockRoundTrip | backend/models/Client.js:33-36 | parsing the canonical "HH:MM" text of any valid clock time gives back that hour and minute |
| ClientRoutes.FindIndex | routes/clients.js:26-33 | the lookup finds a document with that id and owner, or none exists |
| ClientRoutes.NewClient | routes/clients.js:61-75 | a created client: trimmed name, mobile, address and work description; received 0, remaining = total (or 0), Pending, time "09:00" when none given, repeat 0 and no next date when absent, work date now when absent, active, empty history |
| ClientRoutes.ApplyUpdate | routes/clients.js:109-118 | field by field: name, mobile, address and work description become the trimmed body text when present; work date, next work date (an empty one becomes null), reminder time, repeat and total become the body value when present; every absent field keeps its old value; received amount, active flag and history are untouched |
| ClientRoutes.UpdateRederives | routes/clients.js:118-120 | saving an update keeps the received amount and re-derives remaining and status from the new total |
| ClientRoutes.SoftDeleted | routes/clients.js:140-141 | a soft delete clears the active flag and changes nothing else in a saved document |
| ClientRoutes.MissingAmount | routes/clients.js:180-182 | a full payment never misses its amount; otherwise the amount is missing iff it is absent, NaN or 0 |
| ClientRoutes.ResolveAmount | routes/clients.js:195-203 | the payment is the remaining balance if full, else the given amount, and is accepted only inside (0, remaining] |
| ClientRoutes.ApplyPayment | routes/clients.js:217-227 | received rises by the payment, clamped to the total; the result is consistent and only the amounts and status change |
| ClientRoutes.PaymentIsExact | routes/clients.js:217-226 | on a consistent document an accepted payment raises received and lowers remaining by exactly the amount |
| ClientRoutes.FullPaymentSettles | routes/clients.js:195-227 | a full payment leaves remaining 0 and received = total; the status is Completed, or Pending when the total is 0 |
| ClientRoutes.MarkedComplete | routes/clients.js:252-256 | received = total and remaining = 0; the status is Completed, or Pending when the total is 0 |
| ClientRoutes.EndOfTomorrow | routes/clients.js:153-156 | the query bound is the last millisecond of the next calendar day |
| ClientRoutes.IsUpcoming | routes/clients.js:158-166 | a client is selected iff it is the caller's, active, has a next date, and that date is from now to the end of tomorrow's calendar day |
| Query.Filter | routes/clients.js:14 | the result has each element satisfying the condition as often as the input, and no other |
| Query.SortBy | routes/clients.js:15 | the result is a permutation of the input, ordered by the key |
| ClientRoutes.ClientStore.List | routes/clients.js:12-16 | 200 with exactly the caller's active clients (as a multiset), newest first |
| ClientRoutes.ClientStore.Get | routes/clients.js:24-35 | 200 iff a client with that id and owner exists, active or not, returned as found; otherwise 404 |
| ClientRoutes.ClientStore.Create | routes/clients.js:43-78 | 400 and no write without a name; 500 and no write when the name trims to empty; otherwise 201 with NewClient appended under a fresh id |
| ClientRoutes.ClientStore.Update | routes/clients.js:86-121 | 404 for a foreign or unknown id; otherwise the document becomes PreSave(ApplyUpdate); 500 and no write when the name trims to empty |
| ClientRoutes.ClientStore.Delete | routes/clients.js:129-143 | 404 for a foreign or unknown id; otherwise only that client's active flag is cleared |
| ClientRoutes.ClientStore.Upcoming | routes/clients.js:151-168 | 200 with exactly the caller's active clients whose next date lies between now and the end of tomorrow, soonest first |
| ClientRoutes.ClientStore.AddPayment | routes/clients.js:176-232 | 400 without an amount, before the lookup; 404 for an unknown id; 400 when the amount is not in (0, remaining]; in every rejection nothing is written; otherwise 201, one Payment appended and the client replaced by ApplyPayment |
| ClientRoutes.ClientStore.Complete | routes/clients.js:240-261 | 404 for a foreign or unknown id; otherwise the client becomes MarkedComplete |
| ReminderUtils.CalculateTimeUntilReminder | frontend/src/utils/reminderUtils.js:11-31 | a value iff a date and time are given, the fields are numbers in 0..23 and 0..59, and the instant is in the future; the value is positive and lands on the date's day at that time |
| ReminderUtils.IsReminderToday | frontend/src/utils/reminderUtils.js:38-48 | true iff a date is given and it is within today's local midnight-to-midnight |
| ReminderUtils.FormatReminderDateTime | frontend/src/utils/reminderUtils.js:56-78 | "Not set" without a date or time; "Today at T (passed)" / "Today at T" on today's date by whether the instant is past; otherwise "<date> at T" |
| ReminderUtils.FormatAgreesWithCountdown | frontend/src/utils/reminderUtils.js:64-71 | for a valid time today: a reminder with time left is never shown as passed, and one shown as passed has no time left |
| ReminderUtils.CalculateNextReminderDate | frontend/src/utils/reminderUtils.js:86-94 | none iff the date is missing or the repeat is not positive; otherwise exactly that many days later at the same time of day |
| Scheduler.Decide | frontend/src/components/NotificationManager.jsx:94-144 | a timeout only for a client with a date and time not yet notified, with delay in (0, 24h] reaching its reminder instant; an immediate trigger only on the reminder's own day and within the hour after it |
| Scheduler.Arm | frontend/src/components/NotificationManager.jsx:114-126 | the key's previous timeout is cancelled, a fresh handle is armed, mapped from the key and recorded; nothing else changes |
| Scheduler.Schedule | frontend/src/components/NotificationManager.jsx:94-144 | a client without a date and time, or whose key is notified, changes nothing; otherwise the notified set and the logs only grow, handles only increase, every key added to the map belongs to this client, and every map entry is either kept unchanged or points at a newly armed handle |
| Scheduler.Trigger | frontend/src/components/NotificationManager.jsx:146-168 | a notified key changes nothing; otherwise the key is marked notified and dropped from the map, and the client is the next alert; logs only grow, new keys belong to this client, and every map entry is kept unchanged or points at a newly armed handle |
| Scheduler.ScheduleEach | frontend/src/components/NotificationManager.jsx:62-66 | a list with no active client with a date and time changes nothing; logs only grow; every key added belongs to a listed client; every map entry is kept unchanged or points at a newly armed handle |
| Scheduler.Initialize | frontend/src/components/NotificationManager.jsx:52-92 | a failed fetch changes nothing; otherwise the refresh interval is left running and recorded, and every key in the map belongs to a fetched client and points at a handle armed during this run (at least the first free handle before it), so no entry from before the fetch survives |
| SchedulerLemmas.InitializeArmsInWindow | frontend/src/components/NotificationManager.jsx:55-66 | fetching one active client whose reminder is within 24 hours leaves exactly its key in the map, its timeout under the first free handle, and the refresh interval under the next |
| Scheduler.CancelAll | frontend/src/components/NotificationManager.jsx:45 | exactly the listed timers are cancelled |
| Scheduler.Cleanup | frontend/src/components/NotificationManager.jsx:37-50 | interval and every recorded timeout cancelled, list and key map emptied, notified set and logs unchanged |
| Scheduler.ClearNotified | frontend/src/components/NotificationManager.jsx:282-286 | notified set and key map emptied, nothing else changed |
| Scheduler.ArmMidnight | frontend/src/components/NotificationManager.jsx:288-303 | a timeout that ends exactly at the next local midnight, within one day, under the next handle, recorded in the list; no other timer and no other field changes |
| Scheduler.Fire | frontend/src/components/NotificationManager.jsx:69-87 | a handle that is not live, or the interval after a failed fetch, changes nothing; the interval after a successful fetch is exactly the re-scan of the fetched list; the midnight or daily timer empties the notified set and the key map and alerts nothing; the midnight timeout is consumed and starts the 24-hour daily interval under the next handle, recorded in the list; the daily interval touches no timer; a reminder timeout is consumed (removed from the live timers) and is then exactly Trigger of its client when the client has a date, so an unnotified client is alerted |
| SchedulerLemmas.InitialValid | frontend/src/components/NotificationManager.jsx:7-10 | the empty refs satisfy the handle invariant |
| SchedulerLemmas.ApplyKeepsValid | frontend/src/components/NotificationManager.jsx:121-126 | every event keeps all handles issued and non-zero, and every live timer except the interval recorded in the timeout list |
| SchedulerLemmas.RunKeepsValid | frontend/src/components/NotificationManager.jsx:12-35 | the handle invariant holds after any sequence of events |
| SchedulerLemmas.CleanupStopsEverything | frontend/src/components/NotificationManager.jsx:37-50 | while the recorded interval is the only live one, the clean-up leaves no timer running |
| SchedulerLemmas.ScheduleSound | frontend/src/components/NotificationManager.jsx:94-144 | scheduling alerts only keys not yet notified, each once; it never revives a timer; every timeout it arms is in the window and aimed at its client's instant |
| SchedulerLemmas.TriggerSound | frontend/src/components/NotificationManager.jsx:146-168 | the same for a trigger, including the rescheduling of a repeating client |
| SchedulerLemmas.ApplySound | frontend/src/components/NotificationManager.jsx:69-87 | any event only arms timeouts in the window; every event except the midnight reset adds alerts only for keys not yet notified, each once |
| SchedulerLemmas.RunAlertsOnce | frontend/src/components/NotificationManager.jsx:149-153 | between two midnight resets no key is alerted twice |
| SchedulerLemmas.ScheduleOutcome | frontend/src/components/NotificationManager.jsx:112-143 | for an unnotified client: Δ in (0, 24h] arms a timeout of delay Δ; Δ > 24h, another day or passed by an hour or more do nothing; same day and passed by under an hour alerts now |
| SchedulerLemmas.ScheduleInWindow | frontend/src/components/NotificationManager.jsx:110-126 | a reminder instant Δ in (0, 24h] ahead makes scheduling exactly arm a timeout of delay Δ for the client's key |
| SchedulerLemmas.ScheduleInGrace | frontend/src/components/NotificationManager.jsx:129-141 | an instant passed on its own day by less than an hour makes scheduling exactly a trigger |
| SchedulerLemmas.ScheduleOutside | frontend/src/components/NotificationManager.jsx:112-143 | an instant more than 24h ahead, passed on another day, or passed an hour or more ago leaves the state unchanged |
| SchedulerLemmas.TriggerOnce | frontend/src/components/NotificationManager.jsx:146-168 | a first trigger alerts the client, marks its key and drops it from the key map; any later trigger or schedule of it is a no-op |
| SchedulerLemmas.TriggerWritesBack | frontend/src/components/NotificationManager.jsx:252-276 | a repeating client whose write succeeds gets the date repeatAfterDays later, same time of day, written back; otherwise nothing is written, no timer is armed or cancelled, and the key only leaves the map |
| SchedulerLemmas.RescheduleArms | frontend/src/components/NotificationManager.jsx:252-276 | after a successful write-back, a new instant within 24 hours arms a timeout for the updated client under the next handle and maps the new key to it |
| SchedulerLemmas.RescanSkipsScheduled | frontend/src/components/NotificationManager.jsx:74-82 | the re-scan leaves a client whose key is already in the map untouched |
| SchedulerLemmas.RefreshSkipsScheduled | frontend/src/components/NotificationManager.jsx:69-82 | the refresh interval firing over a fetched client whose key is already in the map changes nothing |
| SchedulerLemmas.RefreshArmsNew | frontend/src/components/NotificationManager.jsx:69-82 | the refresh interval firing over a new, unnotified active client due within 24 hours arms exactly its timeout |
| SchedulerLemmas.TimeoutFiresOnce | frontend/src/components/NotificationManager.jsx:121-123 | a reminder 2 hours ahead arms a 2-hour timeout; its firing alerts the client and leaves the handle no longer live, and firing the spent handle again does nothing |
| SchedulerLemmas.ResetAllowsRealert | frontend/src/components/NotificationManager.jsx:282-286 | after the midnight or daily reset a client alerted before can be alerted again |
| SchedulerLemmas.ResetLetsRefreshDuplicate | frontend/src/components/NotificationManager.jsx:74-82 | after a reset, the re-scan arms a second live timeout for a key whose first timeout is still live |
| Notifications.NotificationManager.constructor | frontend/src/components/NotificationManager.jsx:7-10 | the refs start empty and no timer is live |
| Notifications.NotificationManager.Cleanup | frontend/src/components/NotificationManager.jsx:37-50 | the loop over recorded timeouts leaves the state Scheduler.Cleanup specifies |
| Notifications.NotificationManager.ScheduleReminder | frontend/src/components/NotificationManager.jsx:94-144 | leaves the state Scheduler.Schedule specifies |
| Notifications.NotificationManager.TriggerReminder | frontend/src/components/NotificationManager.jsx:146-168 | leaves the state Scheduler.Trigger specifies |
| Notifications.NotificationManager.ScheduleAll | frontend/src/components/NotificationManager.jsx:62-66 | the loop over the fetched clients leaves the state Scheduler.ScheduleEach specifies |
| Notifications.NotificationManager.InitializeReminders | frontend/src/components/NotificationManager.jsx:52-92 | leaves the state Scheduler.Initialize specifies |
| Notifications.NotificationManager.ClearNotifiedAtMidnight | frontend/src/components/NotificationManager.jsx:282-286 | leaves the state Scheduler.ClearNotified specifies |
| Notifications.NotificationManager.ArmMidnightReset | frontend/src/components/NotificationManager.jsx:288-303 | leaves the state Scheduler.ArmMidnight specifies and returns the new handle |
| Notifications.NotificationManager.CancelTimeout | frontend/src/components/NotificationManager.jsx:305-307 | only that timer stops |
| Notifications.NotificationManager.Fire | frontend/src/components/NotificationManager.jsx:69-87 | a firing timer leaves the state Scheduler.Fire specifies |
| ClientCard.GetStatusColor | frontend/src/components/ClientCard.jsx:4-15 | one of the four class strings; gray exactly for a text other than the three statuses |
| ClientCard.DerivedStatusColored | frontend/src/components/ClientCard.jsx:63-65 | every status the server derives gets its own colour, never gray: Completed green, Partial yellow, Pending red |
| ClientCard.HasUpcomingReminder | frontend/src/components/ClientCard.jsx:17-24 | true iff a reminder time is set and the stored date itself (not the reminder instant) is between now and now + 1 day |
| ClientCard.CeilDiv | frontend/src/components/ClientCard.jsx:33 | `Math.ceil(a / d)`: the least q with a ≤ q·d |
| ClientCard.IsUrgent | frontend/src/components/ClientCard.jsx:26-35 | true iff a date is set and its day is at most tomorrow (overdue counts) |
| ClientCard.DaysBetweenMidnights | frontend/src/components/ClientCard.jsx:29-33 | the difference of two local midnights is a whole number of days, and the ceiling division returns it |
| ClientCard.IsReminderDue | frontend/src/components/ClientCard.jsx:37 | true iff a time is set and the stored date is later today |
| ClientCard.CardHighlight | frontend/src/components/ClientCard.jsx:41-56 | the URGENT badge shows exactly with the red ring and exactly when the card is urgent; the Reminder badge only with the yellow ring; the reminder line is emphasised exactly when the reminder is due |
| ClientCard.ReminderCueNeverShown | frontend/src/components/ClientCard.jsx:41-56 | no card shows the yellow ring or the Reminder badge; an emphasised reminder line is always on an urgent card |
| ClientCard.UrgentCard | frontend/src/components/ClientCard.jsx:41 | the red ring shows iff a date is set and is no later than tomorrow |
| PaymentModal.Validate | frontend/src/components/PaymentModal.jsx:15-23 | "Please enter a valid amount" iff not full and the amount is blank or ≤ 0; "…already been paid in full" iff full and remaining ≤ 0; no error otherwise |
| PaymentModal.Request | frontend/src/components/PaymentModal.jsx:28-32 | notes and the full flag as entered; an amount only for a partial payment, equal to the entered number |
| PaymentModal.SentRequestHasAmount | frontend/src/components/PaymentModal.jsx:28-32 | every request the dialog sends passes the server's "amount is required" guard |
| PaymentModal.FullPaymentAgrees | frontend/src/components/PaymentModal.jsx:20-32 | against the same balance, the server accepts a full payment iff the dialog lets it through, and then settles exactly the balance |
| PaymentModal.PartialPaymentAgrees | frontend/src/components/PaymentModal.jsx:15-32 | a partial payment the dialog passes is recorded as entered if it is within the balance, and refused by the server if it exceeds it |
| PaymentModal.ErrorText | frontend/src/components/PaymentModal.jsx:35 | the server's message if it has one, else "Failed to process payment"; never empty |
| PaymentModal.PaymentForm.constructor | frontend/src/components/PaymentModal.jsx:5-9 | blank amount, not full, empty notes, not loading, no error |
| PaymentModal.PaymentForm.ToggleFullPayment | frontend/src/components/PaymentModal.jsx:87-92 | the flag follows the box; ticking it copies the remaining balance into the amount, unticking keeps the amount |
| PaymentModal.PaymentForm.Submit | frontend/src/components/PaymentModal.jsx:11-39 | a failed check shows its message and sends nothing; otherwise exactly Request is sent, the dialog closes on success or shows ErrorText on failure, and loading ends false |

## Left out

- Time zones and daylight saving are not modelled. Every day is 86 400 000 ms long and local time is the instant itself.
- Date parsing and formatting are not modelled: `new Date(string)`, `toISOString`, and `toLocaleDateString`/`toLocaleString` (only as the `localeDate` parameter). A reminder key holds the date as an integer instead of its ISO text.
- Text.ToNumber: reads only optional white space, an optional sign and decimal digits. Fractions, exponents, hexadecimal and `Infinity` are not modelled. So a time such as "9.5:00" is NaN in the model, whereas JavaScript reads 9.5.
- Null JSON fields are not modelled apart from an update's next work date, which may be present-but-empty or null. Otherwise `None` is an absent field (or NaN), a text field is absent or a string, and a number is absent or a number.
- `updatedAt` (schema timestamps) is not modelled. `createdAt` is the `now` of creation.
- Server errors other than the validation of an empty trimmed name are not modelled: database failures, malformed ids, and casts of non-numeric amounts.
- Authentication is not modelled: user registration, login, tokens and the middleware. The caller's user id is a parameter.
- Ties in the database sort are not modelled. The model's sort is stable, whereas the database's order among equal keys is unspecified.
- The complete-cycle route and writes to `history` are not modelled, because `routes/clients.js` defines no such route and none of its handlers writes `history`.
- Asynchrony is not modelled. Each handler and each timer callback runs to completion. A fetch or write that the code awaits happens at once, and its outcome is a parameter. The model therefore has no interleaving of a pending `initializeReminders` with a clean-up or a second run.
- Browser notifications, the permission prompt, the alarm sound and the notification's click handler are not modelled. Each trigger appends one entry to `alerts`.
- ClientRoutes.ResolveAmount, ClientRoutes.ApplyPayment, ClientModel.DeriveStatus: amounts are exact reals, so IEEE double rounding is not modelled. In JavaScript a total of 0.3 with 0.1 received leaves 0.19999999999999998, and a payment of 0.2 is refused there but accepted here.
- The browser's form validation is not modelled: the `required`, `min`, `max` and `step` attributes of the amount input. So `PartialPaymentAgrees` lets an amount above the balance reach the server. The amount field is blank or a number. Text that is not a number cannot arise from a number input.
- Rendering is not modelled, apart from the decisions listed under ClientCard and PaymentModal. This includes the dashboard's copy of the status colour and urgency code.

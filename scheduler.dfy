/**
 * The reminder scheduler of the front end as a state machine over explicit
 * values: the set of reminder keys already notified, the map from key to
 * armed timeout, the list of recorded timeout handles, the refresh
 * interval, and (standing for the browser) the table of live timers with
 * their callbacks. Notification and sound are one entry in the `alerts`
 * log each time they are invoked; successful write-backs of a new next work
 * date go to `writes`.
 */
module Scheduler {
  import opened Wrappers
  import opened Clock

  type Handle = nat

  /** The fields of a client object (as fetched from the server) that the scheduler reads. */
  datatype ClientView = ClientView(
    id: nat, name: string, nextWorkDate: Option<int>, reminderTime: string,
    repeatAfterDays: int, isActive: bool)

  /** A reminder key, the text `${_id}-${nextWorkDate}`. */
  datatype Key = Key(clientId: nat, workDate: int)

  /** A live browser timer and what it will do when it fires. */
  datatype Timer =
    | ReminderTimeout(client: ClientView, delay: int)
    | RefreshInterval(period: int)
    | MidnightTimeout(delay: int)
    | DailyInterval(period: int)

  /** A `PUT /clients/:id` with a new next work date that succeeded. */
  datatype Write = Write(clientId: nat, nextWorkDate: int)

  datatype State = State(
    notified: set<Key>,
    scheduled: map<Key, Handle>,
    timeouts: seq<Handle>,
    checkInterval: Option<Handle>,
    live: map<Handle, Timer>,
    nextHandle: Handle,
    alerts: seq<ClientView>,
    writes: seq<Write>)

  /** Only reminders due within the next 24 hours are armed. */
  const LOOKAHEAD: int := 24 * MS_PER_HOUR
  /** A reminder missed by less than an hour still fires at once. */
  const GRACE: int := MS_PER_HOUR
  /** The refresh interval re-reads the client list every 5 minutes. */
  const REFRESH_PERIOD: int := 5 * MS_PER_MINUTE

  /** The refs' initial values: an empty set, an empty map, no timeouts, no interval. */
  const Initial: State := State({}, map[], [], None, map[], 1, [], [])

  predicate HasReminder(c: ClientView) { c.nextWorkDate.Some? && c.reminderTime != "" }

  function KeyOf(c: ClientView): Key
    requires c.nextWorkDate.Some?
  {
    Key(c.id, c.nextWorkDate.value)
  }

  /** How many days the client's date lies behind today's. */
  function Lag(c: ClientView, now: int): int
    requires c.nextWorkDate.Some?
  {
    DayIndex(now) - DayIndex(c.nextWorkDate.value)
  }

  function ScheduleRank(c: ClientView, now: int): nat {
    if c.nextWorkDate.Some? && Lag(c, now) >= 0 then 2 * Lag(c, now) + 2 else 0
  }

  function TriggerRank(c: ClientView, now: int): nat
    requires c.nextWorkDate.Some?
  {
    if Lag(c, now) >= 0 then 2 * Lag(c, now) + 1 else 1
  }

  /**
   * Every entry of `t`'s key map is either an entry of `s`'s, unchanged, or
   * points at a timer armed from `s.nextHandle` on.
   */
  predicate MapKeptOrFresh(s: State, t: State) {
    forall k :: k in t.scheduled ==>
      (k in s.scheduled && t.scheduled[k] == s.scheduled[k]) || s.nextHandle <= t.scheduled[k]
  }

  /**
   * Clear any timeout already scheduled for `key`, arm a new one after
   * `delay` that will trigger `c`, and record it in the key map and the
   * timeout list.
   */
  function Arm(s: State, key: Key, c: ClientView, delay: int): (t: State)
    ensures t.notified == s.notified && t.alerts == s.alerts && t.writes == s.writes
    ensures t.checkInterval == s.checkInterval
    ensures t.nextHandle == s.nextHandle + 1 && t.timeouts == s.timeouts + [s.nextHandle]
    ensures t.scheduled == s.scheduled[key := s.nextHandle]
    ensures s.nextHandle in t.live && t.live[s.nextHandle] == ReminderTimeout(c, delay)
    ensures key in s.scheduled ==> s.scheduled[key] == s.nextHandle || s.scheduled[key] !in t.live
    ensures forall h :: h in t.live && h != s.nextHandle ==> h in s.live && t.live[h] == s.live[h]
    ensures forall h :: h in s.live && h != s.nextHandle && !(key in s.scheduled && h == s.scheduled[key]) ==>
      h in t.live && t.live[h] == s.live[h]
  {
    var live := if key in s.scheduled then s.live - {s.scheduled[key]} else s.live;
    var h := s.nextHandle;
    s.(live := live[h := ReminderTimeout(c, delay)],
       scheduled := s.scheduled[key := h],
       timeouts := s.timeouts + [h],
       nextHandle := h + 1)
  }

  /** What `scheduleReminder` does with a client. */
  datatype Decision = Ignore | ArmIn(delay: int) | FireNow

  /**
   * `scheduleReminder`'s tests: nothing without a date and a time or for a
   * key already notified; a timeout when the reminder instant is at most 24
   * hours ahead; an immediate trigger when it is today and passed by less
   * than an hour; nothing otherwise (also when a field is NaN, since every
   * comparison with NaN is false).
   */
  function Decide(c: ClientView, notified: set<Key>, now: int): (d: Decision)
    ensures !d.Ignore? ==> HasReminder(c) && KeyOf(c) !in notified
    ensures d.ArmIn? ==>
      0 < d.delay <= LOOKAHEAD &&
      FireInstant(c.nextWorkDate.value, c.reminderTime) == Some(now + d.delay)
    ensures d.FireNow? ==>
      Lag(c, now) == 0 &&
      FireInstant(c.nextWorkDate.value, c.reminderTime).Some? &&
      0 <= now - FireInstant(c.nextWorkDate.value, c.reminderTime).value < GRACE
  {
    if !HasReminder(c) then Ignore
    else if KeyOf(c) in notified then Ignore
    else
      var fire := FireInstant(c.nextWorkDate.value, c.reminderTime);
      if fire.None? then Ignore
      else
        var untilFire := fire.value - now;
        if 0 < untilFire <= LOOKAHEAD then ArmIn(untilFire)
        else if untilFire <= 0 && StartOfDay(c.nextWorkDate.value) == StartOfDay(now) then
          var passed := now - fire.value;
          if 0 <= passed < GRACE then FireNow else Ignore
        else Ignore
  }

  /** `scheduleReminder`: carry out the decision. */
  function Schedule(s: State, c: ClientView, now: int, writeOk: bool): (t: State)
    ensures !HasReminder(c) || KeyOf(c) in s.notified ==> t == s
    ensures s.notified <= t.notified && s.alerts <= t.alerts && s.writes <= t.writes
    ensures s.nextHandle <= t.nextHandle
    ensures forall k :: k in t.scheduled ==> k in s.scheduled || k.clientId == c.id
    ensures MapKeptOrFresh(s, t)
    decreases ScheduleRank(c, now)
  {
    match Decide(c, s.notified, now)
    case Ignore => s
    case ArmIn(delay) => Arm(s, KeyOf(c), c, delay)
    case FireNow => Trigger(s, c, now, writeOk)
  }

  /**
   * `triggerReminder` with `rescheduleReminder`: nothing for a key already
   * notified; otherwise mark it, alert once, and for a repeating client
   * write back the date `repeatAfterDays` later and, if that write
   * succeeded, schedule the updated client; finally forget the key's
   * timeout.
   */
  function Trigger(s: State, c: ClientView, now: int, writeOk: bool): (t: State)
    requires c.nextWorkDate.Some?
    ensures KeyOf(c) in s.notified ==> t == s
    ensures KeyOf(c) !in s.notified ==>
      KeyOf(c) in t.notified && KeyOf(c) !in t.scheduled &&
      |t.alerts| > |s.alerts| && t.alerts[|s.alerts|] == c
    ensures s.notified <= t.notified && s.alerts <= t.alerts && s.writes <= t.writes
    ensures s.nextHandle <= t.nextHandle
    ensures forall k :: k in t.scheduled ==> k in s.scheduled || k.clientId == c.id
    ensures MapKeptOrFresh(s, t)
    decreases TriggerRank(c, now)
  {
    var key := KeyOf(c);
    if key in s.notified then s
    else
      var s1 := s.(notified := s.notified + {key}, alerts := s.alerts + [c]);
      var s2 :=
        if c.repeatAfterDays > 0 && writeOk then
          var next := AddDays(c.nextWorkDate.value, c.repeatAfterDays);
          Schedule(s1.(writes := s1.writes + [Write(c.id, next)]),
                   c.(nextWorkDate := Some(next)), now, writeOk)
        else s1;
      s2.(scheduled := s2.scheduled - {key})
  }

  /** The ids of a list of clients. */
  function Ids(clients: seq<ClientView>): set<nat> {
    set i | 0 <= i < |clients| :: clients[i].id
  }

  /** Whether the refresh (`onlyNew`) or the initial pass schedules `c`. */
  predicate Selected(s: State, c: ClientView, onlyNew: bool) {
    HasReminder(c) && c.isActive && (!onlyNew || KeyOf(c) !in s.scheduled)
  }

  /**
   * `clients.forEach`: schedule every active client with a date and a time,
   * in list order; the refresh pass also skips keys already in the map.
   */
  function ScheduleEach(s: State, clients: seq<ClientView>, onlyNew: bool, now: int, writeOk: bool): (t: State)
    ensures (forall i :: 0 <= i < |clients| ==> !(HasReminder(clients[i]) && clients[i].isActive)) ==> t == s
    ensures s.notified <= t.notified && s.alerts <= t.alerts && s.writes <= t.writes
    ensures s.nextHandle <= t.nextHandle
    ensures forall k :: k in t.scheduled ==> k in s.scheduled || k.clientId in Ids(clients)
    ensures MapKeptOrFresh(s, t)
    decreases |clients|
  {
    if clients == [] then s
    else
      var s1 := if Selected(s, clients[0], onlyNew) then Schedule(s, clients[0], now, writeOk) else s;
      assert Ids(clients) == {clients[0].id} + Ids(clients[1..]) by {
        assert forall i :: 1 <= i < |clients| ==> clients[i] == clients[1..][i - 1];
      }
      ScheduleEach(s1, clients[1..], onlyNew, now, writeOk)
  }

  /**
   * `initializeReminders`: when the fetch succeeds, empty the key map,
   * schedule every selected client and start the refresh interval; when it
   * fails, nothing (not even the interval).
   */
  function Initialize(s: State, fetched: Option<seq<ClientView>>, now: int, writeOk: bool): (t: State)
    ensures fetched.None? ==> t == s
    ensures fetched.Some? ==>
      t.checkInterval.Some? && t.checkInterval.value in t.live &&
      t.live[t.checkInterval.value] == RefreshInterval(REFRESH_PERIOD)
    ensures fetched.Some? ==> forall k :: k in t.scheduled ==> k.clientId in Ids(fetched.value)
    ensures fetched.Some? ==> forall k :: k in t.scheduled ==> s.nextHandle <= t.scheduled[k]
  {
    if fetched.None? then s
    else
      var s1 := ScheduleEach(s.(scheduled := map[]), fetched.value, false, now, writeOk);
      var h := s1.nextHandle;
      s1.(checkInterval := Some(h), live := s1.live[h := RefreshInterval(REFRESH_PERIOD)], nextHandle := h + 1)
  }

  /** `clearTimeout` of every handle in `hs`. */
  function CancelAll(live: map<Handle, Timer>, hs: seq<Handle>): (r: map<Handle, Timer>)
    ensures forall h :: h in r <==> h in live && h !in hs
    ensures forall h :: h in r ==> r[h] == live[h]
    decreases |hs|
  {
    if hs == [] then live else CancelAll(live - {hs[0]}, hs[1..])
  }

  /**
   * `cleanup`: cancel the interval and every recorded timeout, empty the
   * timeout list and the key map; the notified set is kept.
   */
  function Cleanup(s: State): (t: State)
    ensures t.notified == s.notified && t.alerts == s.alerts && t.writes == s.writes
    ensures t.timeouts == [] && t.scheduled == map[] && t.checkInterval.None?
    ensures forall h :: h in t.live <==>
      h in s.live && h !in s.timeouts && s.checkInterval != Some(h)
  {
    var live := if s.checkInterval.Some? then s.live - {s.checkInterval.value} else s.live;
    s.(checkInterval := None, live := CancelAll(live, s.timeouts), timeouts := [], scheduled := map[])
  }

  /** `clearNotifiedAtMidnight`: forget what was notified and what was scheduled. */
  function ClearNotified(s: State): (t: State)
    ensures t.notified == {} && t.scheduled == map[]
    ensures t.(notified := s.notified, scheduled := s.scheduled) == s
  {
    s.(notified := {}, scheduled := map[])
  }

  /** The midnight effect: a timeout for the next local midnight, recorded in the list. */
  function ArmMidnight(s: State, now: int): (t: State)
    ensures s.nextHandle in t.live && t.live[s.nextHandle] == MidnightTimeout(StartOfDay(now) + MS_PER_DAY - now)
    ensures now + t.live[s.nextHandle].delay == StartOfDay(now) + MS_PER_DAY
    ensures 0 < t.live[s.nextHandle].delay <= MS_PER_DAY
    ensures t.live == s.live[s.nextHandle := t.live[s.nextHandle]]
    ensures t.timeouts == s.timeouts + [s.nextHandle] && t.nextHandle == s.nextHandle + 1
    ensures t.(live := s.live, timeouts := s.timeouts, nextHandle := s.nextHandle) == s
  {
    var h := s.nextHandle;
    s.(live := s.live[h := MidnightTimeout(StartOfDay(now) + MS_PER_DAY - now)],
       timeouts := s.timeouts + [h], nextHandle := h + 1)
  }

  /**
   * A live timer fires: a reminder timeout is consumed and triggers its
   * client; the refresh interval re-runs the selection over the fetched
   * list (nothing if the fetch failed); the midnight timeout clears and
   * starts the daily interval; the daily interval clears. A handle that is
   * not live does nothing.
   */
  function Fire(s: State, h: Handle, now: int, fetched: Option<seq<ClientView>>, writeOk: bool): (t: State)
    ensures h !in s.live ==> t == s
    ensures h in s.live && s.live[h].RefreshInterval? && fetched.None? ==> t == s
    ensures h in s.live && s.live[h].RefreshInterval? && fetched.Some? ==>
      t == ScheduleEach(s, fetched.value, true, now, writeOk)
    ensures h in s.live && (s.live[h].MidnightTimeout? || s.live[h].DailyInterval?) ==>
      t.notified == {} && t.scheduled == map[] && t.alerts == s.alerts && t.writes == s.writes
    ensures h in s.live && s.live[h].MidnightTimeout? ==>
      t.live == (s.live - {h})[s.nextHandle := DailyInterval(MS_PER_DAY)] &&
      t.timeouts == s.timeouts + [s.nextHandle] && t.nextHandle == s.nextHandle + 1
    ensures h in s.live && s.live[h].DailyInterval? ==>
      t.live == s.live && t.timeouts == s.timeouts && t.nextHandle == s.nextHandle
    ensures h in s.live && s.live[h].ReminderTimeout? && s.live[h].client.nextWorkDate.Some? &&
            KeyOf(s.live[h].client) !in s.notified ==>
      |t.alerts| > |s.alerts| && t.alerts[|s.alerts|] == s.live[h].client
    ensures h in s.live && s.live[h].ReminderTimeout? ==>
      var spent := s.(live := s.live - {h});
      t == if s.live[h].client.nextWorkDate.Some? then Trigger(spent, s.live[h].client, now, writeOk) else spent
  {
    if h !in s.live then s
    else match s.live[h]
      case ReminderTimeout(c, _) =>
        var s1 := s.(live := s.live - {h});
        if c.nextWorkDate.Some? then Trigger(s1, c, now, writeOk) else s1
      case RefreshInterval(_) =>
        if fetched.Some? then ScheduleEach(s, fetched.value, true, now, writeOk) else s
      case MidnightTimeout(_) =>
        var s1 := ClearNotified(s.(live := s.live - {h}));
        var d := s1.nextHandle;
        s1.(live := s1.live[d := DailyInterval(MS_PER_DAY)], timeouts := s1.timeouts + [d], nextHandle := d + 1)
      case DailyInterval(_) => ClearNotified(s)
  }

  /**
   * What can happen to the scheduler: the two effects, the clean-up, the
   * midnight effect's own clean-up (which cancels its timeout), and a
   * timer firing.
   */
  datatype Event =
    | InitializeReminders(fetched: Option<seq<ClientView>>, now: int, writeOk: bool)
    | ArmMidnightReset(now: int)
    | CleanUp
    | CancelTimeout(handle: Handle)
    | TimerFired(handle: Handle, fetched: Option<seq<ClientView>>, now: int, writeOk: bool)

  function Apply(s: State, e: Event): State {
    match e
    case InitializeReminders(fetched, now, writeOk) => Initialize(s, fetched, now, writeOk)
    case ArmMidnightReset(now) => ArmMidnight(s, now)
    case CleanUp => Cleanup(s)
    case CancelTimeout(h) => s.(live := s.live - {h})
    case TimerFired(h, fetched, now, writeOk) => Fire(s, h, now, fetched, writeOk)
  }

  /** The clock reading an event carries, if any. */
  function Moment(e: Event): Option<int> {
    if e.InitializeReminders? || e.ArmMidnightReset? || e.TimerFired? then Some(e.now) else None
  }

  function Run(s: State, events: seq<Event>): State
    decreases |events|
  {
    if events == [] then s else Run(Apply(s, events[0]), events[1..])
  }

  /** The event is the midnight timeout or the daily interval firing. */
  predicate IsReset(s: State, e: Event) {
    e.TimerFired? && e.handle in s.live &&
    (s.live[e.handle].MidnightTimeout? || s.live[e.handle].DailyInterval?)
  }

  /** No event of the run, each in the state it meets, is a reset. */
  predicate NoReset(s: State, events: seq<Event>)
    decreases |events|
  {
    events == [] || (!IsReset(s, events[0]) && NoReset(Apply(s, events[0]), events[1..]))
  }
}

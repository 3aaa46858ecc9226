/**
 * What the scheduler guarantees: its handle bookkeeping stays sound, every
 * reminder timeout it arms is due within the look-ahead window at the
 * client's own clock time, and between two midnight resets no reminder key
 * is alerted twice.
 */
module SchedulerLemmas {
  import opened Wrappers
  import opened Clock
  import opened Scheduler

  // ---------------------------------------------------------------- handles

  /**
   * Every handle in use was issued (and is non-zero, so the source's
   * truthiness tests on it hold), and every live timer except the refresh
   * interval is in the timeout list that the clean-up cancels.
   */
  ghost predicate Valid(s: State) {
    s.nextHandle >= 1 &&
    (forall h :: h in s.live ==> 1 <= h < s.nextHandle) &&
    (forall k :: k in s.scheduled ==> 1 <= s.scheduled[k] < s.nextHandle) &&
    (forall i :: 0 <= i < |s.timeouts| ==> 1 <= s.timeouts[i] < s.nextHandle) &&
    (s.checkInterval.Some? ==> 1 <= s.checkInterval.value < s.nextHandle) &&
    (forall h :: h in s.live && !s.live[h].RefreshInterval? ==> h in s.timeouts)
  }

  /** The only live refresh interval is the recorded one. */
  ghost predicate IntervalTracked(s: State) {
    forall h :: h in s.live && s.live[h].RefreshInterval? ==> s.checkInterval == Some(h)
  }

  lemma InitialValid()
    ensures Valid(Initial) && IntervalTracked(Initial)
  {
  }

  lemma ArmKeepsValid(s: State, key: Key, c: ClientView, delay: int)
    requires Valid(s)
    ensures Valid(Arm(s, key, c, delay))
  {
  }

  lemma {:induction false} ScheduleKeepsValid(s: State, c: ClientView, now: int, writeOk: bool)
    requires Valid(s)
    ensures Valid(Schedule(s, c, now, writeOk))
    decreases ScheduleRank(c, now)
  {
    match Decide(c, s.notified, now)
    case Ignore =>
    case ArmIn(delay) => ArmKeepsValid(s, KeyOf(c), c, delay);
    case FireNow => TriggerKeepsValid(s, c, now, writeOk);
  }

  lemma {:induction false} TriggerKeepsValid(s: State, c: ClientView, now: int, writeOk: bool)
    requires c.nextWorkDate.Some? && Valid(s)
    ensures Valid(Trigger(s, c, now, writeOk))
    decreases TriggerRank(c, now)
  {
    var key := KeyOf(c);
    if key !in s.notified && c.repeatAfterDays > 0 && writeOk {
      var s1 := s.(notified := s.notified + {key}, alerts := s.alerts + [c]);
      var next := AddDays(c.nextWorkDate.value, c.repeatAfterDays);
      ScheduleKeepsValid(s1.(writes := s1.writes + [Write(c.id, next)]), c.(nextWorkDate := Some(next)), now, writeOk);
    }
  }

  lemma {:induction false} ScheduleEachKeepsValid(s: State, clients: seq<ClientView>, onlyNew: bool, now: int, writeOk: bool)
    requires Valid(s)
    ensures Valid(ScheduleEach(s, clients, onlyNew, now, writeOk))
    decreases |clients|
  {
    if clients != [] {
      if Selected(s, clients[0], onlyNew) {
        ScheduleKeepsValid(s, clients[0], now, writeOk);
        ScheduleEachKeepsValid(Schedule(s, clients[0], now, writeOk), clients[1..], onlyNew, now, writeOk);
      } else {
        ScheduleEachKeepsValid(s, clients[1..], onlyNew, now, writeOk);
      }
    }
  }

  lemma InitializeKeepsValid(s: State, fetched: Option<seq<ClientView>>, now: int, writeOk: bool)
    requires Valid(s)
    ensures Valid(Initialize(s, fetched, now, writeOk))
  {
    if fetched.Some? {
      ScheduleEachKeepsValid(s.(scheduled := map[]), fetched.value, false, now, writeOk);
    }
  }

  lemma FireKeepsValid(s: State, h: Handle, now: int, fetched: Option<seq<ClientView>>, writeOk: bool)
    requires Valid(s)
    ensures Valid(Fire(s, h, now, fetched, writeOk))
  {
    if h in s.live {
      match s.live[h]
      case ReminderTimeout(c, _) =>
        if c.nextWorkDate.Some? {
          TriggerKeepsValid(s.(live := s.live - {h}), c, now, writeOk);
        }
      case RefreshInterval(_) =>
        if fetched.Some? {
          ScheduleEachKeepsValid(s, fetched.value, true, now, writeOk);
        }
      case MidnightTimeout(_) =>
      case DailyInterval(_) =>
    }
  }

  /** Every event keeps the handle bookkeeping sound. */
  lemma ApplyKeepsValid(s: State, e: Event)
    requires Valid(s)
    ensures Valid(Apply(s, e))
  {
    match e
    case InitializeReminders(fetched, now, writeOk) => InitializeKeepsValid(s, fetched, now, writeOk);
    case ArmMidnightReset(now) =>
    case CleanUp =>
    case CancelTimeout(h) =>
    case TimerFired(h, fetched, now, writeOk) => FireKeepsValid(s, h, now, fetched, writeOk);
  }

  lemma {:induction false} RunKeepsValid(s: State, events: seq<Event>)
    requires Valid(s)
    ensures Valid(Run(s, events))
    decreases |events|
  {
    if events != [] {
      ApplyKeepsValid(s, events[0]);
      RunKeepsValid(Apply(s, events[0]), events[1..]);
    }
  }

  /**
   * While the recorded refresh interval is the only one live, the clean-up
   * leaves no timer running at all.
   */
  lemma CleanupStopsEverything(s: State)
    requires Valid(s) && IntervalTracked(s)
    ensures Cleanup(s).live == map[]
  {
  }

  // ---------------------------------------------------------------- steps

  /**
   * From `s` to `t` the notified set and the alert and write logs only
   * grow, and each alert added is for a key that was not notified before,
   * is notified after, and is not alerted twice.
   */
  ghost predicate FreshAlerts(s: State, t: State) {
    s.notified <= t.notified && s.alerts <= t.alerts && s.writes <= t.writes &&
    (forall i :: |s.alerts| <= i < |t.alerts| ==>
       t.alerts[i].nextWorkDate.Some? && KeyOf(t.alerts[i]) !in s.notified && KeyOf(t.alerts[i]) in t.notified) &&
    (forall i, j :: |s.alerts| <= i < j < |t.alerts| ==>
       t.alerts[i].nextWorkDate.Some? && t.alerts[j].nextWorkDate.Some? && KeyOf(t.alerts[i]) != KeyOf(t.alerts[j]))
  }

  /** Handles only increase, and no timer is revived or replaced under an old handle. */
  ghost predicate Extends(s: State, t: State) {
    s.nextHandle <= t.nextHandle &&
    forall h :: h in t.live && h < s.nextHandle ==> h in s.live && t.live[h] == s.live[h]
  }

  /**
   * Each reminder timeout live in `t` but not in `s` is for a client with a date
   * and a time, waits between 0 (exclusive) and 24 hours, and ends exactly
   * at the client's reminder instant measured from `now`.
   */
  ghost predicate ArmedInWindow(s: State, t: State, now: Option<int>) {
    forall h :: h in t.live && !(h in s.live && s.live[h] == t.live[h]) ==> AimedAt(t.live[h], now)
  }

  /** A reminder timeout armed at `now` for its client's reminder instant, within the window. */
  ghost predicate AimedAt(tm: Timer, now: Option<int>) {
    tm.ReminderTimeout? ==>
      now.Some? && HasReminder(tm.client) && 0 < tm.delay <= LOOKAHEAD &&
      FireInstant(tm.client.nextWorkDate.value, tm.client.reminderTime) == Some(now.value + tm.delay)
  }

  ghost predicate Sound(s: State, t: State, now: int) {
    FreshAlerts(s, t) && Extends(s, t) && ArmedInWindow(s, t, Some(now))
  }

  lemma FreshAlertsTrans(s: State, t: State, u: State)
    requires FreshAlerts(s, t) && FreshAlerts(t, u)
    ensures FreshAlerts(s, u)
  {
    forall i | |s.alerts| <= i < |u.alerts|
      ensures u.alerts[i].nextWorkDate.Some? && KeyOf(u.alerts[i]) !in s.notified && KeyOf(u.alerts[i]) in u.notified
    {
      if i < |t.alerts| {
        assert u.alerts[i] == t.alerts[i];
      }
    }
    forall i, j | |s.alerts| <= i < j < |u.alerts|
      ensures KeyOf(u.alerts[i]) != KeyOf(u.alerts[j])
    {
      if j < |t.alerts| {
        assert u.alerts[i] == t.alerts[i] && u.alerts[j] == t.alerts[j];
      } else if i < |t.alerts| {
        assert u.alerts[i] == t.alerts[i];
        assert KeyOf(u.alerts[i]) in t.notified;
      }
    }
  }

  lemma SoundTrans(s: State, t: State, u: State, now: int)
    requires Sound(s, t, now) && Sound(t, u, now)
    ensures Sound(s, u, now)
  {
    FreshAlertsTrans(s, t, u);
    forall h | h in u.live && !(h in s.live && s.live[h] == u.live[h])
      ensures AimedAt(u.live[h], Some(now))
    {
      if h in t.live && t.live[h] == u.live[h] {
        assert !(h in s.live && s.live[h] == t.live[h]);
      }
    }
  }

  lemma ArmSound(s: State, key: Key, c: ClientView, delay: int, now: int)
    requires HasReminder(c) && 0 < delay <= LOOKAHEAD
    requires FireInstant(c.nextWorkDate.value, c.reminderTime) == Some(now + delay)
    ensures Sound(s, Arm(s, key, c, delay), now)
  {
    var t := Arm(s, key, c, delay);
    assert FreshAlerts(s, t);
    ArmExtends(s, key, c, delay);
    ArmAimed(s, key, c, delay, now);
  }

  lemma ArmExtends(s: State, key: Key, c: ClientView, delay: int)
    ensures Extends(s, Arm(s, key, c, delay))
  {
    var t := Arm(s, key, c, delay);
    forall h | h in t.live && h < s.nextHandle
      ensures h in s.live && t.live[h] == s.live[h]
    {
      assert h != s.nextHandle;
    }
  }

  lemma ArmAimed(s: State, key: Key, c: ClientView, delay: int, now: int)
    requires HasReminder(c) && 0 < delay <= LOOKAHEAD
    requires FireInstant(c.nextWorkDate.value, c.reminderTime) == Some(now + delay)
    ensures ArmedInWindow(s, Arm(s, key, c, delay), Some(now))
  {
    var t := Arm(s, key, c, delay);
    var tm := ReminderTimeout(c, delay);
    assert AimedAt(tm, Some(now));
    forall h | h in t.live && !(h in s.live && s.live[h] == t.live[h])
      ensures AimedAt(t.live[h], Some(now))
    {
      assert h == s.nextHandle;
      assert t.live[h] == tm;
    }
  }

  lemma {:induction false} ScheduleSound(s: State, c: ClientView, now: int, writeOk: bool)
    ensures Sound(s, Schedule(s, c, now, writeOk), now)
    decreases ScheduleRank(c, now)
  {
    match Decide(c, s.notified, now)
    case Ignore =>
      assert Schedule(s, c, now, writeOk) == s;
    case ArmIn(delay) =>
      assert Schedule(s, c, now, writeOk) == Arm(s, KeyOf(c), c, delay);
      ArmSound(s, KeyOf(c), c, delay, now);
    case FireNow =>
      assert Schedule(s, c, now, writeOk) == Trigger(s, c, now, writeOk);
      TriggerSound(s, c, now, writeOk);
  }

  lemma {:induction false} TriggerSound(s: State, c: ClientView, now: int, writeOk: bool)
    requires c.nextWorkDate.Some?
    ensures Sound(s, Trigger(s, c, now, writeOk), now)
    decreases TriggerRank(c, now)
  {
    var key := KeyOf(c);
    if key !in s.notified {
      var s1 := s.(notified := s.notified + {key}, alerts := s.alerts + [c]);
      assert Sound(s, s1, now);
      if c.repeatAfterDays > 0 && writeOk {
        var next := AddDays(c.nextWorkDate.value, c.repeatAfterDays);
        var s2 := s1.(writes := s1.writes + [Write(c.id, next)]);
        var c2 := c.(nextWorkDate := Some(next));
        ScheduleSound(s2, c2, now, writeOk);
        SoundTrans(s, s2, Schedule(s2, c2, now, writeOk), now);
      }
    }
  }

  lemma {:induction false} ScheduleEachSound(s: State, clients: seq<ClientView>, onlyNew: bool, now: int, writeOk: bool)
    ensures Sound(s, ScheduleEach(s, clients, onlyNew, now, writeOk), now)
    decreases |clients|
  {
    if clients != [] {
      var s1 := if Selected(s, clients[0], onlyNew) then Schedule(s, clients[0], now, writeOk) else s;
      if Selected(s, clients[0], onlyNew) {
        ScheduleSound(s, clients[0], now, writeOk);
      }
      ScheduleEachSound(s1, clients[1..], onlyNew, now, writeOk);
      SoundTrans(s, s1, ScheduleEach(s1, clients[1..], onlyNew, now, writeOk), now);
    }
  }

  lemma InitializeSound(s: State, fetched: Option<seq<ClientView>>, now: int, writeOk: bool)
    ensures var t := Initialize(s, fetched, now, writeOk);
      FreshAlerts(s, t) && Extends(s, t) && ArmedInWindow(s, t, Some(now))
  {
    if fetched.Some? {
      ScheduleEachSound(s.(scheduled := map[]), fetched.value, false, now, writeOk);
    }
  }

  lemma FireSound(s: State, h: Handle, now: int, fetched: Option<seq<ClientView>>, writeOk: bool)
    ensures var t := Fire(s, h, now, fetched, writeOk);
      Extends(s, t) && ArmedInWindow(s, t, Some(now)) &&
      (!(h in s.live && (s.live[h].MidnightTimeout? || s.live[h].DailyInterval?)) ==> FreshAlerts(s, t))
  {
    if h in s.live {
      match s.live[h]
      case ReminderTimeout(c, _) =>
        if c.nextWorkDate.Some? {
          TriggerSound(s.(live := s.live - {h}), c, now, writeOk);
        }
      case RefreshInterval(_) =>
        if fetched.Some? {
          ScheduleEachSound(s, fetched.value, true, now, writeOk);
        }
      case MidnightTimeout(_) =>
      case DailyInterval(_) =>
    }
  }

  /**
   * Any event: handles only increase, every reminder timeout it arms is in
   * the window and aimed at the client's instant, and unless it is a
   * midnight reset it only adds alerts for keys not yet notified, each once.
   */
  lemma ApplySound(s: State, e: Event)
    ensures Extends(s, Apply(s, e)) && ArmedInWindow(s, Apply(s, e), Moment(e))
    ensures !IsReset(s, e) ==> FreshAlerts(s, Apply(s, e))
  {
    match e
    case InitializeReminders(fetched, now, writeOk) => InitializeSound(s, fetched, now, writeOk);
    case ArmMidnightReset(now) =>
    case CleanUp =>
    case CancelTimeout(h) =>
    case TimerFired(h, fetched, now, writeOk) => FireSound(s, h, now, fetched, writeOk);
  }

  /** Between two midnight resets, no reminder key is alerted twice. */
  lemma {:induction false} RunAlertsOnce(s: State, events: seq<Event>)
    requires NoReset(s, events)
    ensures FreshAlerts(s, Run(s, events))
    decreases |events|
  {
    if events != [] {
      ApplySound(s, events[0]);
      RunAlertsOnce(Apply(s, events[0]), events[1..]);
      FreshAlertsTrans(s, Apply(s, events[0]), Run(Apply(s, events[0]), events[1..]));
    }
  }

  // ---------------------------------------------------------------- cases

  /**
   * For a client with a date and a time not yet notified, the four outcomes
   * of scheduling by where the reminder instant lies relative to `now`.
   */
  lemma ScheduleOutcome(s: State, c: ClientView, now: int, writeOk: bool)
    requires HasReminder(c) && KeyOf(c) !in s.notified
    requires FireInstant(c.nextWorkDate.value, c.reminderTime).Some?
    ensures var f := FireInstant(c.nextWorkDate.value, c.reminderTime).value;
      var t := Schedule(s, c, now, writeOk);
      (0 < f - now <= LOOKAHEAD ==>
         s.nextHandle in t.live && t.live[s.nextHandle] == ReminderTimeout(c, f - now) &&
         t.scheduled == s.scheduled[KeyOf(c) := s.nextHandle] && t.alerts == s.alerts) &&
      (f - now > LOOKAHEAD ==> t == s) &&
      (f <= now && (DayIndex(c.nextWorkDate.value) != DayIndex(now) || now - f >= GRACE) ==> t == s) &&
      (f <= now && DayIndex(c.nextWorkDate.value) == DayIndex(now) && now - f < GRACE ==>
         KeyOf(c) in t.notified && |t.alerts| > |s.alerts| && t.alerts[|s.alerts|] == c)
  {
    var f := FireInstant(c.nextWorkDate.value, c.reminderTime).value;
    if 0 < f - now <= LOOKAHEAD {
      ScheduleInWindow(s, c, now, writeOk);
    } else if f <= now && DayIndex(c.nextWorkDate.value) == DayIndex(now) && now - f < GRACE {
      ScheduleInGrace(s, c, now, writeOk);
      TriggerOnce(s, c, now, writeOk, now, writeOk);
    } else {
      ScheduleOutside(s, c, now, writeOk);
    }
  }

  /** A reminder instant passed today by less than the grace period makes scheduling trigger at once. */
  lemma ScheduleInGrace(s: State, c: ClientView, now: int, writeOk: bool)
    requires HasReminder(c) && KeyOf(c) !in s.notified
    requires FireInstant(c.nextWorkDate.value, c.reminderTime).Some?
    requires var f := FireInstant(c.nextWorkDate.value, c.reminderTime).value;
      f <= now && DayIndex(c.nextWorkDate.value) == DayIndex(now) && now - f < GRACE
    ensures Schedule(s, c, now, writeOk) == Trigger(s, c, now, writeOk)
  {
    SameDay(c.nextWorkDate.value, now);
    assert Decide(c, s.notified, now) == FireNow;
  }

  /** A reminder instant beyond the window, or passed on another day or too long ago, is ignored. */
  lemma ScheduleOutside(s: State, c: ClientView, now: int, writeOk: bool)
    requires HasReminder(c)
    requires FireInstant(c.nextWorkDate.value, c.reminderTime).Some?
    requires var f := FireInstant(c.nextWorkDate.value, c.reminderTime).value;
      f - now > LOOKAHEAD ||
      (f <= now && (DayIndex(c.nextWorkDate.value) != DayIndex(now) || now - f >= GRACE))
    ensures Schedule(s, c, now, writeOk) == s
  {
    SameDay(c.nextWorkDate.value, now);
    assert Decide(c, s.notified, now) == Ignore;
  }

  /**
   * Triggering a client not yet notified alerts it, marks its key, forgets
   * its timeout, and makes every later trigger or schedule of the same
   * client (at any time, whatever the server does) a no-op.
   */
  lemma TriggerOnce(s: State, c: ClientView, now: int, writeOk: bool, later: int, laterOk: bool)
    requires c.nextWorkDate.Some? && KeyOf(c) !in s.notified
    ensures var t := Trigger(s, c, now, writeOk);
      KeyOf(c) in t.notified && |t.alerts| > |s.alerts| && t.alerts[|s.alerts|] == c &&
      KeyOf(c) !in t.scheduled &&
      Trigger(t, c, later, laterOk) == t && Schedule(t, c, later, laterOk) == t
  {
    var key := KeyOf(c);
    var s1 := s.(notified := s.notified + {key}, alerts := s.alerts + [c]);
    if c.repeatAfterDays > 0 && writeOk {
      var next := AddDays(c.nextWorkDate.value, c.repeatAfterDays);
      var s2 := s1.(writes := s1.writes + [Write(c.id, next)]);
      ScheduleSound(s2, c.(nextWorkDate := Some(next)), now, writeOk);
    }
  }

  /**
   * A repeating client's trigger writes back the date `repeatAfterDays`
   * later at the same time of day (only when the write succeeds is the new
   * date then scheduled); otherwise nothing is written and the alert is the
   * only effect on the logs. A failed write is never retried for that date,
   * because its key stays notified.
   */
  lemma TriggerWritesBack(s: State, c: ClientView, now: int, writeOk: bool)
    requires c.nextWorkDate.Some? && KeyOf(c) !in s.notified
    ensures var t := Trigger(s, c, now, writeOk);
      var next := AddDays(c.nextWorkDate.value, c.repeatAfterDays);
      (c.repeatAfterDays > 0 && writeOk ==>
         |t.writes| > |s.writes| && t.writes[|s.writes|] == Write(c.id, next) &&
         DayIndex(next) == DayIndex(c.nextWorkDate.value) + c.repeatAfterDays &&
         TimeOfDay(next) == TimeOfDay(c.nextWorkDate.value)) &&
      (!(c.repeatAfterDays > 0 && writeOk) ==>
         t.writes == s.writes && t.alerts == s.alerts + [c] &&
         t.live == s.live && t.timeouts == s.timeouts && t.nextHandle == s.nextHandle &&
         t.scheduled == s.scheduled - {KeyOf(c)})
  {
    var key := KeyOf(c);
    var s1 := s.(notified := s.notified + {key}, alerts := s.alerts + [c]);
    if c.repeatAfterDays > 0 && writeOk {
      var next := AddDays(c.nextWorkDate.value, c.repeatAfterDays);
      var s2 := s1.(writes := s1.writes + [Write(c.id, next)]);
      ScheduleSound(s2, c.(nextWorkDate := Some(next)), now, writeOk);
    }
  }

  /**
   * When the write-back succeeds and the new reminder instant is within the
   * next 24 hours, the trigger arms a timeout for the updated client under
   * the new key (a repeat of at least one day never reuses the old key).
   */
  lemma RescheduleArms(s: State, c: ClientView, now: int)
    requires HasReminder(c) && KeyOf(c) !in s.notified && c.repeatAfterDays > 0
    requires var next := AddDays(c.nextWorkDate.value, c.repeatAfterDays);
      Key(c.id, next) !in s.notified && FireInstant(next, c.reminderTime).Some? &&
      0 < FireInstant(next, c.reminderTime).value - now <= LOOKAHEAD
    ensures var next := AddDays(c.nextWorkDate.value, c.repeatAfterDays);
      var t := Trigger(s, c, now, true);
      s.nextHandle in t.live &&
      t.live[s.nextHandle] ==
        ReminderTimeout(c.(nextWorkDate := Some(next)), FireInstant(next, c.reminderTime).value - now) &&
      Key(c.id, next) in t.scheduled && t.scheduled[Key(c.id, next)] == s.nextHandle
  {
    var key := KeyOf(c);
    var next := AddDays(c.nextWorkDate.value, c.repeatAfterDays);
    var c2 := c.(nextWorkDate := Some(next));
    assert KeyOf(c2) != key;
    var s1 := s.(notified := s.notified + {key}, alerts := s.alerts + [c]);
    var s2 := s1.(writes := s1.writes + [Write(c.id, next)]);
    ScheduleInWindow(s2, c2, now, true);
    var a := Arm(s2, KeyOf(c2), c2, FireInstant(next, c.reminderTime).value - now);
    assert Trigger(s, c, now, true) == a.(scheduled := a.scheduled - {key});
  }

  /** The refresh pass leaves a client whose key is already in the key map alone. */
  lemma RescanSkipsScheduled(s: State, c: ClientView, now: int, writeOk: bool)
    requires c.nextWorkDate.Some? && KeyOf(c) in s.scheduled
    ensures ScheduleEach(s, [c], true, now, writeOk) == s
  {
    ScheduleEachOne(s, c, true, now, writeOk);
  }

  /** The refresh interval firing over a fetched client already in the key map changes nothing. */
  lemma RefreshSkipsScheduled(s: State, h: Handle, c: ClientView, now: int, writeOk: bool)
    requires h in s.live && s.live[h].RefreshInterval?
    requires c.nextWorkDate.Some? && KeyOf(c) in s.scheduled
    ensures Fire(s, h, now, Some([c]), writeOk) == s
  {
    RescanSkipsScheduled(s, c, now, writeOk);
  }

  /**
   * The refresh interval firing over a fetched active client that is neither
   * in the key map nor notified, with its reminder within 24 hours, arms its
   * timeout.
   */
  lemma RefreshArmsNew(s: State, h: Handle, c: ClientView, now: int, writeOk: bool)
    requires h in s.live && s.live[h].RefreshInterval?
    requires HasReminder(c) && c.isActive && KeyOf(c) !in s.scheduled && KeyOf(c) !in s.notified
    requires FireInstant(c.nextWorkDate.value, c.reminderTime).Some?
    requires 0 < FireInstant(c.nextWorkDate.value, c.reminderTime).value - now <= LOOKAHEAD
    ensures Fire(s, h, now, Some([c]), writeOk) ==
      Arm(s, KeyOf(c), c, FireInstant(c.nextWorkDate.value, c.reminderTime).value - now)
  {
    ScheduleEachOne(s, c, true, now, writeOk);
    ScheduleInWindow(s, c, now, writeOk);
  }

  /** The refresh pass over one client schedules it exactly when it is selected. */
  lemma ScheduleEachOne(s: State, c: ClientView, onlyNew: bool, now: int, writeOk: bool)
    ensures ScheduleEach(s, [c], onlyNew, now, writeOk) ==
      if Selected(s, c, onlyNew) then Schedule(s, c, now, writeOk) else s
  {
    assert [c][1..] == [];
  }

  /**
   * A successful fetch of one client with a reminder inside the window arms
   * its timeout under the first free handle, leaves only its key in the key
   * map (stale keys are dropped), and then starts the refresh interval.
   */
  lemma InitializeArmsInWindow(s: State, c: ClientView, now: int, writeOk: bool)
    requires HasReminder(c) && c.isActive && KeyOf(c) !in s.notified
    requires FireInstant(c.nextWorkDate.value, c.reminderTime).Some?
    requires 0 < FireInstant(c.nextWorkDate.value, c.reminderTime).value - now <= LOOKAHEAD
    ensures var t := Initialize(s, Some([c]), now, writeOk);
      t.scheduled == map[KeyOf(c) := s.nextHandle] && s.nextHandle in t.live &&
      t.live[s.nextHandle] == ReminderTimeout(c, FireInstant(c.nextWorkDate.value, c.reminderTime).value - now) &&
      t.checkInterval == Some(s.nextHandle + 1)
  {
    var r := s.(scheduled := map[]);
    ScheduleEachOne(r, c, false, now, writeOk);
    ScheduleInWindow(r, c, now, writeOk);
  }

  /**
   * A reminder 2 hours ahead arms a timeout; when it fires the client is
   * alerted, and the spent handle firing again does nothing.
   */
  lemma TimeoutFiresOnce(s: State, c: ClientView, now: int, writeOk: bool,
                         at: int, fetched: Option<seq<ClientView>>, atOk: bool,
                         again: int, fetched2: Option<seq<ClientView>>, againOk: bool)
    requires HasReminder(c) && KeyOf(c) !in s.notified
    requires FireInstant(c.nextWorkDate.value, c.reminderTime) == Some(now + 2 * MS_PER_HOUR)
    ensures var t := Schedule(s, c, now, writeOk);
      var h := s.nextHandle;
      h in t.live && t.live[h] == ReminderTimeout(c, 2 * MS_PER_HOUR) &&
      var u := Fire(t, h, at, fetched, atOk);
      |u.alerts| > |t.alerts| &&
      u.alerts[|t.alerts|] == c && h !in u.live && Fire(u, h, again, fetched2, againOk) == u
  {
    var t := Schedule(s, c, now, writeOk);
    var h := s.nextHandle;
    var t1 := t.(live := t.live - {h});
    TriggerOnce(t1, c, at, atOk, at, atOk);
    TriggerSound(t1, c, at, atOk);
  }

  /** After a midnight reset, a client already alerted today can be alerted again. */
  lemma ResetAllowsRealert(s: State, e: Event, c: ClientView, now: int, writeOk: bool)
    requires IsReset(s, e) && c.nextWorkDate.Some?
    ensures var r := Apply(s, e);
      r.notified == {} && r.scheduled == map[] &&
      var t := Trigger(r, c, now, writeOk);
      |t.alerts| > |r.alerts| && t.alerts[|r.alerts|] == c
  {
    TriggerOnce(Apply(s, e), c, now, writeOk, now, writeOk);
  }

  /** A reminder instant inside the window makes scheduling arm a timeout for exactly the time left. */
  lemma ScheduleInWindow(s: State, c: ClientView, now: int, writeOk: bool)
    requires HasReminder(c) && KeyOf(c) !in s.notified
    requires FireInstant(c.nextWorkDate.value, c.reminderTime).Some?
    requires 0 < FireInstant(c.nextWorkDate.value, c.reminderTime).value - now <= LOOKAHEAD
    ensures Schedule(s, c, now, writeOk) ==
      Arm(s, KeyOf(c), c, FireInstant(c.nextWorkDate.value, c.reminderTime).value - now)
  {
    var delay := FireInstant(c.nextWorkDate.value, c.reminderTime).value - now;
    DecideInWindow(s.notified, c, now);
    assert Decide(c, s.notified, now) == ArmIn(delay);
  }

  /** The decision for a reminder instant inside the window. */
  lemma DecideInWindow(notified: set<Key>, c: ClientView, now: int)
    requires HasReminder(c) && KeyOf(c) !in notified
    requires FireInstant(c.nextWorkDate.value, c.reminderTime).Some?
    requires 0 < FireInstant(c.nextWorkDate.value, c.reminderTime).value - now <= LOOKAHEAD
    ensures Decide(c, notified, now) == ArmIn(FireInstant(c.nextWorkDate.value, c.reminderTime).value - now)
  {
  }

  /**
   * The reset forgets the key map but cancels no timer, so the next refresh
   * arms a second live timeout for a key whose first one is still pending.
   */
  lemma ResetLetsRefreshDuplicate(s: State, c: ClientView, now: int, writeOk: bool)
    requires Valid(s) && HasReminder(c) && c.isActive
    requires KeyOf(c) in s.scheduled && s.scheduled[KeyOf(c)] in s.live
    requires FireInstant(c.nextWorkDate.value, c.reminderTime).Some?
    requires 0 < FireInstant(c.nextWorkDate.value, c.reminderTime).value - now <= LOOKAHEAD
    ensures var t := ScheduleEach(ClearNotified(s), [c], true, now, writeOk);
      var first := s.scheduled[KeyOf(c)];
      first != s.nextHandle && first in t.live && s.nextHandle in t.live &&
      t.live[s.nextHandle].ReminderTimeout? && t.live[s.nextHandle].client == c
  {
    var first := s.scheduled[KeyOf(c)];
    assert first < s.nextHandle;
    var r := ClearNotified(s);
    assert r.live == s.live && r.nextHandle == s.nextHandle && r.notified == {} && r.scheduled == map[];
    var delay := FireInstant(c.nextWorkDate.value, c.reminderTime).value - now;
    assert Selected(r, c, true);
    ScheduleInWindow(r, c, now, writeOk);
    var t := Arm(r, KeyOf(c), c, delay);
    assert ScheduleEach(r, [c], true, now, writeOk) == t by {
      assert [c][1..] == [];
    }
  }
}

/**
 * The reminder component as an object: its four refs (the notified set,
 * the key-to-timeout map, the list of recorded timeouts and the refresh
 * interval) are fields, and so are the live timers of the page, the handle
 * counter, and the logs of alerts shown and dates written back. Each method
 * is proved to leave exactly the state the matching function of the
 * scheduler specifies, so every lemma about those functions holds of it.
 */
module Notifications {
  import opened Wrappers
  import opened Clock
  import opened Scheduler

  class NotificationManager {
    var notified: set<Key>
    var scheduled: map<Key, Handle>
    var timeouts: seq<Handle>
    var checkInterval: Option<Handle>
    var live: map<Handle, Timer>
    var nextHandle: Handle
    var alerts: seq<ClientView>
    var writes: seq<Write>

    function Snapshot(): State
      reads this
    {
      State(notified, scheduled, timeouts, checkInterval, live, nextHandle, alerts, writes)
    }

    /** The refs start empty; no timer is live. */
    constructor()
      ensures Snapshot() == Initial
    {
      notified, scheduled, timeouts, checkInterval := {}, map[], [], None;
      live, nextHandle, alerts, writes := map[], 1, [], [];
    }

    /** `cleanup`: stop the interval, cancel every recorded timeout, empty the list and the map. */
    method Cleanup()
      modifies this
      ensures Snapshot() == Scheduler.Cleanup(old(Snapshot()))
    {
      if checkInterval.Some? {
        live := live - {checkInterval.value};
        checkInterval := None;
      }
      ghost var start := live;
      var i := 0;
      while i < |timeouts|
        invariant 0 <= i <= |timeouts|
        invariant CancelAll(live, timeouts[i..]) == CancelAll(start, timeouts)
        invariant timeouts == old(timeouts) && checkInterval.None? && notified == old(notified)
        invariant scheduled == old(scheduled) && nextHandle == old(nextHandle)
        invariant alerts == old(alerts) && writes == old(writes)
        invariant start == if old(checkInterval).Some? then old(live) - {old(checkInterval).value} else old(live)
      {
        assert timeouts[i..][1..] == timeouts[i + 1..];
        live := live - {timeouts[i]};
        i := i + 1;
      }
      timeouts := [];
      scheduled := map[];
    }

    /** `scheduleReminder`. */
    method ScheduleReminder(c: ClientView, now: int, writeOk: bool)
      modifies this
      ensures Snapshot() == Schedule(old(Snapshot()), c, now, writeOk)
      decreases ScheduleRank(c, now), 1
    {
      match Decide(c, notified, now)
      case Ignore =>
      case ArmIn(delay) =>
        var key := KeyOf(c);
        if key in scheduled {
          live := live - {scheduled[key]};
        }
        var h := nextHandle;
        live := live[h := ReminderTimeout(c, delay)];
        scheduled := scheduled[key := h];
        timeouts := timeouts + [h];
        nextHandle := h + 1;
      case FireNow =>
        TriggerReminder(c, now, writeOk);
    }

    /** `triggerReminder`, with the write-back of `rescheduleReminder` succeeding iff `writeOk`. */
    method TriggerReminder(c: ClientView, now: int, writeOk: bool)
      requires c.nextWorkDate.Some?
      modifies this
      ensures Snapshot() == Trigger(old(Snapshot()), c, now, writeOk)
      decreases TriggerRank(c, now), 0
    {
      var key := KeyOf(c);
      if key in notified {
        return;
      }
      notified := notified + {key};
      alerts := alerts + [c];
      if c.repeatAfterDays > 0 && writeOk {
        var next := AddDays(c.nextWorkDate.value, c.repeatAfterDays);
        writes := writes + [Write(c.id, next)];
        ScheduleReminder(c.(nextWorkDate := Some(next)), now, writeOk);
      }
      scheduled := scheduled - {key};
    }

    /** The `forEach` over the fetched clients, of the initial pass or of the refresh. */
    method ScheduleAll(clients: seq<ClientView>, onlyNew: bool, now: int, writeOk: bool)
      modifies this
      ensures Snapshot() == ScheduleEach(old(Snapshot()), clients, onlyNew, now, writeOk)
    {
      var i := 0;
      while i < |clients|
        invariant 0 <= i <= |clients|
        invariant ScheduleEach(Snapshot(), clients[i..], onlyNew, now, writeOk)
               == ScheduleEach(old(Snapshot()), clients, onlyNew, now, writeOk)
      {
        assert clients[i..][1..] == clients[i + 1..];
        var c := clients[i];
        if HasReminder(c) && c.isActive && (!onlyNew || KeyOf(c) !in scheduled) {
          ScheduleReminder(c, now, writeOk);
        }
        i := i + 1;
      }
    }

    /** `initializeReminders`; `fetched` is the result of `GET /clients`, `None` when it failed. */
    method InitializeReminders(fetched: Option<seq<ClientView>>, now: int, writeOk: bool)
      modifies this
      ensures Snapshot() == Initialize(old(Snapshot()), fetched, now, writeOk)
    {
      if fetched.None? {
        return;
      }
      scheduled := map[];
      ScheduleAll(fetched.value, false, now, writeOk);
      var h := nextHandle;
      live := live[h := RefreshInterval(REFRESH_PERIOD)];
      checkInterval := Some(h);
      nextHandle := h + 1;
    }

    /** `clearNotifiedAtMidnight`. */
    method ClearNotifiedAtMidnight()
      modifies this
      ensures Snapshot() == ClearNotified(old(Snapshot()))
    {
      notified := {};
      scheduled := map[];
    }

    /** The midnight effect: arm the timeout for the next midnight and return its handle. */
    method ArmMidnightReset(now: int) returns (h: Handle)
      modifies this
      ensures Snapshot() == ArmMidnight(old(Snapshot()), now) && h == old(nextHandle)
    {
      h := nextHandle;
      live := live[h := MidnightTimeout(StartOfDay(now) + MS_PER_DAY - now)];
      timeouts := timeouts + [h];
      nextHandle := h + 1;
    }

    /** `clearTimeout(h)`: the midnight effect's clean-up of its own timeout. */
    method CancelTimeout(h: Handle)
      modifies this
      ensures Snapshot() == old(Snapshot()).(live := old(live) - {h})
    {
      live := live - {h};
    }

    /** The live timer `h` fires at `now`; a refresh uses `fetched`, a trigger `writeOk`. */
    method Fire(h: Handle, now: int, fetched: Option<seq<ClientView>>, writeOk: bool)
      modifies this
      ensures Snapshot() == Scheduler.Fire(old(Snapshot()), h, now, fetched, writeOk)
    {
      if h !in live {
        return;
      }
      match live[h]
      case ReminderTimeout(c, _) =>
        live := live - {h};
        if c.nextWorkDate.Some? {
          TriggerReminder(c, now, writeOk);
        }
      case RefreshInterval(_) =>
        if fetched.Some? {
          ScheduleAll(fetched.value, true, now, writeOk);
        }
      case MidnightTimeout(_) =>
        live := live - {h};
        ClearNotifiedAtMidnight();
        var d := nextHandle;
        live := live[d := DailyInterval(MS_PER_DAY)];
        timeouts := timeouts + [d];
        nextHandle := d + 1;
      case DailyInterval(_) =>
        ClearNotifiedAtMidnight();
    }
  }
}

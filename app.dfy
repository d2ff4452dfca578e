/**
 * The state-and-scheduling engine of the hydration reminder window: the
 * daily counter and its persistence, the self-rescheduling reminder timer,
 * the settings it reads and writes, and the window's shown/hidden state.
 *
 * The host toolkit is part of the object's state: `pending` is Tk's queue of
 * armed one-shot timers (handle to delay in milliseconds), `nextHandle` the
 * next id `after` hands out, `window` the window manager's view of the
 * window and `toasts` the notifications shown so far. The two files are
 * fields as well; the calendar date is a parameter of each operation that
 * reads it.
 */
module HydrationReminder {
  import opened Wrappers
  import DailyLog
  import SettingsStore
  import IntakeCounter

  /** A timer id returned by `after`. */
  type Handle = nat

  /** What the window manager reports for the main window. */
  datatype WindowState = Normal | Iconic | Withdrawn

  const MILLIS_PER_MINUTE := 60 * 1000

  /** The body of the reminder toast. */
  function ReminderMessage(cupName: string): string {
    "Hey! It's time to drink one " + cupName + " of water."
  }

  /** The handles an optional timer id names: none, or the one it holds. */
  function HandleSet(timer: Option<Handle>): set<Handle> {
    if timer.Some? then {timer.value} else {}
  }

  /** Pending timers all named by one optional id: at most one timer is pending. */
  lemma AtMostOnePending(pending: map<Handle, int>, timer: Option<Handle>)
    requires pending.Keys <= HandleSet(timer)
    ensures |pending| <= 1
  {
    if timer.Some? && timer.value in pending {
      assert pending.Keys == {timer.value};
    } else {
      assert pending.Keys == {};
    }
  }

  class WaterReminderApp {
    // The app's own state.
    var dailyTotal: int
    var intervalMinutes: int
    var cupName: string
    var timer: Option<Handle>
    var trayRunning: bool

    // The two files it reads and rewrites.
    var settingsFile: SettingsStore.IniFile
    var logFile: DailyLog.LogFile

    // The host: Tk's timer queue, the window and the notifications.
    var pending: map<Handle, int>
    var nextHandle: nat
    var window: WindowState
    var destroyed: bool
    var toasts: seq<string>

    /**
     * The scheduler's invariant: every pending timer is the one `timer`
     * names (so at most one is pending), and `after` hands out fresh ids.
     */
    predicate Valid()
      reads this
    {
      && pending.Keys <= HandleSet(timer)
      && (forall h :: h in pending ==> h < nextHandle)
    }

    /** The state `__init__` sets before it loads anything. */
    constructor (settingsFile: SettingsStore.IniFile, logFile: DailyLog.LogFile)
      ensures Valid()
      ensures dailyTotal == 0 && intervalMinutes == SettingsStore.DEFAULT_INTERVAL
      ensures cupName == SettingsStore.DEFAULT_CUP_NAME
      ensures timer == None && !trayRunning && pending == map[]
      ensures this.settingsFile == settingsFile && this.logFile == logFile
      ensures window == Normal && !destroyed && toasts == []
    {
      dailyTotal := 0;
      intervalMinutes := SettingsStore.DEFAULT_INTERVAL;
      cupName := SettingsStore.DEFAULT_CUP_NAME;
      timer := None;
      trayRunning := false;
      this.settingsFile := settingsFile;
      this.logFile := logFile;
      pending := map[];
      nextHandle := 0;
      window := Normal;
      destroyed := false;
      toasts := [];
    }

    // ---------------------------------------------------------------------
    // Settings

    /**
     * `load_settings`: create the file with the defaults when it is absent,
     * then read the interval and the unit label, falling back to 30 and
     * "cup" for missing keys. A stored interval that `int()` rejects raises
     * (ok is false) before either field is assigned.
     */
    method LoadSettings() returns (ok: bool)
      modifies this`settingsFile, this`intervalMinutes, this`cupName
      ensures settingsFile == SettingsStore.CreateIfAbsent(old(settingsFile))
      ensures ok == SettingsStore.IntervalSetting(SettingsStore.Sections(settingsFile)).Some?
      ensures ok ==> intervalMinutes == SettingsStore.IntervalSetting(SettingsStore.Sections(settingsFile)).value
      ensures ok ==> cupName == SettingsStore.CupNameSetting(SettingsStore.Sections(settingsFile))
      ensures !ok ==> intervalMinutes == old(intervalMinutes) && cupName == old(cupName)
    {
      if settingsFile.Absent? {
        settingsFile := SettingsStore.Present(map[SettingsStore.SETTINGS_SECTION := SettingsStore.DefaultSection()]);
      }
      var config := SettingsStore.Sections(settingsFile);
      var interval := SettingsStore.IntervalSetting(config);
      if interval.None? {
        return false;
      }
      intervalMinutes := interval.value;
      cupName := SettingsStore.CupNameSetting(config);
      ok := true;
    }

    /**
     * `save_settings`: read the file, set `interval_minutes` of `[Settings]`
     * and write it back. Without that section the assignment raises and the
     * file is left as it was (ok is false).
     */
    method SaveSettings() returns (ok: bool)
      modifies this`settingsFile
      ensures ok == SettingsStore.SaveInterval(old(settingsFile), intervalMinutes).Some?
      ensures settingsFile == SettingsStore.SaveInterval(old(settingsFile), intervalMinutes).GetOr(old(settingsFile))
      ensures ok ==> SettingsStore.IntervalSetting(SettingsStore.Sections(settingsFile)) == Some(intervalMinutes)
      ensures ok ==> SettingsStore.CupNameSetting(SettingsStore.Sections(settingsFile))
                     == SettingsStore.CupNameSetting(SettingsStore.Sections(old(settingsFile)))
    {
      var config := SettingsStore.Sections(settingsFile);
      if SettingsStore.SETTINGS_SECTION !in config {
        return false;
      }
      ghost var before := settingsFile;
      SettingsStore.SaveThenLoad(before, intervalMinutes);
      settingsFile := SettingsStore.SaveInterval(settingsFile, intervalMinutes).value;
      ok := true;
    }

    // ---------------------------------------------------------------------
    // Daily log

    /**
     * `load_or_create_log`: today's total is the first row dated today, or 0
     * when there is no such row or the file is missing or unreadable.
     */
    method LoadOrCreateLog(today: string)
      modifies this`dailyTotal
      ensures dailyTotal == DailyLog.LoadTotal(logFile, today)
      ensures !logFile.Table? ==> dailyTotal == 0
      ensures logFile.Table? && !DailyLog.HasDate(logFile.rows, today) ==> dailyTotal == 0
    {
      match logFile
      case Table(df) =>
        var entry := DailyLog.FirstIndex(df, today);
        if entry.Some? {
          dailyTotal := df[entry.value].totalCups;
        } else {
          dailyTotal := 0;
        }
      case Missing =>
        dailyTotal := 0;
      case Unreadable =>
        dailyTotal := 0;
    }

    /**
     * `save_log`: read the table, patch today's row or append one, and write
     * the table back; a missing file becomes a one-row table. Any other read
     * error raises and nothing is written (ok is false).
     */
    method SaveLog(today: string) returns (ok: bool)
      modifies this`logFile
      ensures ok == DailyLog.Save(old(logFile), today, dailyTotal).Some?
      ensures logFile == DailyLog.Save(old(logFile), today, dailyTotal).GetOr(old(logFile))
      ensures ok ==> DailyLog.LoadTotal(logFile, today) == dailyTotal
    {
      ghost var before := logFile;
      var newRow := DailyLog.Row(today, dailyTotal);
      var df: seq<DailyLog.Row>;
      match logFile {
        case Unreadable =>
          return false;
        case Missing =>
          df := [newRow];
        case Table(rows) =>
          if DailyLog.HasDate(rows, today) {
            df := DailyLog.SetTotal(rows, today, dailyTotal);
          } else {
            df := rows + [newRow];
          }
      }
      logFile := DailyLog.Table(df);
      DailyLog.LoadAfterSave(before, today, dailyTotal);
      ok := true;
    }

    // ---------------------------------------------------------------------
    // Intake counter

    /**
     * `drank_water`: one more cup, then save. When the save writes, the
     * persisted row for today equals the new total. `fromTray` is accepted
     * and ignored, as in the window's own button.
     */
    method DrankWater(today: string, fromTray: bool) returns (saved: bool)
      modifies this`dailyTotal, this`logFile
      ensures dailyTotal == old(dailyTotal) + 1
      ensures dailyTotal == IntakeCounter.Apply(old(dailyTotal), IntakeCounter.Drank)
      ensures saved == !old(logFile).Unreadable?
      ensures logFile == DailyLog.Save(old(logFile), today, dailyTotal).GetOr(old(logFile))
      ensures saved ==> DailyLog.LoadTotal(logFile, today) == dailyTotal
    {
      dailyTotal := dailyTotal + 1;
      saved := SaveLog(today);
    }

    /**
     * `peed`: one cup fewer and save, but only above zero; at or below zero
     * nothing changes and nothing is saved (saved is false).
     */
    method Peed(today: string) returns (saved: bool)
      modifies this`dailyTotal, this`logFile
      ensures dailyTotal == IntakeCounter.Apply(old(dailyTotal), IntakeCounter.Peed)
      ensures old(dailyTotal) >= 0 ==> dailyTotal >= 0
      ensures old(dailyTotal) <= 0 ==> dailyTotal == old(dailyTotal) && logFile == old(logFile) && !saved
      ensures old(dailyTotal) > 0 ==>
        && dailyTotal == old(dailyTotal) - 1
        && saved == !old(logFile).Unreadable?
        && logFile == DailyLog.Save(old(logFile), today, dailyTotal).GetOr(old(logFile))
        && (saved ==> DailyLog.LoadTotal(logFile, today) == dailyTotal)
    {
      if dailyTotal > 0 {
        dailyTotal := dailyTotal - 1;
        saved := SaveLog(today);
      } else {
        saved := false;
      }
    }

    /** The tray's "Drank" item: the same transition as the window's button. */
    method DrankWaterFromTray(today: string) returns (saved: bool)
      modifies this`dailyTotal, this`logFile
      ensures dailyTotal == old(dailyTotal) + 1
      ensures saved == !old(logFile).Unreadable?
      ensures logFile == DailyLog.Save(old(logFile), today, dailyTotal).GetOr(old(logFile))
      ensures saved ==> DailyLog.LoadTotal(logFile, today) == dailyTotal
    {
      saved := DrankWater(today, true);
    }

    /** The tray's "Peed" item: the same transition as the window's button. */
    method PeedFromTray(today: string) returns (saved: bool)
      modifies this`dailyTotal, this`logFile
      ensures dailyTotal == IntakeCounter.Apply(old(dailyTotal), IntakeCounter.Peed)
      ensures old(dailyTotal) >= 0 ==> dailyTotal >= 0
      ensures old(dailyTotal) <= 0 ==> dailyTotal == old(dailyTotal) && logFile == old(logFile) && !saved
      ensures old(dailyTotal) > 0 ==>
        && dailyTotal == old(dailyTotal) - 1
        && saved == !old(logFile).Unreadable?
        && logFile == DailyLog.Save(old(logFile), today, dailyTotal).GetOr(old(logFile))
        && (saved ==> DailyLog.LoadTotal(logFile, today) == dailyTotal)
    {
      saved := Peed(today);
    }

    // ---------------------------------------------------------------------
    // Reminder scheduler

    /** The host's `after(ms, ...)`: arm a one-shot timer under a fresh id. */
    method After(ms: int) returns (h: Handle)
      requires forall k :: k in pending ==> k < nextHandle
      modifies this`pending, this`nextHandle
      ensures h == old(nextHandle) && h !in old(pending)
      ensures nextHandle == old(nextHandle) + 1
      ensures pending == old(pending)[h := ms]
      ensures forall k :: k in pending ==> k < nextHandle
    {
      h := nextHandle;
      nextHandle := nextHandle + 1;
      pending := pending[h := ms];
    }

    /** The host's `after_cancel(h)`: drop the timer if it is still pending. */
    method AfterCancel(h: Handle)
      modifies this`pending
      ensures pending == old(pending) - {h}
    {
      pending := pending - {h};
    }

    /**
     * `start_reminder_timer`: cancel the timer `timer` names, if any, then
     * arm one for the current interval. Afterwards exactly one timer is
     * pending, under a new id, with delay `intervalMinutes * 60 * 1000`.
     */
    method StartReminderTimer()
      requires Valid()
      modifies this`timer, this`pending, this`nextHandle
      ensures Valid()
      ensures timer == Some(old(nextHandle)) && timer.value !in old(pending)
      ensures nextHandle == old(nextHandle) + 1
      ensures pending == map[timer.value := intervalMinutes * MILLIS_PER_MINUTE]
    {
      if timer.Some? {
        AfterCancel(timer.value);
      }
      var intervalMs := intervalMinutes * 60 * 1000;
      var h := After(intervalMs);
      timer := Some(h);
    }

    /**
     * `show_notification`: show the toast, then re-arm. When showing the
     * toast raises (`toastFails`), the re-arm is never reached and the
     * timer state stays as it was.
     */
    method ShowNotification(toastFails: bool)
      requires Valid()
      modifies this`toasts, this`timer, this`pending, this`nextHandle
      ensures Valid()
      ensures toastFails ==> toasts == old(toasts) && timer == old(timer) && pending == old(pending)
      ensures toastFails ==> nextHandle == old(nextHandle)
      ensures !toastFails ==> toasts == old(toasts) + [ReminderMessage(cupName)]
      ensures !toastFails ==> timer == Some(old(nextHandle)) && nextHandle == old(nextHandle) + 1
      ensures !toastFails ==> pending == map[timer.value := intervalMinutes * MILLIS_PER_MINUTE]
    {
      if toastFails {
        return;
      }
      toasts := toasts + [ReminderMessage(cupName)];
      StartReminderTimer();
    }

    /**
     * The host's event loop firing the pending timer `h`: the timer leaves the
     * queue and its callback `show_notification` runs. The next reminder is
     * armed with the interval in force now, not the one the fired timer had.
     */
    method TimerFires(h: Handle, toastFails: bool)
      requires Valid() && h in pending
      modifies this`toasts, this`timer, this`pending, this`nextHandle
      ensures Valid()
      ensures toastFails ==> pending == map[] && toasts == old(toasts)
      ensures toastFails ==> timer == old(timer) && nextHandle == old(nextHandle)
      ensures !toastFails ==> toasts == old(toasts) + [ReminderMessage(cupName)]
      ensures !toastFails ==> timer == Some(old(nextHandle)) && nextHandle == old(nextHandle) + 1
      ensures !toastFails ==> timer.value != h
      ensures !toastFails ==> pending == map[timer.value := intervalMinutes * MILLIS_PER_MINUTE]
    {
      pending := pending - {h};
      ShowNotification(toastFails);
    }

    /**
     * `update_interval_label`: take the slider's new interval and save it.
     * The pending timer is neither cancelled nor re-armed: its id and delay
     * stay as they were, and the new interval applies at the next arm.
     */
    method UpdateIntervalLabel(value: int) returns (saved: bool)
      requires 1 <= value <= 120
      modifies this`intervalMinutes, this`settingsFile
      ensures intervalMinutes == value
      ensures saved == SettingsStore.SaveInterval(old(settingsFile), value).Some?
      ensures settingsFile == SettingsStore.SaveInterval(old(settingsFile), value).GetOr(old(settingsFile))
      ensures timer == old(timer) && pending == old(pending)
    {
      intervalMinutes := value;
      saved := SaveSettings();
    }

    // ---------------------------------------------------------------------
    // Window and tray

    /** The tray icon starts running (its own thread and menu are not modelled). */
    method CreateTrayIcon()
      modifies this`trayRunning
      ensures trayRunning
    {
      trayRunning := true;
    }

    /** The window manager minimising the window at the user's request. */
    method UserMinimizes()
      modifies this`window
      ensures window == Iconic
    {
      window := Iconic;
    }

    /** `hide_to_tray`: withdraw the window; the state behind it is kept. */
    method HideToTray()
      modifies this`window
      ensures window == Withdrawn
    {
      window := Withdrawn;
    }

    /** `show_from_tray`: de-iconify the window (and raise and focus it). */
    method ShowFromTray()
      modifies this`window
      ensures window == Normal
    {
      window := Normal;
    }

    /**
     * `on_minimize`, bound to the window's unmap event: a minimised window
     * is withdrawn to the tray; in any other state nothing changes.
     */
    method OnMinimize()
      modifies this`window
      ensures old(window) == Iconic ==> window == Withdrawn
      ensures old(window) != Iconic ==> window == old(window)
    {
      if window == Iconic {
        HideToTray();
      }
    }

    /**
     * `exit_app`: cancel the timer if one is set, stop the tray icon if it
     * runs, and destroy the window. No timer is pending afterwards.
     */
    method ExitApp()
      requires Valid()
      modifies this`pending, this`trayRunning, this`destroyed
      ensures Valid()
      ensures pending == map[] && !trayRunning && destroyed
      ensures timer.None? ==> pending == old(pending)
    {
      if timer.Some? {
        AfterCancel(timer.value);
      }
      if trayRunning {
        trayRunning := false;
      }
      destroyed := true;
    }
  }

  /**
   * `__init__`: initial state, settings, today's total, tray icon and the
   * first reminder. A stored interval that `int()` rejects makes startup
   * raise, and no app comes up (None).
   */
  method Launch(settingsFile: SettingsStore.IniFile, logFile: DailyLog.LogFile, today: string)
    returns (app: Option<WaterReminderApp>)
    ensures app.None? <==>
      SettingsStore.IntervalSetting(SettingsStore.Sections(SettingsStore.CreateIfAbsent(settingsFile))).None?
    ensures app.Some? ==>
      var a := app.value;
      var sections := SettingsStore.Sections(SettingsStore.CreateIfAbsent(settingsFile));
      && fresh(a) && a.Valid()
      && a.settingsFile == SettingsStore.CreateIfAbsent(settingsFile)
      && a.intervalMinutes == SettingsStore.IntervalSetting(sections).value
      && a.cupName == SettingsStore.CupNameSetting(sections)
      && a.logFile == logFile
      && a.dailyTotal == DailyLog.LoadTotal(logFile, today)
      && a.timer.Some? && a.pending == map[a.timer.value := a.intervalMinutes * MILLIS_PER_MINUTE]
      && a.trayRunning && a.window == Normal && !a.destroyed && a.toasts == []
  {
    var w := new WaterReminderApp(settingsFile, logFile);
    var ok := w.LoadSettings();
    if !ok {
      return None;
    }
    w.LoadOrCreateLog(today);
    w.CreateTrayIcon();
    w.StartReminderTimer();
    app := Some(w);
  }
}

/**
 * Client methods of the engine, verified by Dafny: what a caller can conclude
 * from the contracts of `Launch` and the app's methods alone.
 */
module Scenarios {
  import opened Wrappers
  import DailyLog
  import SettingsStore
  import opened HydrationReminder

  const TODAY := "2026-10-14"
  const TOMORROW := "2026-10-15"

  /** First run: no settings file and no log; the defaults are written and the day starts at 0. */
  method FirstRun() {
    SettingsStore.DefaultsOnFirstRun();
    var started := Launch(SettingsStore.Absent, DailyLog.Missing, TODAY);
    var app := started.value;
    assert app.settingsFile == SettingsStore.Present(map[SettingsStore.SETTINGS_SECTION := SettingsStore.DefaultSection()]);
    assert app.intervalMinutes == 30 && app.cupName == "cup" && app.dailyTotal == 0;
    assert app.pending == map[app.timer.value := 30 * 60 * 1000];
  }

  /** Today's row holds 3; two drinks bring the counter and the saved row to 5. */
  method TwoDrinksFromThree() {
    SettingsStore.DefaultsOnFirstRun();
    var started := Launch(SettingsStore.Absent, DailyLog.Table([DailyLog.Row(TODAY, 3)]), TODAY);
    var app := started.value;
    var _ := app.DrankWater(TODAY, false);
    var _ := app.DrankWaterFromTray(TODAY);
    assert app.dailyTotal == 5;
    assert app.logFile == DailyLog.Table([DailyLog.Row(TODAY, 5)]);
  }

  /** At zero a void changes nothing and writes nothing. */
  method VoidAtFloor() {
    SettingsStore.DefaultsOnFirstRun();
    var started := Launch(SettingsStore.Absent, DailyLog.Missing, TODAY);
    var app := started.value;
    var saved := app.Peed(TODAY);
    assert app.dailyTotal == 0 && !saved && app.logFile == DailyLog.Missing;
  }

  /**
   * Moving the slider while a reminder is pending keeps that reminder's
   * delay; the reminder armed when it fires uses the new interval.
   */
  method IntervalChangeWaitsForNextArm() {
    SettingsStore.DefaultsOnFirstRun();
    var started := Launch(SettingsStore.Absent, DailyLog.Missing, TODAY);
    var app := started.value;
    var first := app.timer.value;
    var _ := app.UpdateIntervalLabel(45);
    assert app.pending == map[first := 30 * 60 * 1000];
    app.TimerFires(first, false);
    assert app.pending == map[app.timer.value := 45 * 60 * 1000];
    AtMostOnePending(app.pending, app.timer);
  }

  /** The window hidden to the tray and opened again ends up shown. */
  method HideThenShow() {
    SettingsStore.DefaultsOnFirstRun();
    var started := Launch(SettingsStore.Absent, DailyLog.Missing, TODAY);
    var app := started.value;
    app.UserMinimizes();
    app.OnMinimize();
    assert app.window == Withdrawn;
    app.ShowFromTray();
    assert app.window == Normal;
  }

  /**
   * The counter is loaded once, at startup: a run that goes on past
   * midnight carries yesterday's total into the new day's row.
   */
  method RunPastMidnight() {
    SettingsStore.DefaultsOnFirstRun();
    var started := Launch(SettingsStore.Absent, DailyLog.Table([DailyLog.Row(TODAY, 4)]), TODAY);
    var app := started.value;
    var _ := app.DrankWater(TOMORROW, false);
    assert app.logFile == DailyLog.Table([DailyLog.Row(TODAY, 4), DailyLog.Row(TOMORROW, 5)]);
  }

  /**
   * After midnight a void above zero writes the carried-over total minus one
   * as the new day's row; yesterday's row is kept.
   */
  method VoidPastMidnight() {
    SettingsStore.DefaultsOnFirstRun();
    var started := Launch(SettingsStore.Absent, DailyLog.Table([DailyLog.Row(TODAY, 4)]), TODAY);
    var app := started.value;
    var saved := app.PeedFromTray(TOMORROW);
    assert saved && app.dailyTotal == 3;
    assert app.logFile == DailyLog.Table([DailyLog.Row(TODAY, 4), DailyLog.Row(TOMORROW, 3)]);
  }

  /** Exit leaves no reminder pending and the tray stopped. */
  method ExitCancelsReminder() {
    SettingsStore.DefaultsOnFirstRun();
    var started := Launch(SettingsStore.Absent, DailyLog.Missing, TODAY);
    var app := started.value;
    app.ExitApp();
    assert app.pending == map[] && !app.trayRunning && app.destroyed;
  }

  /**
   * A toast that raises stops the reminders: nothing is pending afterwards,
   * while `timer` still names the timer that fired.
   */
  method FailedToastStopsReminders() {
    SettingsStore.DefaultsOnFirstRun();
    var started := Launch(SettingsStore.Absent, DailyLog.Missing, TODAY);
    var app := started.value;
    var first := app.timer.value;
    app.TimerFires(first, true);
    assert app.pending == map[] && app.timer == Some(first);
  }
}

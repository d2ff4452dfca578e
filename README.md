# Hydration Reminder: the state-and-scheduling engine

A model, in Dafny, of the engine inside the Hydration Reminder desktop app (`WaterReminderApp` in
`app.py`). The engine has four parts:

- **The intake counter.** `drank_water` adds one cup. `peed` removes one cup, but never below zero.
  Every change is saved straight away.
- **The daily log.** This is a workbook of `(Date, Total Cups)` rows. `save_log` patches today's row,
  or appends one if today has no row. `load_or_create_log` reads today's total, which is 0 when there
  is no row for today or no usable file.
- **The reminder scheduler.** It uses a one-shot Tk timer that re-arms itself after each notification.
  Any pending timer is cancelled before a new one is armed. Moving the interval slider saves the new
  interval but does not re-arm the timer.
- **The settings store.** This is the `[Settings]` section of an ini file. When the file is missing it
  is created with defaults. Missing keys read as defaults. A save changes only `interval_minutes`.

The window's shown/hidden state, and the tray's "Drank"/"Peed"/"Exit" entries, are modelled as well.
The tray entries call the same operations as the window.

Files:

- `wrappers.dfy`: `Option`.
- `decimal.dfy`: Python's `str(n)` and `int(s)` on integers, with the round trip.
- `daily_log.dfy`: the log table as a sequence of rows, the upsert and the lookup, and their lemmas.
- `settings_store.dfy`: the ini file as a map from section names to key/value maps, the load and merge
  rules, and their lemmas.
- `intake_counter.dfy`: the counter's two transitions as a function, and lemmas over any sequence of
  actions.
- `app.dfy`: the class `WaterReminderApp`.
  - Its fields are the app's state (`dailyTotal`, `intervalMinutes`, `cupName`, `timer`,
    `trayRunning`), the two files, and the host's state.
  - The host's state is Tk's queue of pending timers (`pending`, handle to delay in ms), the id
    allocator of `after`, the window state, `destroyed`, and the toasts shown.
  - `Valid()` is the scheduler's invariant: every pending timer is the one `timer` names.
  - `Launch` is `__init__`.
- `scenarios.dfy`: client methods that Dafny verifies. They follow the app through startup, drinks,
  voids, an interval change, hide/show, exit and a day change, asserting what the contracts guarantee.

The calendar date (`date.today()`) is a `today` parameter of each operation that reads it. A file
read that raises is modelled by the file's state: a log that is `Missing` or `Unreadable`, or a
settings file with no `[Settings]` section. A settings file that is `Absent` does not raise on
reading, since `config.read` skips it (app.py:78, app.py:88). What raises is the later assignment into
the missing section (app.py:89). An exception that escapes a method is modelled by a `false` result (`ok`/`saved`),
with the state left exactly as the source leaves it at the point of the raise.

Error paths and edge cases of the program, as the model states them:

- A stored `interval_minutes` that `int()` rejects makes `load_settings` raise (app.py:79-81). So
  startup fails and `Launch` returns `None`; only a missing key falls back to 30.
- If showing the toast raises (app.py:256), then `start_reminder_timer` is never reached and no
  further reminder is armed (`ShowNotification`, `TimerFires` with `toastFails`). A failed toast
  stops all later reminders (app.py:256-259).
- `save_log` catches only `FileNotFoundError` (app.py:128). With any other read error the exception
  escapes and nothing is written, while the counter has already changed (`DrankWater`, `Peed`).
- `save_settings` raises `KeyError` when the file has no `[Settings]` section (app.py:89).
  `SaveInterval` is `None` then, and nothing is written.
- `df.loc[...] = total` sets every row dated today, not only one (app.py:124), while the lookup reads
  the first match (app.py:103). So the load-after-save round trip holds even without unique dates
  (`DailyLog.LoadAfterUpsert`).
- `dailyTotal` is not forced to be non-negative: a negative total stored in the file is loaded as it
  is. The floor holds from any non-negative start (`Peed`, `IntakeCounter.ReplayNeverNegative`).
- The counter is read once, at startup (app.py:39), and never re-derived when the date changes.
  The next change after midnight writes the carried-over total, plus or minus one, as the new day's
  row. A void at zero writes nothing. The previous day's row keeps its last value
  (`Scenarios.RunPastMidnight`, `Scenarios.VoidPastMidnight`).

## Model

| member | source | states |
|---|---|---|
| DailyLog.FirstIndex | app.py:101-103 | the row `today_entry.iloc[0]` picks: the first row dated `d` (every earlier row has another date); None exactly when no row has that date |
| DailyLog.SetTotal | app.py:123-124 | the in-place column assignment: same length, same dates, every row dated today gets the new total, every other row is untouched |
| DailyLog.UpsertExisting | app.py:122-124 | today has a row and dates are unique: the new table is the old one with just that row set to `(today, total)`; row count and all other rows unchanged |
| DailyLog.UpsertNew | app.py:125-127 | today has no row: exactly one row `(today, total)` is appended after the unchanged earlier rows |
| DailyLog.UpsertIdempotent | app.py:113-133 | saving the same total for the same day twice gives the same table as saving it once |
| DailyLog.LoadAfterUpsert | app.py:101-103 | reading today's total right after an upsert gives the saved total, whether or not dates are unique |
| DailyLog.LoadAfterSave | app.py:113-133 | the save writes exactly when the read does not raise something other than FileNotFoundError; a missing file becomes the one-row log `[(today, total)]`; after any write, loading today gives the saved total |
| DailyLog.UpsertOtherDays | app.py:122-127 | saving today's total changes nothing that any other day reads |
| DailyLog.UpsertKeepsDatesUnique | app.py:122-127 | a log with one row per date keeps one row per date after a save |
| Decimal.ParseIntToString | app.py:79-89 | in the model, reading back the text written for any integer gives that integer, so the interval written by `save_settings` reads back unchanged |
| Decimal.ParseIntRejectsNoDigits | app.py:79-81 | text without any digit (empty, a word) is rejected by `int()`, the ValueError path |
| SettingsStore.DefaultsOnFirstRun | app.py:68-82 | with no settings file, the file written holds `interval_minutes=30`, `cup_name=cup`, `cup_amount_ml=250`, and the load reads 30 and "cup" |
| SettingsStore.ExistingFileKept | app.py:68-78 | an existing settings file is read as it is, never overwritten with the defaults |
| SettingsStore.MissingKeysFallBack | app.py:79-82 | each key falls back on its own: a missing `interval_minutes` reads as 30 and a missing `cup_name` as "cup", whatever else the section holds; both do when the section is missing |
| SettingsStore.SaveIntervalMerges | app.py:85-91 | the save succeeds exactly when `[Settings]` exists; it then changes only `interval_minutes` (to `str(minutes)`) and keeps every other key, including `cup_amount_ml`, and every other section |
| SettingsStore.SaveThenLoad | app.py:79-91 | round trip: after a save, the load reads back the saved interval, and the unit label and `cup_amount_ml` are unchanged |
| SettingsStore.SaveIntervalIdempotent | app.py:85-91 | saving the same interval twice writes the same file as saving it once |
| IntakeCounter.ReplayNeverNegative | app.py:210-225 | from a non-negative total, no sequence of drinks and voids makes the counter negative |
| IntakeCounter.ReplayBounds | app.py:210-225 | after any actions, the total lies between the start minus the voids and the start plus the drinks |
| IntakeCounter.ReplayDrinks | app.py:210-215 | drinks only, from window or tray alike, applied one at a time: the total grows by exactly their number |
| IntakeCounter.ReplayVoidsAtFloor | app.py:217-225 | at zero, any number of voids leaves the counter at zero |
| HydrationReminder.AtMostOnePending | app.py:237-243 | when every pending timer is the one `timer_id` names, at most one timer is pending |
| HydrationReminder.WaterReminderApp.constructor | app.py:30-35 | the initial state: total 0, interval 30, label "cup", no timer, no tray, nothing pending |
| HydrationReminder.WaterReminderApp.LoadSettings | app.py:65-82 | the file afterwards is the old one, or the defaults if it was absent; interval and label are read with fallbacks; a rejected interval raises before either field changes |
| HydrationReminder.WaterReminderApp.SaveSettings | app.py:85-91 | the file becomes the merged file, or stays as it was when `[Settings]` is missing; after success the load reads the current interval and the same label |
| HydrationReminder.WaterReminderApp.LoadOrCreateLog | app.py:93-111 | `dailyTotal` is the first row dated today, or 0 with no such row, no file, or an unreadable file |
| HydrationReminder.WaterReminderApp.SaveLog | app.py:113-133 | the file becomes the upserted table, or the one-row table for a missing file, or stays as it was when the read raises; after a write, today's persisted total equals `dailyTotal` |
| HydrationReminder.WaterReminderApp.DrankWater | app.py:210-215 | the counter goes up by exactly one and is saved; after a write, the row for today equals the new total |
| HydrationReminder.WaterReminderApp.Peed | app.py:217-225 | above zero: one fewer, then saved; at or below zero: counter and file unchanged and no save; a non-negative counter stays non-negative |
| HydrationReminder.WaterReminderApp.DrankWaterFromTray | app.py:276-278 | the tray's drink has the window's effect on counter and file: one cup more, written unless the read raises, and today's total reads back after a write |
| HydrationReminder.WaterReminderApp.PeedFromTray | app.py:280-282 | the tray's void has the window's effect: at or below zero nothing changes and nothing is written; above zero one cup fewer, written unless the read raises, and today's total reads back after a write |
| HydrationReminder.WaterReminderApp.StartReminderTimer | app.py:237-244 | any pending timer is cancelled; afterwards exactly one timer is pending, under a fresh id, with delay `interval_minutes * 60 * 1000` ms; the invariant is kept |
| HydrationReminder.WaterReminderApp.ShowNotification | app.py:246-259 | the toast naming the unit label is shown, then the timer is re-armed for the current interval; a toast that raises leaves the timer state as it was |
| HydrationReminder.WaterReminderApp.TimerFires | app.py:243 | when the pending timer fires, the next one is armed under the next fresh id, with the interval in force at that moment; if the toast raises, nothing stays pending, the stale `timer_id` is kept and no id is handed out |
| HydrationReminder.WaterReminderApp.UpdateIntervalLabel | app.py:227-235 | the interval becomes the slider value and is saved; `timer_id` and the pending timer's delay are unchanged |
| HydrationReminder.WaterReminderApp.CreateTrayIcon | app.py:261-274 | the tray icon is running, so a later exit stops it |
| HydrationReminder.WaterReminderApp.HideToTray | app.py:289-291 | the window is withdrawn; nothing else changes |
| HydrationReminder.WaterReminderApp.ShowFromTray | app.py:293-297 | the window is shown again (de-iconified); nothing else changes |
| HydrationReminder.WaterReminderApp.OnMinimize | app.py:284-287 | a minimised window is withdrawn; in any other state nothing changes |
| HydrationReminder.WaterReminderApp.ExitApp | app.py:299-305 | the timer is cancelled if one is set, the tray is stopped, and the window is destroyed; nothing is pending afterwards |
| HydrationReminder.Launch | app.py:27-63 | in the raw-string settings model, startup fails exactly when the stored interval is rejected by `int()`; otherwise settings, today's total, tray and one pending reminder are set up as the parts above prescribe |

## Left out

- GUI construction, styling, the icon and geometry (`create_widgets`, `update_display`,
  app.py:135-208). These are presentation. One consequence: the interval label's text is not modelled.
- The pystray tray icon and its daemon thread (app.py:261-282). Only a running flag remains. Tray
  actions are the same method calls as the window's, applied one at a time. The concurrency between
  the tray thread and the Tk main loop is not modelled.
- The winotify toast rendering (app.py:248-256). It is one opaque step that either shows the message
  (recorded in `toasts`) or raises (`toastFails`). The title, icon and audio are not modelled.
- The pandas/Excel I/O and the `pd.to_datetime` date normalisation (app.py:97-99, 119-120, 133). The
  log is a sequence of rows whose dates are already normalised. Read failures are `Missing` or
  `Unreadable`. Failures while writing (disk full, permissions) are not modelled.
- A non-integer or empty `Total Cups` cell cannot be represented: `Row.totalCups` is an int. The
  source handles such cells differently on its two paths. In `save_log` they do not make the read
  raise, so the table is still patched or appended to and written (app.py:118-133). In
  `load_or_create_log` only today's first matching row matters, through `int()` (app.py:103). A
  text or empty (NaN) cell there makes `int()` raise, and the total becomes 0. A fractional number
  such as 3.5 is read by pandas as a float, and `int()` truncates it to 3 without raising. Cells in
  other rows are ignored.
- configparser parsing and writing. The file is `Absent` or a map of sections. Also not modelled:
  the `DEFAULT` section, lower-casing of option names, and a file configparser cannot parse.
- configparser's value interpolation. `config.get` applies it (app.py:79-82), and the model reads raw
  strings. A stray `%` in `interval_minutes` or `cup_name` (say `cup_name = 100%`) makes the read
  raise, so startup fails, and `%(key)s` in a value is substituted. `Launch` and `LoadSettings` do not
  capture either.
- A failed write of the default settings file (app.py:75-76) is not modelled: `CreateIfAbsent` always
  succeeds.
- `Decimal.ParseInt`: accepts an optional sign and ASCII digits only. Python's `int()` also accepts
  surrounding whitespace (configparser strips it anyway), underscores between digits, and non-ASCII
  digits; those forms are not modelled. Nor is CPython's limit of 4300 digits on `str()` and `int()`
  (3.11 and later), so `Decimal.ParseIntToString` is a statement about the model's integers; it
  covers every interval the slider can set.
- `resource_path` and the `os.path` handling (app.py:14-17).
- The slider's float-to-int conversion (app.py:187-193, 229). `UpdateIntervalLabel` takes an integer
  in [1,120], the slider's range.
- The `print` diagnostics, and `lift`/`focus_force` in `show_from_tray` (app.py:296-297). These
  change no state the engine reads.
- What Tk does after `destroy` is not modelled. The model marks the app `destroyed` and stops there.

# StreakVoyage progress engine and workout session, in Dafny

This project models the logic core of StreakVoyage, a fitness app that
turns finished workouts into XP, levels and a daily streak:

- **Dashboard progress engine** (`HomeDashboardViewModel`): normalises the
  persisted progress snapshot when the calendar day changes (clears the
  daily completion list, breaks a streak after a gap of two or more days),
  records workout completions at most once per workout per day, applies the
  streak rules, keeps the longest streak, and derives level, XP inside the
  level and today's count. It saves the snapshot only when it changes.
- **Workout session state machine** (`WorkoutSessionViewModel`): form tip,
  active set, rest and completed; rep counting, set advance, a rest
  countdown driven by explicit ticks with a duration clamped to at least one
  second, and the completion event.
- **Stores and reminders**: the progress snapshot and reminder settings
  stores (load is absent when empty or unreadable, save overwrites the one
  key), the reminder defaults (off, 20:00), the permission status and the
  mapping from the system's authorization status, and the scheduler's
  remove-then-add replacement of the one pending daily reminder.

`HomeProgressStore`, `HomeDashboard`, `WorkoutSession` and
`HomeReminderNotifications` follow the four source files; `Storage` (the
key-value slot both stores use), `Calendar` (UTC days), `WorkoutModels`
(plan and completion event) and `Numeric` (`max` and `min`) hold what they
share. `Scenarios` replays the repository's unit tests, and the app's
default session setup, against the contracts.

Modelling choices:

- An instant is a whole number of seconds since 1970-01-01T00:00:00Z and the
  calendar is UTC Gregorian (as in the tests), so a calendar day is
  `t / 86400`. `isYesterday` is modelled as the source computes it (start
  of the reference day, minus one day, same day) and proved to mean
  "previous day index".
- The clock (`nowProvider`, and `Date()` when a workout finishes) is a `now`
  parameter: of the dashboard constructor and `RefreshForCurrentDate`, and of
  `CountRep`, the only session call that can finish a workout.
- Snapshot counters are Swift `Int`s read back from storage, so they are
  `int`; the level uses Swift's truncating `/` and `%`.
- A store is one slot holding nothing, decodable data or undecodable data,
  plus a save counter like the in-memory store of the tests.
- The repeating rest timer is a flag (`restTimerRunning`); the countdown
  moves only when `TickRestCountdown` is called.
- Pending notification requests are a map from identifier to trigger.

Behaviour worth noting:

- On a new day, `normalize` sets `dailyCompletedDate` to the reference time
  (it does not clear it) and empties the list.
- The reminder settings store's `load` returns whatever decodes and does
  not correct out-of-range hours or minutes
  (HomeReminderNotifications.swift:33-36).
- Nothing checks `longestStreak >= currentStreak` when a snapshot is
  loaded, but every snapshot the engine builds from a coherent one keeps it
  (`HomeProgressStore.Coherent`, `HomeDashboard.ReplayKeepsProgress`).
- The guard in `tickRestCountdown` for a clock already at zero cannot fire
  during a rest: every entry to rest sets the full duration (at least one
  second), and the tick that reaches zero leaves the rest. The model proves
  the branch dead.

## Model

| member | source | states |
|---|---|---|
| `Storage.SnapshotStore.Load` | StreakVoyage/Features/Home/HomeProgressStore.swift:31-34 | absent when nothing is stored and when the stored data does not decode (never an error); the stored snapshot otherwise |
| `Storage.SnapshotStore.constructor` | StreakVoyage/Features/Home/HomeProgressStore.swift:27-29 | a store over a given slot (empty, decodable or undecodable data) with no saves yet |
| `Storage.SnapshotStore.Save` | StreakVoyage/Features/Home/HomeProgressStore.swift:36-39 | the single key now holds exactly the saved snapshot; one more save is counted |
| `Storage.SaveThenLoad` | StreakVoyage/Features/Home/HomeProgressStore.swift:31-39 | loading after a save returns the saved value, all fields (optional dates, ordered IDs) included |
| `Storage.Decode` | StreakVoyage/Features/Home/HomeReminderNotifications.swift:33-36 | the settings store's load: present exactly when the slot holds decodable data, and then that value |
| `HomeProgressStore.DefaultSnapshotIsEmpty` | StreakVoyage/Features/Home/HomeProgressStore.swift:3-11 | the default snapshot has zero counters, no dates and no IDs, and is coherent |
| `HomeProgressStore.DistinctCount` | StreakVoyage/Features/Home/HomeDashboardViewModel.swift:36-38 | a duplicate-free ID list has as many distinct IDs as entries |
| `Calendar.StartOfDay` | StreakVoyage/Features/Home/HomeDashboardViewModel.swift:130 | the start of the day lies on the same day and at most a day before the instant |
| `Calendar.AddDays` | StreakVoyage/Features/Home/HomeDashboardViewModel.swift:131 | adding n days moves the day index by n and keeps the time of day |
| `Calendar.IsSameDay` | StreakVoyage/Features/Home/HomeDashboardViewModel.swift:117 | two instants are on the same day exactly when they share one start of day |
| `Calendar.IsYesterday` | StreakVoyage/Features/Home/HomeDashboardViewModel.swift:129-136 | the source's start-of-day-minus-one-day test holds exactly when the date is on the same day as the instant 24 hours before the reference |
| `Calendar.IsYesterdayIsPreviousDay` | StreakVoyage/Features/Home/HomeDashboardViewModel.swift:129-136 | "yesterday" holds exactly when the date's day index is one less than the reference's, and never for the same day |
| `HomeDashboard.TruncatingDiv` | StreakVoyage/Features/Home/HomeDashboardViewModel.swift:29 | Swift's `/`: the quotient has the dividend's sign and its magnitude times the divisor lies within one divisor below the dividend's magnitude |
| `HomeDashboard.TruncatingRem` | StreakVoyage/Features/Home/HomeDashboardViewModel.swift:32-34 | Swift's remainder: dividend = divisor * quotient + remainder, the remainder carrying the dividend's sign |
| `HomeDashboard.Normalize` | StreakVoyage/Features/Home/HomeDashboardViewModel.swift:93-109 | the result is up to date with `now`, an up-to-date snapshot is returned unchanged, the lifetime counters, longest streak and last workout are untouched, coherence is kept |
| `HomeDashboard.NormalizeRollsOverDay` | StreakVoyage/Features/Home/HomeDashboardViewModel.swift:96-100 | on a new calendar day the daily date becomes `now` and the list empties; otherwise both are unchanged |
| `HomeDashboard.NormalizeBreaksStreak` | StreakVoyage/Features/Home/HomeDashboardViewModel.swift:102-106 | the streak is zeroed exactly when a last workout exists that is neither today nor yesterday, else kept |
| `HomeDashboard.NormalizeIdempotent` | StreakVoyage/Features/Home/HomeDashboardViewModel.swift:93-109 | normalising twice at one time equals normalising once |
| `HomeDashboard.StreakAfterCompletion` | StreakVoyage/Features/Home/HomeDashboardViewModel.swift:111-127 | the streak value the four rules give, on day indices: no previous workout gives 1, the same day keeps it, the previous day gives max(1, streak+1), any other day gives 1 |
| `HomeDashboard.UpdateStreak` | StreakVoyage/Features/Home/HomeDashboardViewModel.swift:111-127 | only the streak changes: no previous workout gives 1, the same day keeps it, the previous day gives max(1, streak+1), any other day gives 1 |
| `HomeDashboard.OpenDay` | StreakVoyage/Features/Home/HomeDashboardViewModel.swift:50-60 | the daily list is then open for the completion's day: kept when the snapshot's daily date is that day, otherwise emptied with the date set to the completion time; the counters, longest streak and last workout are kept and the streak is the normalised one |
| `HomeDashboard.RecordCompletion` | StreakVoyage/Features/Home/HomeDashboardViewModel.swift:49-72 | ignored exactly when the workout is already recorded for that day; otherwise the ID is appended to that day's list, workouts +1, XP + award, last workout = completion time, the streak rule applied, longest = max(longest, streak), and coherence kept |
| `HomeDashboard.RecordCompletionIdempotent` | StreakVoyage/Features/Home/HomeDashboardViewModel.swift:62 | recording the same completion a second time is ignored |
| `HomeDashboard.LongestStreakNeverDecreases` | StreakVoyage/Features/Home/HomeDashboardViewModel.swift:69 | no refresh or completion lowers the longest streak; after an accepted completion it is at least the current streak |
| `HomeDashboard.ReplayKeepsProgress` | StreakVoyage/Features/Home/HomeDashboardViewModel.swift:44-72 | over any sequence of refreshes and completions the longest streak never decreases, the workout total grows by exactly the accepted completions, and the daily list stays duplicate-free |
| `HomeDashboard.HomeDashboardViewModel.constructor` | StreakVoyage/Features/Home/HomeDashboardViewModel.swift:17-26 | the model starts from the stored snapshot (or the default) normalised to `now`, saved only if normalising changed it |
| `HomeDashboard.HomeDashboardViewModel.CurrentLevel` | StreakVoyage/Features/Home/HomeDashboardViewModel.swift:28-30 | (level - 1) * 100 + XP inside the level = total XP; for non-negative XP the level is XP / 100 + 1 |
| `HomeDashboard.HomeDashboardViewModel.LevelXPProgress` | StreakVoyage/Features/Home/HomeDashboardViewModel.swift:32-34 | for non-negative XP, XP mod 100, in [0, 100) |
| `HomeDashboard.HomeDashboardViewModel.TodayCompletedCount` | StreakVoyage/Features/Home/HomeDashboardViewModel.swift:36-38 | the length of today's list whenever the list is duplicate-free |
| `HomeDashboard.HomeDashboardViewModel.IsWorkoutCompletedToday` | StreakVoyage/Features/Home/HomeDashboardViewModel.swift:40-42 | true exactly for IDs in today's list |
| `HomeDashboard.HomeDashboardViewModel.RefreshForCurrentDate` | StreakVoyage/Features/Home/HomeDashboardViewModel.swift:44-47 | the snapshot is normalised to `now` and saved only if that changed it |
| `HomeDashboard.HomeDashboardViewModel.HandleWorkoutCompletion` | StreakVoyage/Features/Home/HomeDashboardViewModel.swift:49-72 | an already-recorded workout changes nothing and saves nothing; otherwise the snapshot becomes `RecordCompletion`'s and is saved once |
| `HomeDashboard.HomeDashboardViewModel.Load` | StreakVoyage/Features/Home/HomeDashboardViewModel.swift:74-78 | stored snapshot or default, normalised, saved only when normalising changed it |
| `HomeDashboard.HomeDashboardViewModel.SetSnapshot` | StreakVoyage/Features/Home/HomeDashboardViewModel.swift:80-91 | the published counters and ID set show the new snapshot; it is saved exactly when asked |
| `WorkoutSession.WorkoutSessionViewModel.constructor` | StreakVoyage/Features/Workout/WorkoutSessionViewModel.swift:26-35 | form tip, rest duration max(requested, 1) with 30 seconds and the automatic timer by default, the clock at that duration, no event, no timer |
| `WorkoutSession.WorkoutSessionViewModel.TotalSets` | StreakVoyage/Features/Workout/WorkoutSessionViewModel.swift:37-39 | at least one set, and the current index is below the number of sets |
| `WorkoutSession.WorkoutSessionViewModel.CurrentSetTarget` | StreakVoyage/Features/Workout/WorkoutSessionViewModel.swift:41-44 | the current set's reps, 0 for an index out of range; positive in every reachable state |
| `WorkoutSession.WorkoutSessionViewModel.CurrentSetNumber` | StreakVoyage/Features/Workout/WorkoutSessionViewModel.swift:46-48 | index + 1, between 1 and the number of sets |
| `WorkoutSession.WorkoutSessionViewModel.CompletedSetsCount` | StreakVoyage/Features/Workout/WorkoutSessionViewModel.swift:50-61 | 0 / index / index + 1 / all sets by phase; equals the number of sets exactly when completed |
| `WorkoutSession.WorkoutSessionViewModel.CanCountRep` | StreakVoyage/Features/Workout/WorkoutSessionViewModel.swift:63-65 | true exactly in an active set, where a rep is always left to count |
| `WorkoutSession.WorkoutSessionViewModel.StartWorkout` | StreakVoyage/Features/Workout/WorkoutSessionViewModel.swift:67-70 | from any phase: active first set, zero reps, full rest clock, no event, timer stopped |
| `WorkoutSession.WorkoutSessionViewModel.CountRep` | StreakVoyage/Features/Workout/WorkoutSessionViewModel.swift:72-81 | outside an active set nothing changes; otherwise reps +1, never past the target; reaching it starts a full rest or, after the last set, completes with event {plan id, plan reward, now} |
| `WorkoutSession.WorkoutSessionViewModel.SkipRest` | StreakVoyage/Features/Workout/WorkoutSessionViewModel.swift:83-87 | outside a rest nothing changes; otherwise the next set starts with zero reps and the timer stopped |
| `WorkoutSession.WorkoutSessionViewModel.TickRestCountdown` | StreakVoyage/Features/Workout/WorkoutSessionViewModel.swift:89-101 | outside a rest nothing changes; otherwise one second less, and reaching zero starts the next set with zero reps |
| `WorkoutSession.WorkoutSessionViewModel.ResetForStart` | StreakVoyage/Features/Workout/WorkoutSessionViewModel.swift:103-109 | timer stopped, event cleared, index and reps 0, clock at the duration |
| `WorkoutSession.WorkoutSessionViewModel.CompleteCurrentSet` | StreakVoyage/Features/Workout/WorkoutSessionViewModel.swift:111-118 | a non-last set enters rest at the same index; the last set completes with the event |
| `WorkoutSession.WorkoutSessionViewModel.StartRest` | StreakVoyage/Features/Workout/WorkoutSessionViewModel.swift:120-126 | rest with the full duration; the timer runs only in automatic mode |
| `WorkoutSession.WorkoutSessionViewModel.MoveToNextSetAfterRest` | StreakVoyage/Features/Workout/WorkoutSessionViewModel.swift:128-133 | timer stopped, next index, zero reps, active set |
| `WorkoutSession.WorkoutSessionViewModel.FinishWorkout` | StreakVoyage/Features/Workout/WorkoutSessionViewModel.swift:135-143 | completed, timer stopped, event {plan id, plan reward, now} |
| `WorkoutSession.WorkoutSessionViewModel.StartRestTimer` | StreakVoyage/Features/Workout/WorkoutSessionViewModel.swift:145-154 | a timer is running (any previous one replaced) |
| `WorkoutSession.WorkoutSessionViewModel.StopRestTimer` | StreakVoyage/Features/Workout/WorkoutSessionViewModel.swift:156-159 | no timer is running |
| `HomeReminderNotifications.DefaultReminderIsOffAtEightPM` | StreakVoyage/Features/Home/HomeReminderNotifications.swift:4-11 | default settings: disabled, hour 20, minute 0 |
| `HomeReminderNotifications.AllowsSchedulingOnlyWhenAuthorized` | StreakVoyage/Features/Home/HomeReminderNotifications.swift:49-51 | scheduling is allowed exactly for `authorized` |
| `HomeReminderNotifications.ReminderPermissionStatus.AllowsScheduling` | StreakVoyage/Features/Home/HomeReminderNotifications.swift:49-51 | true only for `authorized`; its meaning is stated by `AllowsSchedulingOnlyWhenAuthorized` |
| `HomeReminderNotifications.PermissionStatusFor` | StreakVoyage/Features/Home/HomeReminderNotifications.swift:77-86 | authorized, provisional and ephemeral allow scheduling; only not-determined maps to not-determined; denied and unknown values map to denied |
| `HomeReminderNotifications.DailyReminderScheduler.constructor` | StreakVoyage/Features/Home/HomeReminderNotifications.swift:66-68 | the scheduler wraps the notification center's state: its authorization status and its pending requests, unchanged |
| `HomeReminderNotifications.DailyReminderScheduler.AuthorizationStatus` | StreakVoyage/Features/Home/HomeReminderNotifications.swift:70-87 | the system status, mapped; scheduling allowed exactly for the granting statuses |
| `HomeReminderNotifications.WithReminder` | StreakVoyage/Features/Home/HomeReminderNotifications.swift:97-125 | after scheduling, the identifier holds one repeating hour:minute trigger and every other request is untouched |
| `HomeReminderNotifications.WithoutReminder` | StreakVoyage/Features/Home/HomeReminderNotifications.swift:127-129 | after cancelling, the identifier is gone and every other request is untouched |
| `HomeReminderNotifications.RescheduleReplaces` | StreakVoyage/Features/Home/HomeReminderNotifications.swift:62 | scheduling twice leaves only the second reminder under the one identifier |
| `HomeReminderNotifications.CancelIdempotent` | StreakVoyage/Features/Home/HomeReminderNotifications.swift:127-129 | cancelling twice equals cancelling once; cancelling after scheduling equals cancelling alone |
| `HomeReminderNotifications.DailyReminderScheduler.ScheduleDailyReminder` | StreakVoyage/Features/Home/HomeReminderNotifications.swift:97-125 | the old reminder is removed first; if the add succeeds the new one is pending, if it fails none is and the call reports failure |
| `HomeReminderNotifications.DailyReminderScheduler.CancelDailyReminder` | StreakVoyage/Features/Home/HomeReminderNotifications.swift:127-129 | the reminder is removed; nothing changes when none is pending |

## Left out

- The reminder coordinator (enabling and disabling the reminder, changing its time, refreshing its status, correcting an invalid stored time): left out of this model: `HomeDashboardViewModel.init` takes no reminder collaborators, and the coordinator lives outside the four files modelled (HomeDashboardViewModel.swift, WorkoutSessionViewModel.swift, HomeProgressStore.swift, HomeReminderNotifications.swift).
- `requestAuthorization()`: whether permission is granted is decided by the user and the operating system, so the model has nothing to compute.
- `completeSet()` / `canCompleteSet`: the tests call them, but `WorkoutSessionViewModel` in WorkoutSessionViewModel.swift defines neither, so there is no behaviour to model.
- Store keys: `UserDefaultsDashboardProgressStore` has one fixed key (HomeProgressStore.swift:19-21) and the reminder settings store takes its key as an initialiser argument (HomeReminderNotifications.swift:28-31); each store is modelled as its one slot, so the key itself is not modelled.
- `WorkoutPlan`'s presentation fields, `totalReps` and `setsSummary`; the declarations of `WorkoutPlan` and `WorkoutCompletionEvent` are not part of this model, and their shape is taken from how the core uses them.
- WorkoutSession.WorkoutSessionViewModel.constructor: requires a plan with at least one set and positive targets, as every catalog entry has; a session over an empty plan is not modelled.
- SwiftUI views, colours and layout, including the view's once-only forwarding of the completion event, and the app's reset-for-testing wipe at launch.
- `Timer`, `Task`, `@MainActor` and Combine publishing: the timer is a flag and ticks are explicit calls.
- JSON encoding and `UserDefaults` internals: stored data is abstracted to decodable or not. Encoding these records cannot fail, so the save path that skips an unencodable snapshot is not modelled.
- Notification content (title, body, sound): only the trigger and identifier are kept.
- Calendars other than UTC Gregorian, time zones, daylight-saving transitions and sub-second precision of `Date`.
- 64-bit `Int` overflow, which traps in Swift: integers are unbounded.

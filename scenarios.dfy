/** The repository's unit tests, replayed against the model's contracts.
    Instants are seconds since 1970-01-01T00:00:00Z. */
module Scenarios {
  import opened Storage
  import opened Calendar
  import opened WorkoutModels
  import opened HomeProgressStore
  import opened HomeDashboard
  import opened WorkoutSession
  import opened HomeReminderNotifications

  const Feb19At10 := 1771495200   // 2026-02-19T10:00:00Z
  const Feb20At08 := 1771574400   // 2026-02-20T08:00:00Z
  const Feb20At09 := 1771578000   // 2026-02-20T09:00:00Z
  const Feb22At10 := 1771754400   // 2026-02-22T10:00:00Z

  method FirstWorkoutCompletionStartsStreak() {
    var store := new SnapshotStore<DashboardProgressSnapshot>(None);
    var model := new HomeDashboardViewModel(store, Feb19At10);
    model.HandleWorkoutCompletion(WorkoutCompletionEvent("squats", 50, Feb19At10));
    assert model.totalWorkouts == 1 && model.totalXP == 50 && model.currentStreak == 1;
    assert model.snapshot.dailyCompletedWorkoutIDs == ["squats"];
    assert model.TodayCompletedCount() == 1;
    assert model.IsWorkoutCompletedToday("squats");
    assert store.stored.value.value.currentStreak == 1;
  }

  method SecondWorkoutSameDayKeepsStreak() {
    var store := new SnapshotStore<DashboardProgressSnapshot>(None);
    var model := new HomeDashboardViewModel(store, Feb19At10);
    model.HandleWorkoutCompletion(WorkoutCompletionEvent("squats", 50, Feb19At10));
    model.HandleWorkoutCompletion(WorkoutCompletionEvent("pushups", 50, Feb19At10));
    assert model.totalWorkouts == 2 && model.totalXP == 100 && model.currentStreak == 1;
    assert model.snapshot.dailyCompletedWorkoutIDs == ["squats", "pushups"];
    assert model.TodayCompletedCount() == 2;
  }

  method SameWorkoutTwiceIsIgnored() {
    var store := new SnapshotStore<DashboardProgressSnapshot>(None);
    var model := new HomeDashboardViewModel(store, Feb19At10);
    model.HandleWorkoutCompletion(WorkoutCompletionEvent("squats", 50, Feb19At10));
    var saves := store.saveCount;
    model.HandleWorkoutCompletion(WorkoutCompletionEvent("squats", 50, Feb19At10));
    assert model.totalWorkouts == 1 && model.totalXP == 50;
    assert model.TodayCompletedCount() == 1;
    assert store.saveCount == saves;
  }

  method ConsecutiveDayExtendsStreak() {
    var seeded := DashboardProgressSnapshot(1, 50, 1, 1, Some(Feb19At10), Some(Feb19At10), ["squats"]);
    var store := new SnapshotStore<DashboardProgressSnapshot>(Some(Decodable(seeded)));
    var model := new HomeDashboardViewModel(store, Feb20At08);
    assert model.snapshot.dailyCompletedWorkoutIDs == [];
    assert model.TodayCompletedCount() == 0 && model.currentStreak == 1;
    model.HandleWorkoutCompletion(WorkoutCompletionEvent("pushups", 50, Feb20At08));
    assert model.totalWorkouts == 2 && model.totalXP == 100 && model.currentStreak == 2;
    assert model.snapshot.dailyCompletedWorkoutIDs == ["pushups"];
    assert model.TodayCompletedCount() == 1;
    assert model.IsWorkoutCompletedToday("pushups") && !model.IsWorkoutCompletedToday("squats");
  }

  method MissedDaysResetStreakOnLoad() {
    var seeded := DashboardProgressSnapshot(3, 150, 3, 3, Some(Feb19At10), Some(Feb19At10), ["squats", "pushups"]);
    var store := new SnapshotStore<DashboardProgressSnapshot>(Some(Decodable(seeded)));
    var model := new HomeDashboardViewModel(store, Feb22At10);
    assert model.currentStreak == 0 && model.longestStreak == 3;
    assert model.totalWorkouts == 3 && model.totalXP == 150;
    assert model.snapshot.dailyCompletedWorkoutIDs == [];
    assert model.TodayCompletedCount() == 0;
    assert store.saveCount > 0;
  }

  method RefreshOnNewDayResetsDailyList() {
    var seeded := DashboardProgressSnapshot(3, 150, 3, 3, Some(Feb19At10), Some(Feb19At10), ["squats", "pushups"]);
    var store := new SnapshotStore<DashboardProgressSnapshot>(Some(Decodable(seeded)));
    var model := new HomeDashboardViewModel(store, Feb19At10);
    assert model.snapshot == seeded && store.saveCount == 0;
    assert model.TodayCompletedCount() == 2;
    model.RefreshForCurrentDate(Feb20At09);
    assert model.TodayCompletedCount() == 0;
    assert store.stored.value.value.dailyCompletedWorkoutIDs == [];
    assert store.stored.value.value.dailyCompletedDate == Some(Feb20At09);
    assert store.saveCount == 1;
    // A second refresh at the same time finds nothing stale and saves nothing.
    model.RefreshForCurrentDate(Feb20At09);
    assert store.saveCount == 1;
  }

  /** Taps `countRep` as many times as the current set asks for. */
  method TapThroughSet(session: WorkoutSessionViewModel, now: Timestamp)
    requires session.Valid() && session.phase == ActiveSet && session.currentRepCount == 0
    modifies session
    ensures session.Valid() && session.currentSetIndex == old(session.currentSetIndex)
    ensures session.currentSetIndex < session.TotalSets() - 1 ==>
      session.phase == Rest && session.restSecondsRemaining == session.restDurationSeconds
    ensures session.currentSetIndex == session.TotalSets() - 1 ==>
      session.phase == Completed
      && session.completionEvent == Some(WorkoutCompletionEvent(session.plan.id, session.plan.xpReward, now))
  {
    var target := session.CurrentSetTarget();
    var taps := 0;
    while taps < target
      invariant session.Valid() && 0 <= taps <= target
      invariant session.currentSetIndex == old(session.currentSetIndex)
      invariant target == session.CurrentSetTarget()
      invariant taps < target ==> session.phase == ActiveSet && session.currentRepCount == taps
      invariant taps == target && session.currentSetIndex < session.TotalSets() - 1 ==>
        session.phase == Rest && session.restSecondsRemaining == session.restDurationSeconds
      invariant taps == target && session.currentSetIndex == session.TotalSets() - 1 ==>
        session.phase == Completed
        && session.completionEvent == Some(WorkoutCompletionEvent(session.plan.id, session.plan.xpReward, now))
    {
      session.CountRep(now);
      taps := taps + 1;
    }
  }

  /** The workout screen builds its session from the plan alone. */
  method AppSessionRestsThirtySecondsOnTheTimer() {
    var session := new WorkoutSessionViewModel(Squats);
    assert session.restDurationSeconds == 30 && session.usesAutomaticRestTimer;
    session.StartWorkout();
    TapThroughSet(session, Feb19At10);
    assert session.phase == Rest && session.restSecondsRemaining == 30 && session.restTimerRunning;
  }

  method SessionCompletesAfterAllSets() {
    var session := new WorkoutSessionViewModel(Squats, 5, false);
    session.StartWorkout();
    TapThroughSet(session, Feb19At10);
    assert session.phase == Rest;
    session.SkipRest();
    TapThroughSet(session, Feb19At10);
    assert session.phase == Rest;
    session.SkipRest();
    TapThroughSet(session, Feb19At10);
    assert session.phase == Completed;
    assert session.completionEvent.value.workoutID == "squats";
    assert session.completionEvent.value.xpAwarded == 50;
    assert session.CompletedSetsCount() == 3;
  }

  method RestCountdownMovesToNextSet() {
    var session := new WorkoutSessionViewModel(Pushups, 2, false);
    session.StartWorkout();
    TapThroughSet(session, Feb19At10);
    assert session.phase == Rest && session.currentSetIndex == 0 && session.restSecondsRemaining == 2;
    session.TickRestCountdown();
    assert session.phase == Rest && session.restSecondsRemaining == 1;
    session.TickRestCountdown();
    assert session.phase == ActiveSet && session.currentSetIndex == 1 && session.currentRepCount == 0;
  }

  method OutOfPhaseActionsAreIgnored() {
    var session := new WorkoutSessionViewModel(Squats, 2, false);
    session.CountRep(Feb19At10);
    session.SkipRest();
    session.TickRestCountdown();
    assert session.phase == FormTip && session.currentRepCount == 0 && session.currentSetIndex == 0;
    session.StartWorkout();
    session.SkipRest();
    session.TickRestCountdown();
    assert session.phase == ActiveSet && session.currentRepCount == 0 && session.currentSetIndex == 0;
  }

  method RestartClearsCompletion() {
    var session := new WorkoutSessionViewModel(Pushups, 1, false);
    session.StartWorkout();
    TapThroughSet(session, Feb19At10);
    session.SkipRest();
    TapThroughSet(session, Feb19At10);
    session.SkipRest();
    TapThroughSet(session, Feb19At10);
    assert session.phase == Completed && session.completionEvent.Some?;
    session.StartWorkout();
    assert session.phase == ActiveSet && session.currentSetIndex == 0 && session.currentRepCount == 0;
    assert session.restSecondsRemaining == 1 && session.completionEvent.None?;
  }

  method RestDurationIsClampedToOneSecond() {
    var session := new WorkoutSessionViewModel(Pushups, 0, false);
    assert session.restSecondsRemaining == 1;
    session.StartWorkout();
    TapThroughSet(session, Feb19At10);
    assert session.phase == Rest && session.restSecondsRemaining == 1;
  }

  method ProgressStoreRoundTrip() {
    var store := new SnapshotStore<DashboardProgressSnapshot>(None);
    var nothing := store.Load();
    assert nothing.None?;
    var snapshot := DashboardProgressSnapshot(4, 200, 2, 3, Some(Feb19At10), Some(Feb19At10), ["squats", "pushups"]);
    store.Save(snapshot);
    var loaded := store.Load();
    assert loaded == Some(snapshot);
  }

  method ReminderSettingsRoundTrip() {
    var store := new SnapshotStore<ReminderSettingsSnapshot>(Some(Undecodable));
    var unreadable := store.Load();
    assert unreadable.None?;
    var settings := ReminderSettingsSnapshot(true, 7, 45);
    store.Save(settings);
    var loaded := store.Load();
    assert loaded == Some(settings);
  }

  method SchedulingReplacesPendingReminder() {
    var scheduler := new DailyReminderScheduler(SystemProvisional, map[]);
    var status := scheduler.AuthorizationStatus();
    assert status.AllowsScheduling();
    var first := scheduler.ScheduleDailyReminder(20, 0, true);
    var second := scheduler.ScheduleDailyReminder(7, 45, true);
    assert scheduler.pending == map[RequestIdentifier := CalendarTrigger(7, 45, true)];
    scheduler.CancelDailyReminder();
    scheduler.CancelDailyReminder();
    assert scheduler.pending == map[];
  }
}

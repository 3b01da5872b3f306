/** The dashboard progress engine: day-rollover normalisation, the streak
    rules, idempotent recording of completions, and the values the
    dashboard derives from the snapshot. */
module HomeDashboard {
  import opened Storage
  import opened Calendar
  import opened HomeProgressStore
  import opened WorkoutModels
  import opened Numeric

  const XPPerLevel := 100

  /** Swift's `/` on `Int` truncates toward zero (Dafny's `/` is Euclidean). */
  function TruncatingDiv(a: int, b: int): (r: int)
    requires b > 0
    ensures a >= 0 ==> 0 <= r && r * b <= a < r * b + b
    ensures a < 0 ==> r <= 0 && -a - b < -r * b <= -a
  {
    if a >= 0 then DivBounds(a, b); a / b else DivBounds(-a, b); -((-a) / b)
  }

  lemma DivBounds(n: nat, b: int)
    requires b > 0
    ensures 0 <= n / b && (n / b) * b <= n < (n / b) * b + b
  {
  }

  /** Swift's `%` on `Int`: the remainder takes the sign of the dividend. */
  function TruncatingRem(a: int, b: int): (r: int)
    requires b > 0
    ensures a == b * TruncatingDiv(a, b) + r
    ensures a >= 0 ==> 0 <= r < b
    ensures a < 0 ==> -b < r <= 0
  {
    a - b * TruncatingDiv(a, b)
  }

  // ---------------------------------------------------------------------
  // Normalisation
  // ---------------------------------------------------------------------

  /** The daily list belongs to the reference day (or to no day at all). */
  predicate DailyListIsCurrent(s: DashboardProgressSnapshot, now: Timestamp) {
    s.dailyCompletedDate.None? || IsSameDay(s.dailyCompletedDate.value, now)
  }

  /** The last workout leaves a streak standing: there was none, or it was
      today or yesterday. */
  predicate StreakIsAlive(lastWorkoutAt: Option<Timestamp>, now: Timestamp) {
    lastWorkoutAt.None? || IsSameDay(lastWorkoutAt.value, now) || IsYesterday(lastWorkoutAt.value, now)
  }

  /** Nothing in the snapshot is stale relative to `now`. */
  predicate IsNormalized(s: DashboardProgressSnapshot, now: Timestamp) {
    DailyListIsCurrent(s, now) && (StreakIsAlive(s.lastWorkoutAt, now) || s.currentStreak == 0)
  }

  /** `normalize(_:relativeTo:)`: brings a snapshot up to date with `now`,
      touching only what is stale and never the lifetime counters. */
  function Normalize(s: DashboardProgressSnapshot, now: Timestamp): (r: DashboardProgressSnapshot)
    ensures IsNormalized(r, now)
    ensures IsNormalized(s, now) ==> r == s
    ensures r.totalWorkouts == s.totalWorkouts && r.totalXP == s.totalXP
    ensures r.longestStreak == s.longestStreak && r.lastWorkoutAt == s.lastWorkoutAt
    ensures Coherent(s) ==> Coherent(r)
  {
    var rolled :=
      if s.dailyCompletedDate.Some? && !IsSameDay(s.dailyCompletedDate.value, now)
      then s.(dailyCompletedDate := Some(now), dailyCompletedWorkoutIDs := [])
      else s;
    if rolled.lastWorkoutAt.Some? && !IsSameDay(rolled.lastWorkoutAt.value, now)
       && !IsYesterday(rolled.lastWorkoutAt.value, now)
    then rolled.(currentStreak := 0)
    else rolled
  }

  /** On a new day the daily list is reset to start at `now`; on the same
      day (or with no day recorded) it is left alone. */
  lemma NormalizeRollsOverDay(s: DashboardProgressSnapshot, now: Timestamp)
    ensures var r := Normalize(s, now);
      if s.dailyCompletedDate.Some? && Day(s.dailyCompletedDate.value) != Day(now)
      then r.dailyCompletedDate == Some(now) && r.dailyCompletedWorkoutIDs == []
      else r.dailyCompletedDate == s.dailyCompletedDate && r.dailyCompletedWorkoutIDs == s.dailyCompletedWorkoutIDs
  {
  }

  /** The streak is zeroed exactly when there is a last workout more than
      one calendar day before `now`; otherwise it is kept. */
  lemma NormalizeBreaksStreak(s: DashboardProgressSnapshot, now: Timestamp)
    ensures var r := Normalize(s, now);
      if s.lastWorkoutAt.Some? && Day(s.lastWorkoutAt.value) != Day(now)
         && Day(s.lastWorkoutAt.value) + 1 != Day(now)
      then r.currentStreak == 0
      else r.currentStreak == s.currentStreak
  {
    if s.lastWorkoutAt.Some? {
      IsYesterdayIsPreviousDay(s.lastWorkoutAt.value, now);
    }
  }

  /** Normalising twice at the same reference time is normalising once. */
  lemma NormalizeIdempotent(s: DashboardProgressSnapshot, now: Timestamp)
    ensures Normalize(Normalize(s, now), now) == Normalize(s, now)
  {
  }

  // ---------------------------------------------------------------------
  // Streak rules and recording a completion
  // ---------------------------------------------------------------------

  /** The streak after an accepted completion at `completionDate`. */
  function StreakAfterCompletion(lastWorkoutAt: Option<Timestamp>, streak: int, completionDate: Timestamp): (r: int)
    ensures lastWorkoutAt.None? ==> r == 1
    ensures lastWorkoutAt.Some? && Day(lastWorkoutAt.value) == Day(completionDate) ==> r == streak
    ensures lastWorkoutAt.Some? && Day(lastWorkoutAt.value) + 1 == Day(completionDate)
      ==> r == Max(1, streak + 1)
    ensures lastWorkoutAt.Some? && Day(lastWorkoutAt.value) != Day(completionDate)
      && Day(lastWorkoutAt.value) + 1 != Day(completionDate)
      ==> r == 1
  {
    match lastWorkoutAt
    case None => 1
    case Some(last) =>
      IsYesterdayIsPreviousDay(last, completionDate);
      if IsSameDay(last, completionDate) then streak
      else if IsYesterday(last, completionDate) then Max(1, streak + 1)
      else 1
  }

  /** `updateStreak(_:completionDate:)`: changes only the current streak,
      following the four rules below (stated on calendar-day indices). */
  method UpdateStreak(s: DashboardProgressSnapshot, completionDate: Timestamp) returns (r: DashboardProgressSnapshot)
    ensures r == s.(currentStreak := r.currentStreak)
    ensures s.lastWorkoutAt.None? ==> r.currentStreak == 1
    ensures s.lastWorkoutAt.Some? && Day(s.lastWorkoutAt.value) == Day(completionDate)
      ==> r.currentStreak == s.currentStreak
    ensures s.lastWorkoutAt.Some? && Day(s.lastWorkoutAt.value) + 1 == Day(completionDate)
      ==> r.currentStreak == Max(1, s.currentStreak + 1)
    ensures s.lastWorkoutAt.Some? && Day(s.lastWorkoutAt.value) != Day(completionDate)
      && Day(s.lastWorkoutAt.value) + 1 != Day(completionDate)
      ==> r.currentStreak == 1
    ensures r.currentStreak == StreakAfterCompletion(s.lastWorkoutAt, s.currentStreak, completionDate)
  {
    r := s;
    if r.lastWorkoutAt.None? {
      r := r.(currentStreak := 1);
      return;
    }
    var last := r.lastWorkoutAt.value;
    IsYesterdayIsPreviousDay(last, completionDate);
    if IsSameDay(last, completionDate) {
      return;
    }
    if IsYesterday(last, completionDate) {
      r := r.(currentStreak := Max(1, r.currentStreak + 1));
      return;
    }
    r := r.(currentStreak := 1);
  }

  /** The workout is already recorded for the calendar day of `at`. */
  predicate IsCompletedOn(s: DashboardProgressSnapshot, workoutID: string, at: Timestamp) {
    s.dailyCompletedDate.Some? && IsSameDay(s.dailyCompletedDate.value, at)
    && workoutID in s.dailyCompletedWorkoutIDs
  }

  /** The snapshot `handleWorkoutCompletion` works on once it has normalised
      relative to the completion and opened the completion's day. */
  function OpenDay(s: DashboardProgressSnapshot, at: Timestamp): (r: DashboardProgressSnapshot)
    ensures r.dailyCompletedDate.Some? && IsSameDay(r.dailyCompletedDate.value, at)
    ensures var sameDay := s.dailyCompletedDate.Some? && IsSameDay(s.dailyCompletedDate.value, at);
      && r.dailyCompletedDate == (if sameDay then s.dailyCompletedDate else Some(at))
      && r.dailyCompletedWorkoutIDs == (if sameDay then s.dailyCompletedWorkoutIDs else [])
    ensures r.totalWorkouts == s.totalWorkouts && r.totalXP == s.totalXP
      && r.longestStreak == s.longestStreak && r.lastWorkoutAt == s.lastWorkoutAt
    ensures r.currentStreak == Normalize(s, at).currentStreak
  {
    var n := Normalize(s, at);
    if n.dailyCompletedDate.Some? && IsSameDay(n.dailyCompletedDate.value, at) then n
    else n.(dailyCompletedDate := Some(at), dailyCompletedWorkoutIDs := [])
  }

  /** What `handleWorkoutCompletion` does to the snapshot: `None` when the
      workout is already recorded that day (the call is ignored), otherwise
      the new snapshot. */
  function RecordCompletion(s: DashboardProgressSnapshot, e: WorkoutCompletionEvent): (r: Option<DashboardProgressSnapshot>)
    ensures r.None? <==> IsCompletedOn(s, e.workoutID, e.completedAt)
    ensures r.Some? ==>
      var sameDay := s.dailyCompletedDate.Some? && IsSameDay(s.dailyCompletedDate.value, e.completedAt);
      && r.value.dailyCompletedWorkoutIDs == (if sameDay then s.dailyCompletedWorkoutIDs else []) + [e.workoutID]
      && r.value.dailyCompletedDate == (if sameDay then s.dailyCompletedDate else Some(e.completedAt))
      && r.value.totalWorkouts == s.totalWorkouts + 1
      && r.value.totalXP == s.totalXP + e.xpAwarded
      && r.value.lastWorkoutAt == Some(e.completedAt)
      && r.value.currentStreak == StreakAfterCompletion(s.lastWorkoutAt, s.currentStreak, e.completedAt)
      && r.value.longestStreak == Max(s.longestStreak, r.value.currentStreak)
      && IsCompletedOn(r.value, e.workoutID, e.completedAt)
    ensures r.Some? && Coherent(s) ==> Coherent(r.value)
  {
    var n := OpenDay(s, e.completedAt);
    if e.workoutID in n.dailyCompletedWorkoutIDs then None
    else
      var streak := StreakAfterCompletion(n.lastWorkoutAt, n.currentStreak, e.completedAt);
      Some(n.(dailyCompletedWorkoutIDs := n.dailyCompletedWorkoutIDs + [e.workoutID],
              totalWorkouts := n.totalWorkouts + 1,
              totalXP := n.totalXP + e.xpAwarded,
              currentStreak := streak,
              lastWorkoutAt := Some(e.completedAt),
              longestStreak := Max(n.longestStreak, streak)))
  }

  /** Forwarding the same completion twice records it once. */
  lemma RecordCompletionIdempotent(s: DashboardProgressSnapshot, e: WorkoutCompletionEvent)
    requires RecordCompletion(s, e).Some?
    ensures RecordCompletion(RecordCompletion(s, e).value, e).None?
  {
  }

  /** One input never lowers the longest streak, and an accepted completion
      leaves the longest streak at least the current one. */
  lemma LongestStreakNeverDecreases(s: DashboardProgressSnapshot, input: DashboardInput)
    ensures Apply(s, input).longestStreak >= s.longestStreak
    ensures input.Finished? && RecordCompletion(s, input.event).Some? ==>
      Apply(s, input).longestStreak >= Apply(s, input).currentStreak
  {
  }

  // ---------------------------------------------------------------------
  // Any sequence of foreground refreshes and completions
  // ---------------------------------------------------------------------

  /** What reaches the engine: a refresh at some time, or a finished workout. */
  datatype DashboardInput = Refresh(now: Timestamp) | Finished(event: WorkoutCompletionEvent)

  function Apply(s: DashboardProgressSnapshot, input: DashboardInput): DashboardProgressSnapshot {
    match input
    case Refresh(now) => Normalize(s, now)
    case Finished(e) => RecordCompletion(s, e).GetOr(s)
  }

  function Replay(s: DashboardProgressSnapshot, inputs: seq<DashboardInput>): DashboardProgressSnapshot
    decreases |inputs|
  {
    if inputs == [] then s else Replay(Apply(s, inputs[0]), inputs[1..])
  }

  /** How many of the inputs are completions the engine accepts. */
  function AcceptedCount(s: DashboardProgressSnapshot, inputs: seq<DashboardInput>): nat
    decreases |inputs|
  {
    if inputs == [] then 0
    else
      (if inputs[0].Finished? && RecordCompletion(s, inputs[0].event).Some? then 1 else 0)
      + AcceptedCount(Apply(s, inputs[0]), inputs[1..])
  }

  /** Over any history the longest streak never decreases, the workout total
      counts exactly the accepted completions, and a coherent snapshot stays
      coherent (duplicate-free daily list, streak within [0, longest]). */
  lemma {:induction false} ReplayKeepsProgress(s: DashboardProgressSnapshot, inputs: seq<DashboardInput>)
    ensures Replay(s, inputs).longestStreak >= s.longestStreak
    ensures Replay(s, inputs).totalWorkouts == s.totalWorkouts + AcceptedCount(s, inputs)
    ensures Coherent(s) ==> Coherent(Replay(s, inputs))
    decreases |inputs|
  {
    if inputs != [] {
      var next := Apply(s, inputs[0]);
      LongestStreakNeverDecreases(s, inputs[0]);
      ReplayKeepsProgress(next, inputs[1..]);
    }
  }

  // ---------------------------------------------------------------------
  // The view model
  // ---------------------------------------------------------------------

  /** `HomeDashboardViewModel`: owns the snapshot, mirrors its counters into
      published fields, and persists through `store`. The clock is passed
      in as `now`; the calendar is UTC. */
  class HomeDashboardViewModel {
    var totalWorkouts: int
    var totalXP: int
    var currentStreak: int
    var longestStreak: int
    var completedWorkoutIDs: set<string>

    const store: DashboardProgressStore
    var snapshot: DashboardProgressSnapshot

    /** The published fields show the snapshot. */
    ghost predicate Valid()
      reads this
    {
      && totalWorkouts == snapshot.totalWorkouts
      && totalXP == snapshot.totalXP
      && currentStreak == snapshot.currentStreak
      && longestStreak == snapshot.longestStreak
      && completedWorkoutIDs == (set id | id in snapshot.dailyCompletedWorkoutIDs)
    }

    /** `init`: starts from the default snapshot, then loads. */
    constructor (store: DashboardProgressStore, now: Timestamp)
      modifies store
      ensures Valid() && this.store == store
      ensures var loaded := Decode(old(store.stored)).GetOr(DefaultSnapshot);
        && snapshot == Normalize(loaded, now)
        && (snapshot != loaded ==> store.stored == Some(Decodable(snapshot))
                                   && store.saveCount == old(store.saveCount) + 1)
        && (snapshot == loaded ==> store.stored == old(store.stored)
                                   && store.saveCount == old(store.saveCount))
    {
      this.store := store;
      totalWorkouts, totalXP, currentStreak, longestStreak := 0, 0, 0, 0;
      completedWorkoutIDs := {};
      snapshot := DefaultSnapshot;
      new;
      Load(now);
    }

    /** `currentLevel`: one level per 100 XP, starting at level 1. */
    function CurrentLevel(): (r: int)
      reads this
      ensures (r - 1) * XPPerLevel + LevelXPProgress() == totalXP
      ensures totalXP >= 0 ==> r >= 1 && r == totalXP / XPPerLevel + 1
    {
      TruncatingDiv(totalXP, XPPerLevel) + 1
    }

    /** `levelXPProgress`: the XP earned inside the current level. */
    function LevelXPProgress(): (r: int)
      reads this
      ensures totalXP >= 0 ==> 0 <= r < XPPerLevel && r == totalXP % XPPerLevel
      ensures totalXP < 0 ==> -XPPerLevel < r <= 0
    {
      TruncatingRem(totalXP, XPPerLevel)
    }

    /** `todayCompletedCount`: the size of the ID set, which is the length of
        the daily list whenever that list has no duplicates. */
    function TodayCompletedCount(): (r: int)
      reads this
      requires Valid()
      ensures NoDuplicates(snapshot.dailyCompletedWorkoutIDs) ==> r == |snapshot.dailyCompletedWorkoutIDs|
    {
      DistinctCount(snapshot.dailyCompletedWorkoutIDs);
      |completedWorkoutIDs|
    }

    /** `isWorkoutCompletedToday(_:)`. */
    function IsWorkoutCompletedToday(workoutID: string): (r: bool)
      reads this
      requires Valid()
      ensures r <==> workoutID in snapshot.dailyCompletedWorkoutIDs
    {
      workoutID in completedWorkoutIDs
    }

    /** `refreshForCurrentDate()`: normalises and saves only on a change, so a
        second refresh at the same time saves nothing. */
    method RefreshForCurrentDate(now: Timestamp)
      requires Valid()
      modifies this, store
      ensures Valid()
      ensures snapshot == Normalize(old(snapshot), now) == Apply(old(snapshot), Refresh(now))
      ensures snapshot != old(snapshot) ==> store.stored == Some(Decodable(snapshot))
                                            && store.saveCount == old(store.saveCount) + 1
      ensures snapshot == old(snapshot) ==> store.stored == old(store.stored)
                                            && store.saveCount == old(store.saveCount)
    {
      var normalized := Normalize(snapshot, now);
      SetSnapshot(normalized, normalized != snapshot);
    }

    /** `handleWorkoutCompletion(_:)`: ignored (nothing changes, nothing is
        saved) when the workout is already recorded that day; otherwise the
        snapshot becomes `RecordCompletion`'s and is saved once. */
    method HandleWorkoutCompletion(e: WorkoutCompletionEvent)
      requires Valid()
      modifies this, store
      ensures Valid()
      ensures snapshot == Apply(old(snapshot), Finished(e))
      ensures RecordCompletion(old(snapshot), e).None? ==> unchanged(this) && unchanged(store)
      ensures RecordCompletion(old(snapshot), e).Some? ==>
        && store.stored == Some(Decodable(snapshot))
        && store.saveCount == old(store.saveCount) + 1
    {
      var next := Normalize(snapshot, e.completedAt);

      match next.dailyCompletedDate {
        case Some(completedDate) =>
          if !IsSameDay(completedDate, e.completedAt) {
            next := next.(dailyCompletedDate := Some(e.completedAt), dailyCompletedWorkoutIDs := []);
          }
        case None =>
          next := next.(dailyCompletedDate := Some(e.completedAt), dailyCompletedWorkoutIDs := []);
      }
      assert next == OpenDay(snapshot, e.completedAt);

      if e.workoutID in next.dailyCompletedWorkoutIDs {
        return;
      }

      next := next.(dailyCompletedWorkoutIDs := next.dailyCompletedWorkoutIDs + [e.workoutID]);
      next := next.(totalWorkouts := next.totalWorkouts + 1);
      next := next.(totalXP := next.totalXP + e.xpAwarded);
      next := UpdateStreak(next, e.completedAt);
      next := next.(lastWorkoutAt := Some(e.completedAt));
      next := next.(longestStreak := Max(next.longestStreak, next.currentStreak));

      SetSnapshot(next, true);
    }

    /** `load()`: the stored snapshot (or the default when absent or
        unreadable), normalised to `now`, saved only if normalising changed it. */
    method Load(now: Timestamp)
      modifies this, store
      ensures Valid()
      ensures var loaded := Decode(old(store.stored)).GetOr(DefaultSnapshot);
        && snapshot == Normalize(loaded, now)
        && (snapshot != loaded ==> store.stored == Some(Decodable(snapshot))
                                   && store.saveCount == old(store.saveCount) + 1)
        && (snapshot == loaded ==> store.stored == old(store.stored)
                                   && store.saveCount == old(store.saveCount))
    {
      var stored := store.Load();
      var loaded := stored.GetOr(DefaultSnapshot);
      var normalized := Normalize(loaded, now);
      SetSnapshot(normalized, normalized != loaded);
    }

    /** `setSnapshot(_:persist:)`: adopts the snapshot, republishes its
        fields, and saves it when asked to. */
    method SetSnapshot(s: DashboardProgressSnapshot, persist: bool)
      modifies this, store
      ensures Valid() && snapshot == s
      ensures persist ==> store.stored == Some(Decodable(s)) && store.saveCount == old(store.saveCount) + 1
      ensures !persist ==> store.stored == old(store.stored) && store.saveCount == old(store.saveCount)
    {
      snapshot := s;
      totalWorkouts := s.totalWorkouts;
      totalXP := s.totalXP;
      currentStreak := s.currentStreak;
      longestStreak := s.longestStreak;
      completedWorkoutIDs := set id | id in s.dailyCompletedWorkoutIDs;
      if persist {
        store.Save(s);
      }
    }
  }
}

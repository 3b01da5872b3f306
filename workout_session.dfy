/** The workout session state machine: form tip, then active sets and rests
    in turn, then completed. The rest countdown advances only when
    `TickRestCountdown` is called; the repeating timer is a flag. */
module WorkoutSession {
  import opened Storage
  import opened Calendar
  import opened WorkoutModels
  import opened Numeric

  datatype WorkoutPhase = FormTip | ActiveSet | Rest | Completed

  class WorkoutSessionViewModel {
    var phase: WorkoutPhase
    var currentSetIndex: int
    var currentRepCount: int
    var restSecondsRemaining: int
    var completionEvent: Option<WorkoutCompletionEvent>

    const plan: WorkoutPlan
    const restDurationSeconds: int
    const usesAutomaticRestTimer: bool
    /** `restTimer != nil`: a repeating one-second timer is scheduled. */
    var restTimerRunning: bool

    /** The phase invariants: the set index stays in range, a rest always has
        between one second and the full duration left, a completion event
        exists exactly in the completed phase, and the timer runs only
        during a rest. */
    ghost predicate Valid()
      reads this
    {
      && plan.IsWellFormed()
      && restDurationSeconds >= 1
      && 0 <= currentSetIndex < |plan.repsBySet|
      && 0 <= restSecondsRemaining <= restDurationSeconds
      && (completionEvent.Some? <==> phase == Completed)
      && (restTimerRunning <==> phase == Rest && usesAutomaticRestTimer)
      && match phase
         case FormTip =>
           currentSetIndex == 0 && currentRepCount == 0 && restSecondsRemaining == restDurationSeconds
         case ActiveSet =>
           0 <= currentRepCount < plan.repsBySet[currentSetIndex]
         case Rest =>
           && currentSetIndex < |plan.repsBySet| - 1
           && currentRepCount == plan.repsBySet[currentSetIndex]
           && 1 <= restSecondsRemaining
         case Completed =>
           && currentSetIndex == |plan.repsBySet| - 1
           && currentRepCount == plan.repsBySet[currentSetIndex]
           && completionEvent.value.workoutID == plan.id
           && completionEvent.value.xpAwarded == plan.xpReward
    }

    /** `init`: by default a 30-second rest on the automatic timer; the rest
        duration is clamped to at least one second. */
    constructor (plan: WorkoutPlan, restDurationSeconds: int := 30, usesAutomaticRestTimer: bool := true)
      requires plan.IsWellFormed()
      ensures Valid()
      ensures this.plan == plan && this.usesAutomaticRestTimer == usesAutomaticRestTimer
      ensures this.restDurationSeconds == Max(restDurationSeconds, 1)
      ensures restSecondsRemaining == this.restDurationSeconds
      ensures phase == FormTip && currentSetIndex == 0 && currentRepCount == 0
      ensures completionEvent.None? && !restTimerRunning
    {
      this.plan := plan;
      this.restDurationSeconds := Max(restDurationSeconds, 1);
      this.usesAutomaticRestTimer := usesAutomaticRestTimer;
      restSecondsRemaining := Max(restDurationSeconds, 1);
      phase := FormTip;
      currentSetIndex := 0;
      currentRepCount := 0;
      completionEvent := None;
      restTimerRunning := false;
    }

    // -------------------------------------------------------------------
    // Derived values
    // -------------------------------------------------------------------

    function TotalSets(): (r: int)
      reads this
      requires Valid()
      ensures r >= 1 && currentSetIndex < r
    {
      |plan.repsBySet|
    }

    /** `currentSetTarget`: the reps of the current set, 0 out of range. */
    function CurrentSetTarget(): (r: int)
      reads this
      ensures 0 <= currentSetIndex < |plan.repsBySet| ==> r == plan.repsBySet[currentSetIndex]
      ensures !(0 <= currentSetIndex < |plan.repsBySet|) ==> r == 0
      ensures Valid() ==> r >= 1
    {
      if 0 <= currentSetIndex < |plan.repsBySet| then plan.repsBySet[currentSetIndex] else 0
    }

    /** `currentSetNumber`: the 1-based number of the current set. */
    function CurrentSetNumber(): (r: int)
      reads this
      requires Valid()
      ensures 1 <= r <= TotalSets()
      ensures r == currentSetIndex + 1
    {
      Min(currentSetIndex + 1, |plan.repsBySet|)
    }

    /** `completedSetsCount`: reaches the number of sets exactly when the
        workout is completed, and grows by one on entering a rest. */
    function CompletedSetsCount(): (r: int)
      reads this
      requires Valid()
      ensures 0 <= r <= TotalSets()
      ensures r == TotalSets() <==> phase == Completed
      ensures phase == Rest ==> r == currentSetIndex + 1
      ensures phase == ActiveSet ==> r == currentSetIndex
      ensures phase == FormTip ==> r == 0
    {
      match phase
      case FormTip => 0
      case ActiveSet => currentSetIndex
      case Rest => currentSetIndex + 1
      case Completed => |plan.repsBySet|
    }

    /** `canCountRep`: in an active set there is always a rep left to count. */
    function CanCountRep(): (r: bool)
      reads this
      requires Valid()
      ensures r <==> phase == ActiveSet
      ensures r ==> currentRepCount < CurrentSetTarget()
    {
      phase == ActiveSet
    }

    // -------------------------------------------------------------------
    // Public operations
    // -------------------------------------------------------------------

    /** `startWorkout()`: from any phase, a fresh start at the first set. */
    method StartWorkout()
      requires Valid()
      modifies this
      ensures Valid()
      ensures phase == ActiveSet && currentSetIndex == 0 && currentRepCount == 0
      ensures restSecondsRemaining == restDurationSeconds
      ensures completionEvent.None? && !restTimerRunning
    {
      ResetForStart();
      phase := ActiveSet;
    }

    /** `countRep()`: outside an active set nothing changes; otherwise one
        more rep, and the rep that reaches the target finishes the set,
        which starts a rest or, after the last set, completes the workout
        with an event stamped `now`. */
    method CountRep(now: Timestamp)
      requires Valid()
      modifies this
      ensures Valid()
      ensures old(phase) != ActiveSet ==> unchanged(this)
      ensures old(phase) == ActiveSet ==>
        && currentSetIndex == old(currentSetIndex)
        && currentRepCount == old(currentRepCount) + 1
        && currentRepCount <= CurrentSetTarget()
      ensures old(phase) == ActiveSet && currentRepCount < CurrentSetTarget() ==>
        phase == ActiveSet && restSecondsRemaining == old(restSecondsRemaining) && !restTimerRunning
      ensures old(phase) == ActiveSet && currentRepCount == CurrentSetTarget()
              && currentSetIndex < TotalSets() - 1 ==>
        phase == Rest && restSecondsRemaining == restDurationSeconds
        && restTimerRunning == usesAutomaticRestTimer && completionEvent.None?
      ensures old(phase) == ActiveSet && currentRepCount == CurrentSetTarget()
              && currentSetIndex == TotalSets() - 1 ==>
        phase == Completed && !restTimerRunning && restSecondsRemaining == old(restSecondsRemaining)
        && completionEvent == Some(WorkoutCompletionEvent(plan.id, plan.xpReward, now))
    {
      if phase != ActiveSet {
        return;
      }
      if currentRepCount >= CurrentSetTarget() {
        return;
      }
      currentRepCount := currentRepCount + 1;
      if currentRepCount == CurrentSetTarget() {
        CompleteCurrentSet(now);
      }
    }

    /** `skipRest()`: outside a rest nothing changes; otherwise the clock is
        zeroed and the next set starts at once. */
    method SkipRest()
      requires Valid()
      modifies this
      ensures Valid()
      ensures old(phase) != Rest ==> unchanged(this)
      ensures old(phase) == Rest ==>
        && phase == ActiveSet
        && currentSetIndex == old(currentSetIndex) + 1
        && currentRepCount == 0
        && restSecondsRemaining == 0
        && !restTimerRunning
    {
      if phase != Rest {
        return;
      }
      restSecondsRemaining := 0;
      MoveToNextSetAfterRest();
    }

    /** `tickRestCountdown()`: outside a rest nothing changes; otherwise one
        second passes, and the second that empties the clock starts the next
        set. */
    method TickRestCountdown()
      requires Valid()
      modifies this
      ensures Valid()
      ensures old(phase) != Rest ==> unchanged(this)
      ensures old(phase) == Rest ==> restSecondsRemaining == old(restSecondsRemaining) - 1
      ensures old(phase) == Rest && restSecondsRemaining > 0 ==>
        phase == Rest && currentSetIndex == old(currentSetIndex)
        && currentRepCount == old(currentRepCount) && restTimerRunning == old(restTimerRunning)
      ensures old(phase) == Rest && restSecondsRemaining == 0 ==>
        && phase == ActiveSet
        && currentSetIndex == old(currentSetIndex) + 1
        && currentRepCount == 0
        && !restTimerRunning
    {
      if phase != Rest {
        return;
      }
      if restSecondsRemaining <= 0 {
        // The source advances here; Valid() keeps at least one second on the
        // clock during a rest, so this guard never fires.
        assert false;
      }
      restSecondsRemaining := restSecondsRemaining - 1;
      if restSecondsRemaining == 0 {
        MoveToNextSetAfterRest();
      }
    }

    // -------------------------------------------------------------------
    // Private transitions
    // -------------------------------------------------------------------

    /** `resetForStart()`. */
    method ResetForStart()
      requires Valid()
      modifies this
      ensures phase == old(phase) && !restTimerRunning && completionEvent.None?
      ensures currentSetIndex == 0 && currentRepCount == 0
      ensures restSecondsRemaining == restDurationSeconds
    {
      StopRestTimer();
      completionEvent := None;
      currentSetIndex := 0;
      currentRepCount := 0;
      restSecondsRemaining := restDurationSeconds;
    }

    /** `completeCurrentSet()`: a rest after any set but the last. */
    method CompleteCurrentSet(now: Timestamp)
      requires plan.IsWellFormed() && restDurationSeconds >= 1
      requires phase == ActiveSet && !restTimerRunning && completionEvent.None?
      requires 0 <= currentSetIndex < |plan.repsBySet|
      requires currentRepCount == plan.repsBySet[currentSetIndex]
      requires 0 <= restSecondsRemaining <= restDurationSeconds
      modifies this
      ensures Valid()
      ensures currentSetIndex == old(currentSetIndex) && currentRepCount == old(currentRepCount)
      ensures old(currentSetIndex) < |plan.repsBySet| - 1 ==>
        phase == Rest && restSecondsRemaining == restDurationSeconds
        && restTimerRunning == usesAutomaticRestTimer && completionEvent.None?
      ensures old(currentSetIndex) == |plan.repsBySet| - 1 ==>
        phase == Completed && !restTimerRunning && restSecondsRemaining == old(restSecondsRemaining)
        && completionEvent == Some(WorkoutCompletionEvent(plan.id, plan.xpReward, now))
    {
      if currentSetIndex >= |plan.repsBySet| - 1 {
        FinishWorkout(now);
        return;
      }
      StartRest();
    }

    /** `startRest()`: a full rest; the timer is scheduled only in
        automatic mode. */
    method StartRest()
      requires !restTimerRunning
      modifies this
      ensures phase == Rest && restSecondsRemaining == restDurationSeconds
      ensures restTimerRunning == usesAutomaticRestTimer
      ensures currentSetIndex == old(currentSetIndex) && currentRepCount == old(currentRepCount)
      ensures completionEvent == old(completionEvent)
    {
      phase := Rest;
      restSecondsRemaining := restDurationSeconds;
      if !usesAutomaticRestTimer {
        return;
      }
      StartRestTimer();
    }

    /** `moveToNextSetAfterRest()`. */
    method MoveToNextSetAfterRest()
      modifies this
      ensures phase == ActiveSet && !restTimerRunning
      ensures currentSetIndex == old(currentSetIndex) + 1 && currentRepCount == 0
      ensures restSecondsRemaining == old(restSecondsRemaining)
      ensures completionEvent == old(completionEvent)
    {
      StopRestTimer();
      currentSetIndex := currentSetIndex + 1;
      currentRepCount := 0;
      phase := ActiveSet;
    }

    /** `finishWorkout()`: the completion event carries the plan's ID and
        reward and the time the workout finished. */
    method FinishWorkout(now: Timestamp)
      modifies this
      ensures phase == Completed && !restTimerRunning
      ensures completionEvent == Some(WorkoutCompletionEvent(plan.id, plan.xpReward, now))
      ensures currentSetIndex == old(currentSetIndex) && currentRepCount == old(currentRepCount)
      ensures restSecondsRemaining == old(restSecondsRemaining)
    {
      StopRestTimer();
      phase := Completed;
      completionEvent := Some(WorkoutCompletionEvent(plan.id, plan.xpReward, now));
    }

    /** `startRestTimer()`: replaces any running timer with a new one. */
    method StartRestTimer()
      modifies this`restTimerRunning
      ensures restTimerRunning
    {
      StopRestTimer();
      restTimerRunning := true;
    }

    /** `stopRestTimer()`. */
    method StopRestTimer()
      modifies this`restTimerRunning
      ensures !restTimerRunning
    {
      restTimerRunning := false;
    }
  }
}

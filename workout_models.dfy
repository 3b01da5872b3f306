/** The two records that travel between the workout session and the
    dashboard: a catalog plan and the event a finished session emits. */
module WorkoutModels {
  import opened Calendar

  /** A catalog entry; only the fields the session state machine reads. */
  datatype WorkoutPlan = WorkoutPlan(id: string, repsBySet: seq<int>, xpReward: int) {
    /** Catalog entries have at least one set and a positive target per set. */
    predicate IsWellFormed() {
      |repsBySet| > 0 && forall i :: 0 <= i < |repsBySet| ==> repsBySet[i] > 0
    }
  }

  datatype WorkoutCompletionEvent = WorkoutCompletionEvent(workoutID: string, xpAwarded: int, completedAt: Timestamp)

  const Squats := WorkoutPlan("squats", [10, 12, 10], 50)
  const Pushups := WorkoutPlan("pushups", [8, 10, 8], 50)
}

/** The persisted progress record and the properties the engine keeps on it. */
module HomeProgressStore {
  import opened Storage
  import opened Calendar

  /** `DashboardProgressSnapshot`. Counters are Swift `Int`s: the record is
      read back from storage, so nothing in the type keeps them non-negative. */
  datatype DashboardProgressSnapshot = DashboardProgressSnapshot(
    totalWorkouts: int,
    totalXP: int,
    currentStreak: int,
    longestStreak: int,
    lastWorkoutAt: Option<Timestamp>,
    dailyCompletedDate: Option<Timestamp>,
    dailyCompletedWorkoutIDs: seq<string>)

  /** The record's default values: zero counters, no dates, no IDs. */
  const DefaultSnapshot := DashboardProgressSnapshot(0, 0, 0, 0, None, None, [])

  type DashboardProgressStore = SnapshotStore<DashboardProgressSnapshot>

  predicate NoDuplicates(ids: seq<string>) {
    forall i, j :: 0 <= i < j < |ids| ==> ids[i] != ids[j]
  }

  /** What the engine keeps true of every snapshot it builds: each ID is
      recorded once per day, a non-empty daily list belongs to a day, and
      the streak lies between zero and the longest streak. */
  predicate Coherent(s: DashboardProgressSnapshot) {
    && NoDuplicates(s.dailyCompletedWorkoutIDs)
    && (s.dailyCompletedWorkoutIDs != [] ==> s.dailyCompletedDate.Some?)
    && 0 <= s.currentStreak <= s.longestStreak
  }

  lemma DefaultSnapshotIsEmpty()
    ensures DefaultSnapshot.totalWorkouts == 0 && DefaultSnapshot.totalXP == 0
    ensures DefaultSnapshot.currentStreak == 0 && DefaultSnapshot.longestStreak == 0
    ensures DefaultSnapshot.lastWorkoutAt.None? && DefaultSnapshot.dailyCompletedDate.None?
    ensures DefaultSnapshot.dailyCompletedWorkoutIDs == []
    ensures Coherent(DefaultSnapshot)
  {
  }

  /** A duplicate-free list has as many distinct IDs as entries, so the
      count of the ID set equals the list's length. */
  lemma {:induction false} DistinctCount(ids: seq<string>)
    ensures NoDuplicates(ids) ==> |set id | id in ids| == |ids|
  {
    if ids != [] && NoDuplicates(ids) {
      var rest := ids[1..];
      assert NoDuplicates(rest) by {
        forall i, j | 0 <= i < j < |rest| ensures rest[i] != rest[j] {
          assert rest[i] == ids[i + 1] && rest[j] == ids[j + 1];
        }
      }
      DistinctCount(rest);
      assert ids[0] !in rest by {
        forall k | 0 <= k < |rest| ensures rest[k] != ids[0] {
          assert rest[k] == ids[k + 1];
        }
      }
      assert (set id | id in ids) == (set id | id in rest) + {ids[0]} by {
        assert ids == [ids[0]] + rest;
      }
    }
  }
}

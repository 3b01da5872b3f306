/** The calendar the progress engine consults, fixed to the UTC Gregorian
    calendar: an instant is a whole number of seconds since
    1970-01-01T00:00:00Z and a calendar day is a day index. */
module Calendar {

  type Timestamp = int

  const SecondsPerDay := 86400

  /** The calendar day an instant falls on (floor division, so instants
      before 1970 fall on negative days). */
  function Day(t: Timestamp): int {
    t / SecondsPerDay
  }

  /** `calendar.startOfDay(for:)`: the first second of the instant's day. */
  function StartOfDay(t: Timestamp): (r: Timestamp)
    ensures Day(r) == Day(t)
    ensures r <= t < r + SecondsPerDay
  {
    Day(t) * SecondsPerDay
  }

  /** `calendar.date(byAdding: .day, value: n, to:)`; in UTC every day has
      86400 seconds, so this never fails. */
  function AddDays(t: Timestamp, n: int): (r: Timestamp)
    ensures Day(r) == Day(t) + n
    ensures r - StartOfDay(r) == t - StartOfDay(t)
  {
    t + n * SecondsPerDay
  }

  /** `calendar.isDate(_:inSameDayAs:)`: both instants share one start of
      day. */
  predicate IsSameDay(a: Timestamp, b: Timestamp)
    ensures IsSameDay(a, b) <==> StartOfDay(a) == StartOfDay(b)
  {
    Day(a) == Day(b)
  }

  /** `isYesterday(_:relativeTo:)` as the source computes it: the date falls
      on the same day as one day before the start of the reference day. In
      UTC that is the day of the instant 24 hours before the reference. */
  predicate IsYesterday(date: Timestamp, reference: Timestamp)
    ensures IsYesterday(date, reference) <==> IsSameDay(date, reference - SecondsPerDay)
  {
    DayOfMultiple(Day(reference) - 1);
    IsSameDay(date, AddDays(StartOfDay(reference), -1))
  }

  lemma DayOfMultiple(k: int)
    ensures Day(k * SecondsPerDay) == k
  {
  }

  /** "Yesterday" means exactly the previous day index, and never today. */
  lemma IsYesterdayIsPreviousDay(date: Timestamp, reference: Timestamp)
    ensures IsYesterday(date, reference) <==> Day(date) + 1 == Day(reference)
    ensures IsYesterday(date, reference) ==> !IsSameDay(date, reference)
  {
  }
}

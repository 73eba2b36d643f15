/**
 * The day countdown shared by the subscription screens:
 * `Math.ceil((date - now) / (1000 * 60 * 60 * 24))` over millisecond
 * timestamps, and the windows it drives (past due, within 7 days,
 * within 30 days).
 */
module Renewal {
  import opened Common

  /** Milliseconds in a day: 1000 * 60 * 60 * 24. */
  const MsPerDay: int := 86400000

  /** Days counted as "expiring soon". */
  const SoonDays: int := 7

  /** Days counted as "upcoming". */
  const UpcomingDays: int := 30

  /**
   * Whole days from `now` until `target`, rounded up: the least `days` with
   * `target - now <= days * MsPerDay`.
   */
  function DaysBetween(now: int, target: int): (days: int)
    ensures (days - 1) * MsPerDay < target - now <= days * MsPerDay
  {
    -((now - target) / MsPerDay)
  }

  /** `getDaysUntil...(date)`: null when there is no date, else the countdown. */
  function DaysUntil(date: Option<int>, now: int): (days: Option<int>)
    ensures days.None? <==> date.None?
    ensures days.Some? ==> days.value == DaysBetween(now, date.value)
  {
    match date
    case None => None
    case Some(t) => Some(DaysBetween(now, t))
  }

  /** A countdown lies in the window `1..limit`. */
  predicate Within(days: int, limit: int) {
    0 < days <= limit
  }

  /** The countdown is positive exactly while the date is still ahead. */
  lemma DaysPositiveIff(now: int, target: int)
    ensures DaysBetween(now, target) > 0 <==> now < target
  {
    var d := DaysBetween(now, target);
    if d <= 0 {
      assert d * MsPerDay <= 0;
    }
  }

  /** The countdown is at most `limit` exactly when the date is at most `limit` days ahead. */
  lemma DaysAtMostIff(now: int, target: int, limit: int)
    ensures DaysBetween(now, target) <= limit <==> target <= now + limit * MsPerDay
  {
    var d := DaysBetween(now, target);
    if d <= limit {
      assert d * MsPerDay <= limit * MsPerDay;
    } else {
      assert (d - 1) * MsPerDay >= limit * MsPerDay;
    }
  }

  /** The window `1..limit` in milliseconds: strictly after now, at most `limit` days ahead. */
  lemma WithinIff(now: int, target: int, limit: int)
    ensures Within(DaysBetween(now, target), limit) <==> now < target <= now + limit * MsPerDay
  {
    DaysPositiveIff(now, target);
    DaysAtMostIff(now, target, limit);
  }

  /** For a fixed date the countdown never goes up as time advances. */
  lemma DaysNonIncreasing(now1: int, now2: int, target: int)
    requires now1 <= now2
    ensures DaysBetween(now2, target) <= DaysBetween(now1, target)
  {
  }

  /** ... but it does not strictly decrease: one millisecond later it can be unchanged. */
  lemma DaysNotStrictlyDecreasing()
    ensures DaysBetween(0, MsPerDay) == DaysBetween(1, MsPerDay) == 1
  {
  }

  /** The 7-day window lies inside the 30-day window. */
  lemma SoonIsUpcoming(days: int)
    requires Within(days, SoonDays)
    ensures Within(days, UpcomingDays)
  {
  }
}

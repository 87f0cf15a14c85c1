/** The progress calculator: how far "today" lies between the fixed start date
    and the release date, as a whole percentage and a signed count of days
    remaining. `today` is a parameter standing for the midnight-truncated
    clock reading. The float expression `passed / total * 100`, clamped to
    [0, 100] and then rounded half-to-even by Python's `round`, is computed
    here exactly on integers. */
module Progress {
  import opened Calendar
  import opened PyNumbers

  const StartDate := Date(2025, 11, 6)
  const ReleaseDate := Date(2026, 11, 19)

  /** What the calculator returns: the `percentage` and `days_remaining` entries. */
  datatype Snapshot = Snapshot(percentage: int, daysRemaining: int)

  /** `round(max(0, min(100, num / den)))`: the clamp comes before the round. */
  function ClampedRound(num: int, den: int): (r: int)
    requires den > 0
    ensures 0 <= r <= 100
    ensures num <= 0 ==> r == 0
    ensures num >= 100 * den ==> r == 100
  {
    if num <= 0 then 0
    else if num >= 100 * den then 100
    else
      QuotientBelow(num, den, 100);
      RoundHalfEven(num, den)
  }

  /** `total_days`: the length of the countdown span, 378 days. */
  function TotalDays(): (n: int)
    ensures n == 378
  {
    DaysBetween(StartDate, ReleaseDate)
  }

  function DaysPassed(today: Date): int
    requires ValidDate(today)
  {
    DaysBetween(StartDate, today)
  }

  function DaysRemaining(today: Date): int
    requires ValidDate(today)
  {
    DaysBetween(today, ReleaseDate)
  }

  /** `calculate_progress` with the clock reading passed in. */
  function CalculateProgress(today: Date): (s: Snapshot)
    requires ValidDate(today)
    ensures 0 <= s.percentage <= 100
    ensures DaysPassed(today) + s.daysRemaining == TotalDays()
  {
    Snapshot(ClampedRound(100 * DaysPassed(today), TotalDays()), DaysRemaining(today))
  }

  // ---------------------------------------------------------------------------
  // Properties of the calculator.

  /** The clamped, rounded value never decreases as the numerator grows. */
  lemma ClampedRoundMonotone(n1: int, n2: int, den: int)
    requires den > 0 && n1 <= n2
    ensures ClampedRound(n1, den) <= ClampedRound(n2, den)
  {
    RoundHalfEvenMonotone(n1, n2, den);
  }

  /** `100 * d / 378` is never exactly halfway between two integers, so the
      tie rule never applies and a float off by a few units in the last place
      cannot change which integer is nearest. */
  lemma NoRoundingTie(d: int)
    ensures 2 * ((100 * d) % TotalDays()) != TotalDays()
  {
    var m := (100 * d) % 378;
    assert 100 * d == 378 * ((100 * d) / 378) + m;
    assert m % 2 == 0 by {
      assert m == 2 * (50 * d - 189 * ((100 * d) / 378));
    }
  }

  /** Elapsed and remaining days always add up to the whole span. */
  lemma PassedPlusRemaining(today: Date)
    requires ValidDate(today)
    ensures DaysPassed(today) + DaysRemaining(today) == 378
  {
  }

  /** On or before the start date nothing has elapsed. */
  lemma ZeroUntilStart(today: Date)
    requires ValidDate(today) && !Precedes(StartDate, today)
    ensures CalculateProgress(today).percentage == 0
  {
    OrdinalOrder(StartDate, today);
  }

  /** On or after the release date the countdown is complete, and strictly
      after it the days remaining are negative. */
  lemma FullFromRelease(today: Date)
    requires ValidDate(today) && !Precedes(today, ReleaseDate)
    ensures CalculateProgress(today).percentage == 100
    ensures Precedes(ReleaseDate, today) ==> CalculateProgress(today).daysRemaining < 0
  {
    OrdinalOrder(today, ReleaseDate);
  }

  /** Strictly between the two dates the percentage is the nearest integer to
      `100 * passed / 378`. */
  lemma NearestDuringSpan(today: Date)
    requires ValidDate(today) && Precedes(StartDate, today) && Precedes(today, ReleaseDate)
    ensures var p := CalculateProgress(today).percentage;
      var n := 100 * DaysPassed(today);
      2 * n - 378 < 2 * p * 378 < 2 * n + 378
  {
    OrdinalMonotone(StartDate, today);
    OrdinalMonotone(today, ReleaseDate);
    NoRoundingTie(DaysPassed(today));
  }

  /** Over any later date the days remaining drop by the days between, and the
      percentage does not decrease. */
  lemma ProgressMonotone(a: Date, b: Date)
    requires ValidDate(a) && ValidDate(b) && Precedes(a, b)
    ensures CalculateProgress(b).daysRemaining == CalculateProgress(a).daysRemaining - DaysBetween(a, b)
    ensures CalculateProgress(a).percentage <= CalculateProgress(b).percentage
  {
    OrdinalMonotone(a, b);
    ClampedRoundMonotone(100 * DaysPassed(a), 100 * DaysPassed(b), TotalDays());
  }

  /** One day later: one day fewer remains, and the percentage does not decrease. */
  lemma ProgressNextDay(today: Date)
    requires ValidDate(today) && today != Date(MaxYear, 12, 31)
    ensures CalculateProgress(NextDay(today)).daysRemaining == CalculateProgress(today).daysRemaining - 1
    ensures CalculateProgress(today).percentage <= CalculateProgress(NextDay(today)).percentage
  {
    NextDayOrdinal(today);
    ProgressMonotone(today, NextDay(today));
  }

  /** Mid-span run on 2026-05-19: 194 of 378 days have passed, 51%, 184 days left. */
  lemma MidSpanExample()
    ensures CalculateProgress(Date(2026, 5, 19)) == Snapshot(51, 184)
    ensures CalculateProgress(Date(2026, 11, 18)).daysRemaining == 1
    ensures CalculateProgress(StartDate) == Snapshot(0, 378)
    ensures CalculateProgress(ReleaseDate) == Snapshot(100, 0)
  {
  }
}

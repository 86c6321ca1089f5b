/** The two date-fns helpers the smart-priority rule calls, over integer
    millisecond timestamps. Every calendar day is `DayMs` long here. */
module DateFns {
  import opened DatabaseTypes

  const DayMs: int := 86_400_000

  /** Whole days in a span of `ms` milliseconds, truncated toward zero
      (Dafny's `/` is Euclidean, so the negative case is written out). */
  function WholeDays(ms: int): (n: int)
    ensures 0 <= ms ==> 0 <= n && n * DayMs <= ms < (n + 1) * DayMs
    ensures ms < 0 ==> n <= 0 && (n - 1) * DayMs < ms <= n * DayMs
  {
    if 0 <= ms then ms / DayMs else -((-ms) / DayMs)
  }

  /** `differenceInDays(later, earlier)`: the number of full days from
      `earlier` to `later`, negative when `later` comes first. */
  function DifferenceInDays(later: Timestamp, earlier: Timestamp): (days: int)
  {
    WholeDays(later - earlier)
  }

  /** `isPast(d)`: `d` lies strictly before the current time `now`. */
  predicate IsPast(d: Timestamp, now: Timestamp)
  {
    d < now
  }

  /** Truncation, unlike flooring, is symmetric: swapping the two dates
      only flips the sign of the day count. */
  lemma DifferenceInDaysAntisymmetric(a: Timestamp, b: Timestamp)
    ensures DifferenceInDays(a, b) == -DifferenceInDays(b, a)
  {
  }

  /** A span is at most `n` whole days exactly when it is shorter than
      `n + 1` full days. */
  lemma AtMostWholeDays(ms: int, n: nat)
    ensures WholeDays(ms) <= n <==> ms < (n + 1) * DayMs
  {
  }

  /** Less than one full day either way counts as zero days. */
  lemma PartialDayIsZero(ms: int)
    ensures WholeDays(ms) == 0 <==> -DayMs < ms < DayMs
  {
  }
}

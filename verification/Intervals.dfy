/** Durations as the databases see them. Times and durations are nanoseconds. */
module Intervals {

  const MILLISECOND := 1_000_000

  /** A duration as an interval literal carries it: cut down to whole milliseconds. */
  function Interval(duration: nat): nat { duration / MILLISECOND * MILLISECOND }

  lemma IntervalLosesLessThanOne(duration: nat)
    ensures duration - MILLISECOND < Interval(duration) <= duration
    ensures Interval(duration) == duration <==> duration % MILLISECOND == 0
  {
  }
}

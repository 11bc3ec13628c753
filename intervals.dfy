/**
 * Rental durations and the overlap test (`DurationRange` and `is_overlaps`
 * in lib/classes.py). A range `(s, e)` stands for the half-open interval of
 * hours [s, e).
 */
module Intervals {

  /** A `DurationRange`: the pair (start, end) of a rental. */
  datatype DurationRange = DurationRange(start: int, end: int)

  function Max(a: int, b: int): int { if a >= b then a else b }

  function Min(a: int, b: int): int { if a <= b then a else b }

  /** `is_overlaps`: the later start lies strictly before the earlier end. */
  predicate IsOverlaps(rangeOne: DurationRange, rangeTwo: DurationRange) {
    Max(rangeOne.start, rangeTwo.start) < Min(rangeOne.end, rangeTwo.end)
  }

  /** Hour `t` lies in the half-open range [start, end). */
  predicate Contains(r: DurationRange, t: int) {
    r.start <= t < r.end
  }

  /** The overlap test is exactly "the two ranges share an hour". */
  lemma OverlapsIffSharedHour(a: DurationRange, b: DurationRange)
    ensures IsOverlaps(a, b) <==> exists t :: Contains(a, t) && Contains(b, t)
  {
    if IsOverlaps(a, b) {
      var t := Max(a.start, b.start);
      assert Contains(a, t) && Contains(b, t);
    }
  }

  /** The overlap test does not depend on the order of its arguments. */
  lemma OverlapsSymmetric(a: DurationRange, b: DurationRange)
    ensures IsOverlaps(a, b) == IsOverlaps(b, a)
  {
  }

  /** A range that ends where another starts does not overlap it. */
  lemma TouchingRangesDoNotOverlap(a: DurationRange, b: DurationRange)
    requires a.end == b.start
    ensures !IsOverlaps(a, b) && !IsOverlaps(b, a)
  {
  }

  /** An empty range (start >= end) overlaps nothing. */
  lemma EmptyRangeOverlapsNothing(a: DurationRange, b: DurationRange)
    requires a.end <= a.start
    ensures !IsOverlaps(a, b)
  {
  }
}

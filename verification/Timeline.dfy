/** Half-open intervals on the fabric timeline and the constants that bound it. */
module Timeline {

  const NS_PER_SECOND: int := 1_000_000_000
  const NS_PER_DAY: int := 86_400 * NS_PER_SECOND

  /** No instant lies beyond the first of the year 2100, counted in nanoseconds since the epoch. */
  const MAX_TIMESTAMP_NS: int := 4_102_444_800 * NS_PER_SECOND

  /** Longest single reservation: one hundred years of 366 days. */
  const MAX_SPAN_NS: int := 100 * 366 * NS_PER_DAY

  /** Largest bandwidth the runtime accepts, one petabit per second. */
  const MAX_BANDWIDTH_BPS: int := 1_000_000_000_000_000

  datatype Option<+T> = None | Some(value: T)

  /** `[start, end)`: adjacent intervals share no instant. */
  datatype Interval = Interval(start: int, end: int) {
    predicate Empty() { end <= start }

    predicate Contains(t: int) { start <= t < end }

    predicate Overlaps(other: Interval) { start < other.end && other.start < end }

    predicate Within(other: Interval) { other.start <= start && end <= other.end }
  }

  const HORIZON := Interval(0, MAX_TIMESTAMP_NS)

  /** A window that a request may ask for: on the timeline, not empty, and not too long. */
  predicate ValidInterval(i: Interval) {
    && 0 <= i.start
    && i.end <= MAX_TIMESTAMP_NS
    && i.start < i.end
    && i.end - i.start <= MAX_SPAN_NS
  }

  ghost predicate Rising(s: seq<int>) { forall i, j :: 0 <= i < j < |s| ==> s[i] < s[j] }

  function Max(a: int, b: int): int { if a < b then b else a }

  function Min(a: int, b: int): int { if b < a then b else a }
}

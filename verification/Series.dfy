/** Expansion of a recurring request into the intervals of its members. */
module Series {
  import opened Timeline
  import opened Records

  /** The machine integer every timestamp and duration is computed in. */
  newtype Int64 = x: int | -0x8000_0000_0000_0000 <= x < 0x8000_0000_0000_0000

  predicate InInt64(x: int) { -0x8000_0000_0000_0000 <= x < 0x8000_0000_0000_0000 }

  datatype SeriesError = InvalidArgument | ResourceExhausted | InvalidInterval | Overflow

  datatype Expansion = Intervals(intervals: seq<Interval>) | Failed(error: SeriesError)

  /** Member `i` of a series is its first interval shifted by `i` periods. */
  function Member(first: Interval, period: int, i: nat): Interval {
    Interval(first.start + i * period, first.end + i * period)
  }

  function Span(i: Interval): int { i.end - i.start }

  /** Why a recurrence is refused, judged on unbounded integers. */
  function Objection(first: Interval, spec: Recurrence, maxMembers: nat): Option<SeriesError> {
    if !spec.enabled then None
    else if spec.count == 0 then Some(InvalidArgument)
    else if spec.count > maxMembers then Some(ResourceExhausted)
    else if !ValidInterval(first) then Some(InvalidInterval)
    else if spec.count > 1 && (spec.period <= 0 || spec.period < Span(first)) then Some(InvalidArgument)
    else if Member(first, spec.period, spec.count - 1).end > MAX_TIMESTAMP_NS then Some(Overflow)
    else None
  }

  lemma ProductMonotone(i: int, j: int, p: int)
    requires 0 <= i <= j && 0 <= p
    ensures 0 <= i * p <= j * p
  {
  }

  /** The division in the bound check asks whether the last member starts past the timeline. */
  lemma QuotientBound(room: int, period: int, last: int)
    requires 0 <= room && 0 < period && 0 <= last
    ensures last > room / period <==> last * period > room
  {
    var q := room / period;
    assert q * period <= room < q * period + period;
    if last > q {
      ProductMonotone(q + 1, last, period);
      assert (q + 1) * period == q * period + period;
    } else {
      ProductMonotone(last, q, period);
    }
  }

  /** Every member of an accepted series is a valid interval on the timeline. */
  lemma MemberValid(first: Interval, spec: Recurrence, maxMembers: nat, i: nat)
    requires spec.enabled && Objection(first, spec, maxMembers) == None && i < spec.count
    ensures ValidInterval(Member(first, spec.period, i)) && Span(Member(first, spec.period, i)) == Span(first)
    ensures 0 <= i * spec.period <= (spec.count - 1) * spec.period
  {
    if spec.count > 1 {
      ProductMonotone(i, spec.count - 1, spec.period);
    }
  }

  /** Members of an accepted series share no instant. */
  lemma MembersDisjoint(first: Interval, spec: Recurrence, maxMembers: nat, i: nat, j: nat)
    requires spec.enabled && Objection(first, spec, maxMembers) == None && i < j < spec.count
    ensures !Member(first, spec.period, i).Overlaps(Member(first, spec.period, j))
  {
    var p := spec.period;
    ProductMonotone(i + 1, j, p);
    assert (i + 1) * p == i * p + p;
  }

  /** The intervals an accepted request stands for. */
  predicate Expanded(first: Interval, spec: Recurrence, intervals: seq<Interval>) {
    if spec.enabled then
      |intervals| == spec.count && forall i :: 0 <= i < |intervals| ==> intervals[i] == Member(first, spec.period, i)
    else intervals == [first]
  }

  /**
   The expansion runs entirely in 64-bit integers: no intermediate value of any
   request, accepted or refused, overflows, and the answer is the one unbounded
   arithmetic gives.
   */
  method ExpandSeries(first: Interval, spec: Recurrence, maxMembers: nat) returns (r: Expansion)
    requires InInt64(first.start) && InInt64(first.end) && InInt64(spec.period)
    requires spec.count < 0x1_0000_0000 && maxMembers < 0x1_0000_0000
    ensures r.Failed? <==> Objection(first, spec, maxMembers).Some?
    ensures r.Failed? ==> r.error == Objection(first, spec, maxMembers).value
    ensures r.Intervals? ==> Expanded(first, spec, r.intervals)
  {
    if !spec.enabled { return Intervals([first]); }
    if spec.count == 0 { return Failed(InvalidArgument); }
    if spec.count > maxMembers { return Failed(ResourceExhausted); }
    if !ValidInterval(first) { return Failed(InvalidInterval); }
    var begin, period, limit := first.start as Int64, spec.period as Int64, MAX_TIMESTAMP_NS as Int64;
    var count := spec.count as Int64;
    if count > 1 && period <= 0 { return Failed(InvalidArgument); }
    var span := first.end as Int64 - begin;
    if count > 1 && period < span { return Failed(InvalidArgument); }
    if period > 0 {
      QuotientBound(limit as int - begin as int, period as int, count as int - 1);
      if count - 1 > (limit - begin) / period { return Failed(Overflow); }
    }
    var members: seq<Interval> := [];
    var i: Int64 := 0;
    while i < count
      invariant 0 <= i <= count && |members| == i as int
      invariant forall k :: 0 <= k < |members| ==> members[k] == Member(first, spec.period, k)
      invariant forall k :: 0 <= k < |members| ==> members[k].end <= MAX_TIMESTAMP_NS
    {
      OffsetBound(i as int, count as int, period as int, limit as int - begin as int);
      var offset := i * period;
      var start := begin + offset;
      if start > limit || span > limit - start {
        LastIsLatest(first, spec, i as int);
        return Failed(Overflow);
      }
      var member := Interval(start as int, (start + span) as int);
      if !ValidInterval(member) {
        assert false;
        return Failed(InvalidInterval);
      }
      members := members + [member];
      i := i + 1;
    }
    assert members[spec.count - 1] == Member(first, spec.period, spec.count - 1);
    return Intervals(members);
  }

  lemma OffsetBound(i: int, count: int, period: int, room: int)
    requires 0 <= i < count && 0 <= room
    requires count > 1 ==> 0 < period && (count - 1) * period <= room
    requires period > 0 ==> (count - 1) * period <= room
    ensures 0 <= i * period <= room
  {
    if count > 1 { ProductMonotone(i, count - 1, period); }
  }

  lemma LastIsLatest(first: Interval, spec: Recurrence, i: nat)
    requires i < spec.count && (spec.count > 1 ==> 0 <= spec.period)
    ensures Member(first, spec.period, i).end <= Member(first, spec.period, spec.count - 1).end
  {
    if spec.count > 1 { ProductMonotone(i, spec.count - 1, spec.period); }
  }
}

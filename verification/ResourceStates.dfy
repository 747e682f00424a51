/**
 The books of one resource: what is reserved, what is held and the two together, in
 accumulators that every entry enters and leaves at once, beside the entries in order of start.
 */
module ResourceStates {
  import opened Timeline
  import opened Claims
  import opened SegmentTree
  import opened Timelines
  import opened Entries

  ghost predicate SortedByStart(s: seq<IndexEntry>) {
    forall i, j :: 0 <= i < j < |s| ==> s[i].interval.start <= s[j].interval.start
  }

  ghost predicate DistinctKeys(s: seq<IndexEntry>) {
    forall i, j :: 0 <= i < j < |s| ==> s[i].Key() != s[j].Key()
  }

  ghost predicate Recorded(s: seq<IndexEntry>, m: Contents) {
    forall i :: 0 <= i < |s| ==> s[i].Key() in m && m[s[i].Key()] == s[i]
  }

  ghost predicate Covered(s: seq<IndexEntry>, m: Contents) {
    forall k :: k in m ==> exists i :: 0 <= i < |s| && s[i].Key() == k
  }

  /** The ordered list and the map hold the same entries, each once. */
  ghost predicate Listing(s: seq<IndexEntry>, m: Contents) {
    SortedByStart(s) && DistinctKeys(s) && Recorded(s, m) && Covered(s, m)
  }

  function Inserted(s: seq<IndexEntry>, i: nat, e: IndexEntry): (r: seq<IndexEntry>)
    requires i <= |s|
    ensures |r| == |s| + 1
    ensures forall j :: 0 <= j < |r| ==> r[j] == if j < i then s[j] else if j == i then e else s[j - 1]
  {
    s[..i] + [e] + s[i..]
  }

  lemma InsertedSortedDistinct(s: seq<IndexEntry>, i: nat, e: IndexEntry)
    requires SortedByStart(s) && DistinctKeys(s) && i <= |s| && forall j :: 0 <= j < |s| ==> s[j].Key() != e.Key()
    requires forall j :: 0 <= j < i ==> s[j].interval.start <= e.interval.start
    requires forall j :: i <= j < |s| ==> e.interval.start <= s[j].interval.start
    ensures SortedByStart(Inserted(s, i, e)) && DistinctKeys(Inserted(s, i, e))
  {
  }

  lemma InsertedRecorded(s: seq<IndexEntry>, m: Contents, i: nat, e: IndexEntry)
    requires Recorded(s, m) && e.Key() !in m && i <= |s|
    ensures Recorded(Inserted(s, i, e), m[e.Key() := e])
    ensures forall j :: 0 <= j < |s| ==> s[j].Key() != e.Key()
  {
  }

  lemma InsertedCovered(s: seq<IndexEntry>, m: Contents, i: nat, e: IndexEntry)
    requires Covered(s, m) && i <= |s|
    ensures Covered(Inserted(s, i, e), m[e.Key() := e])
  {
    var s', m' := Inserted(s, i, e), m[e.Key() := e];
    forall k | k in m' ensures exists j :: 0 <= j < |s'| && s'[j].Key() == k {
      if k == e.Key() {
        assert s'[i].Key() == k;
      } else {
        var j :| 0 <= j < |s| && s[j].Key() == k;
        assert s'[if j < i then j else j + 1].Key() == k;
      }
    }
  }

  lemma KeyedWith(m: Contents, e: IndexEntry)
    requires Keyed(m) && e.Wellformed()
    ensures Keyed(m[e.Key() := e])
  {
  }

  lemma ListingInsert(s: seq<IndexEntry>, m: Contents, i: nat, e: IndexEntry)
    requires Listing(s, m) && Keyed(m) && e.Key() !in m && i <= |s|
    requires forall j :: 0 <= j < i ==> s[j].interval.start <= e.interval.start
    requires forall j :: i <= j < |s| ==> e.interval.start <= s[j].interval.start
    ensures Listing(Inserted(s, i, e), m[e.Key() := e])
    ensures e.Wellformed() ==> Keyed(m[e.Key() := e])
  {
    hide SortedByStart, DistinctKeys, Recorded, Covered, Keyed, Inserted;
    InsertedRecorded(s, m, i, e);
    InsertedSortedDistinct(s, i, e);
    InsertedCovered(s, m, i, e);
    if e.Wellformed() { KeyedWith(m, e); }
  }

  // ---------------------------------------------------------------------------
  // Putting entries in order
  // ---------------------------------------------------------------------------

  /** What is not after something is not after anything behind it. */
  ghost predicate Orders(less: (IndexEntry, IndexEntry) -> bool) {
    && (forall a, b :: less(a, b) ==> !less(b, a))
    && (forall a, b, c :: !less(b, a) && !less(c, b) ==> !less(c, a))
  }

  /** No entry is listed after one it should precede. */
  ghost predicate Ordered(es: seq<IndexEntry>, less: (IndexEntry, IndexEntry) -> bool) {
    forall i, j :: 0 <= i < j < |es| ==> !less(es[j], es[i])
  }

  lemma OrderedInsert(es: seq<IndexEntry>, i: nat, e: IndexEntry, less: (IndexEntry, IndexEntry) -> bool)
    requires Orders(less) && Ordered(es, less) && i <= |es|
    requires (forall j :: 0 <= j < i ==> !less(e, es[j])) && (i < |es| ==> less(e, es[i]))
    ensures Ordered(Inserted(es, i, e), less)
  {
    forall j | i <= j < |es| ensures !less(es[j], e) {
      assert !less(es[i], e);
    }
  }

  lemma InsertedMembers(es: seq<IndexEntry>, i: nat, e: IndexEntry)
    requires i <= |es|
    ensures multiset(Inserted(es, i, e)) == multiset(es) + multiset{e}
  {
    assert es == es[..i] + es[i..];
  }

  lemma InsertedDistinct(es: seq<IndexEntry>, n: nat, ranked: seq<IndexEntry>, i: nat)
    requires DistinctKeys(es) && n < |es| && DistinctKeys(ranked) && multiset(ranked) == multiset(es[..n])
             && i <= |ranked|
    ensures DistinctKeys(Inserted(ranked, i, es[n]))
  {
    forall j | 0 <= j < |ranked| ensures ranked[j].Key() != es[n].Key() {
      assert ranked[j] in multiset(ranked);
      assert ranked[j] in es[..n];
    }
  }

  lemma NoneDistinct()
    ensures DistinctKeys([])
  {
  }

  method SortBy(es: seq<IndexEntry>, less: (IndexEntry, IndexEntry) -> bool) returns (sorted: seq<IndexEntry>)
    requires Orders(less)
    ensures Ordered(sorted, less) && multiset(sorted) == multiset(es)
    ensures DistinctKeys(es) ==> DistinctKeys(sorted)
  {
    hide Orders, DistinctKeys;
    NoneDistinct();
    sorted := [];
    var n := 0;
    while n < |es|
      invariant n <= |es| && Ordered(sorted, less) && multiset(sorted) == multiset(es[..n])
      invariant DistinctKeys(es) ==> DistinctKeys(sorted)
    {
      var i := 0;
      while i < |sorted| && !less(es[n], sorted[i])
        invariant i <= |sorted|
        invariant forall j :: 0 <= j < i ==> !less(es[n], sorted[j])
      {
        i := i + 1;
      }
      OrderedInsert(sorted, i, es[n], less);
      InsertedMembers(sorted, i, es[n]);
      assert es[..n + 1] == es[..n] + [es[n]];
      if DistinctKeys(es) { InsertedDistinct(es, n, sorted, i); }
      sorted := Inserted(sorted, i, es[n]);
      n := n + 1;
    }
    assert es[..n] == es;
  }

  /** By start, then by end, then by identity, then by name. */
  predicate Earlier(a: IndexEntry, b: IndexEntry) {
    if a.interval.start != b.interval.start then a.interval.start < b.interval.start
    else if a.interval.end != b.interval.end then a.interval.end < b.interval.end
    else if a.id != b.id then a.id < b.id
    else NameLess(a.resource, b.resource)
  }

  predicate ByName(a: IndexEntry, b: IndexEntry) { NameLess(a.resource, b.resource) }

  lemma NamesOrder()
    ensures forall a, b :: NameLess(a, b) ==> !NameLess(b, a)
    ensures forall a, b, c :: !NameLess(b, a) && !NameLess(c, b) ==> !NameLess(c, a)
    ensures Orders(ByName) && Orders(Earlier)
  {
    hide NameLess;
    forall a, b | NameLess(a, b) ensures !NameLess(b, a) {
      NameNotLessItself(a);
      if NameLess(b, a) { NameLessTrans(a, b, a); }
    }
    forall a, b, c | !NameLess(b, a) && !NameLess(c, b) ensures !NameLess(c, a) {
      NameNotLessItself(a);
      if a != b { NameLessTotal(a, b); }
      if b != c { NameLessTotal(b, c); }
      if NameLess(a, b) && NameLess(b, c) { NameLessTrans(a, b, c); }
    }
  }

  function Removed(s: seq<IndexEntry>, i: nat): (r: seq<IndexEntry>)
    requires i < |s|
    ensures |r| == |s| - 1
    ensures forall j :: 0 <= j < |r| ==> r[j] == if j < i then s[j] else s[j + 1]
  {
    s[..i] + s[i + 1..]
  }

  lemma RemovedSortedDistinct(s: seq<IndexEntry>, i: nat)
    requires SortedByStart(s) && DistinctKeys(s) && i < |s|
    ensures SortedByStart(Removed(s, i)) && DistinctKeys(Removed(s, i))
  {
  }

  lemma RemovedRecorded(s: seq<IndexEntry>, m: Contents, i: nat)
    requires DistinctKeys(s) && Recorded(s, m) && i < |s|
    ensures Recorded(Removed(s, i), m - {s[i].Key()})
  {
    var s', m' := Removed(s, i), m - {s[i].Key()};
    forall j | 0 <= j < |s'| ensures s'[j].Key() in m' && m'[s'[j].Key()] == s'[j] {
      var was := if j < i then j else j + 1;
      assert s'[j] == s[was] && s[was].Key() != s[i].Key();
    }
  }

  lemma RemovedCovered(s: seq<IndexEntry>, m: Contents, i: nat)
    requires Covered(s, m) && i < |s|
    ensures Covered(Removed(s, i), m - {s[i].Key()})
  {
    var s', m' := Removed(s, i), m - {s[i].Key()};
    forall k | k in m' ensures exists j :: 0 <= j < |s'| && s'[j].Key() == k {
      var j :| 0 <= j < |s| && s[j].Key() == k;
      assert s'[if j < i then j else j - 1].Key() == k;
    }
  }

  lemma KeyedWithout(m: Contents, k: EntryKey)
    requires Keyed(m) && k in m
    ensures Keyed(m - {k}) && |m - {k}| == |m| - 1 && m[k].Wellformed()
  {
    assert (m - {k}).Keys == m.Keys - {k};
  }

  lemma ListingRemove(s: seq<IndexEntry>, m: Contents, i: nat)
    requires Listing(s, m) && Keyed(m) && i < |s|
    ensures Listing(Removed(s, i), m - {s[i].Key()}) && Keyed(m - {s[i].Key()})
    ensures |m - {s[i].Key()}| == |m| - 1
    ensures s[i].Wellformed() && s[i].Key() in m && m[s[i].Key()] == s[i]
  {
    hide SortedByStart, DistinctKeys, Covered, Keyed, Removed;
    RemovedSortedDistinct(s, i);
    RemovedRecorded(s, m, i);
    RemovedCovered(s, m, i);
    KeyedWithout(m, s[i].Key());
  }

  /** Adding `amount` over `interval` keeps the combined load representable. */
  ghost predicate Room(m: Contents, interval: Interval, amount: int) {
    forall t :: interval.Contains(t) && HORIZON.Contains(t) ==> Load(ClaimsOf(m, Combined), t) + amount <= SATURATION
  }

  lemma NothingRecorded()
    ensures Listing([], map[]) && Keyed(map[]) && forall account :: ClaimsOf(map[], account) == multiset{}
  {
  }

  class ResourceState {
    const committed: IntervalCapacityIndex
    const holds: IntervalCapacityIndex
    const combined: IntervalCapacityIndex
    var byStart: seq<IndexEntry>
    var entryCount: nat
    ghost var entries: Contents

    ghost function Footprint(): set<object> { {this, committed, holds, combined} }

    ghost predicate Valid()
      reads Footprint()
    {
      && committed != holds && committed != combined && holds != combined
      && committed.Valid() && holds.Valid() && combined.Valid()
      && Keyed(entries) && Listing(byStart, entries)
      && entryCount == |byStart| == |entries|
      && committed.claims == ClaimsOf(entries, Reserved)
      && holds.claims == ClaimsOf(entries, OnHold)
      && combined.claims == ClaimsOf(entries, Combined)
    }

    constructor ()
      ensures Valid() && entries == map[] && fresh(Footprint())
    {
      hide IntervalCapacityIndex.Valid, Listing, Keyed, ClaimsOf, Load;
      committed := new IntervalCapacityIndex();
      holds := new IntervalCapacityIndex();
      combined := new IntervalCapacityIndex();
      byStart, entryCount, entries := [], 0, map[];
      new;
      NothingRecorded();
    }

    /** Where an entry starting at `start` goes: behind all entries that start no later. */
    method UpperBound(start: int) returns (i: nat)
      requires Listing(byStart, entries)
      ensures i <= |byStart|
      ensures forall j :: 0 <= j < i ==> byStart[j].interval.start <= start
      ensures forall j :: i <= j < |byStart| ==> start <= byStart[j].interval.start
    {
      i := 0;
      while i < |byStart| && byStart[i].interval.start <= start
        invariant i <= |byStart|
        invariant forall j :: 0 <= j < i ==> byStart[j].interval.start <= start
      {
        i := i + 1;
      }
    }

    method Put(e: IndexEntry)
      requires Valid() && e.Wellformed() && e.Key() !in entries
      requires Room(entries, e.interval, e.amount)
      modifies Footprint()
      ensures Valid() && entries == old(entries)[e.Key() := e]
    {
      hide IntervalCapacityIndex.Valid, Load, ClaimsOf, Listing, Keyed, Inserted;
      var i := UpperBound(e.interval.start);
      ListingInsert(byStart, entries, i, e);
      RoomForKind(e);
      PutClaims(e);
      byStart := Inserted(byStart, i, e);
      entryCount := entryCount + 1;
      entries := entries[e.Key() := e];
    }

    /** Room in the combined load is room in the load of either kind. */
    lemma RoomForKind(e: IndexEntry)
      requires Valid() && Room(entries, e.interval, e.amount)
      ensures forall t :: e.interval.Contains(t) && HORIZON.Contains(t) ==>
        && Load(ClaimsOf(entries, Reserved), t) + e.amount <= SATURATION
        && Load(ClaimsOf(entries, OnHold), t) + e.amount <= SATURATION
    {
      forall t | e.interval.Contains(t) && HORIZON.Contains(t)
        ensures Load(ClaimsOf(entries, Reserved), t) + e.amount <= SATURATION
        ensures Load(ClaimsOf(entries, OnHold), t) + e.amount <= SATURATION
      {
        CombinedIsSum(entries, t);
        KeyedNonNegative(entries, Reserved, t);
        KeyedNonNegative(entries, OnHold, t);
      }
    }

    /** The accumulator of the entry's kind and the combined one grow together. */
    method PutClaims(e: IndexEntry)
      requires Valid() && e.Wellformed() && e.Key() !in entries
      requires forall t :: e.interval.Contains(t) && HORIZON.Contains(t) ==>
        && Load(ClaimsOf(entries, Reserved), t) + e.amount <= SATURATION
        && Load(ClaimsOf(entries, OnHold), t) + e.amount <= SATURATION
        && Load(ClaimsOf(entries, Combined), t) + e.amount <= SATURATION
      modifies committed, holds, combined
      ensures committed.Valid() && committed.claims == ClaimsOf(entries[e.Key() := e], Reserved)
      ensures holds.Valid() && holds.claims == ClaimsOf(entries[e.Key() := e], OnHold)
      ensures combined.Valid() && combined.claims == ClaimsOf(entries[e.Key() := e], Combined)
    {
      hide IntervalCapacityIndex.Valid, Load, ClaimsOf, Listing, Keyed;
      if e.kind == Reservation {
        AddTo(committed, entries, e, Reserved);
        ClaimsPlus(entries, e, OnHold);
      } else {
        AddTo(holds, entries, e, OnHold);
        ClaimsPlus(entries, e, Reserved);
      }
      AddTo(combined, entries, e, Combined);
    }

    method TakeClaims(e: IndexEntry, ghost rest: Contents)
      requires committed != holds && committed != combined && holds != combined
      requires committed.Valid() && holds.Valid() && combined.Valid()
      requires e.Wellformed()
      requires committed.claims == ClaimsOf(rest, Reserved) + One(e, Reserved)
      requires holds.claims == ClaimsOf(rest, OnHold) + One(e, OnHold)
      requires combined.claims == ClaimsOf(rest, Combined) + One(e, Combined)
      modifies committed, holds, combined
      ensures committed.Valid() && committed.claims == ClaimsOf(rest, Reserved)
      ensures holds.Valid() && holds.claims == ClaimsOf(rest, OnHold)
      ensures combined.Valid() && combined.claims == ClaimsOf(rest, Combined)
    {
      hide IntervalCapacityIndex.Valid, Load, ClaimsOf, One;
      if e.kind == Reservation {
        RemoveFrom(committed, rest, e, Reserved);
        OneTakenBack(ClaimsOf(rest, OnHold), e, OnHold);
      } else {
        RemoveFrom(holds, rest, e, OnHold);
        OneTakenBack(ClaimsOf(rest, Reserved), e, Reserved);
      }
      RemoveFrom(combined, rest, e, Combined);
    }

    static method RemoveFrom(sum: IntervalCapacityIndex, ghost rest: Contents, e: IndexEntry, ghost account: Account)
      requires sum.Valid() && e.Wellformed() && account.Includes(e.kind)
      requires sum.claims == ClaimsOf(rest, account) + One(e, account)
      modifies sum
      ensures sum.Valid() && sum.claims == ClaimsOf(rest, account)
    {
      hide IntervalCapacityIndex.Valid, Load, ClaimsOf;
      OneTakenBack(ClaimsOf(rest, account), e, account);
      sum.Remove(e.interval, e.amount);
    }

    static method AddTo(sum: IntervalCapacityIndex, ghost m: Contents, e: IndexEntry, ghost account: Account)
      requires sum.Valid() && sum.claims == ClaimsOf(m, account)
      requires e.Wellformed() && e.Key() !in m && account.Includes(e.kind)
      requires forall t :: e.interval.Contains(t) && HORIZON.Contains(t) ==>
        Load(sum.claims, t) + e.amount <= SATURATION
      modifies sum
      ensures sum.Valid() && sum.claims == ClaimsOf(m[e.Key() := e], account)
    {
      hide IntervalCapacityIndex.Valid, Load, ClaimsOf;
      ClaimsPlus(m, e, account);
      sum.Add(e.interval, e.amount);
    }

    method Take(i: nat)
      requires Valid() && i < |byStart|
      modifies Footprint()
      ensures Valid() && entries == old(entries) - {old(byStart[i].Key())} && entryCount == |entries|
      ensures byStart == old(Removed(byStart, i))
    {
      hide IntervalCapacityIndex.Valid, Load, ClaimsOf, Listing, Keyed, Removed;
      var e := byStart[i];
      ghost var rest := entries - {e.Key()};
      ListingRemove(byStart, entries, i);
      ClaimsSplit(entries, e.Key(), Reserved);
      ClaimsSplit(entries, e.Key(), OnHold);
      ClaimsSplit(entries, e.Key(), Combined);
      TakeClaims(e, rest);
      byStart := Removed(byStart, i);
      entryCount := entryCount - 1;
      entries := rest;
    }

    /** Exact peak of one account over the window; zero off the timeline. */
    function Peak(account: Account, window: Interval): (r: int)
      requires Valid()
      reads Footprint()
      ensures if Clipped(window).Empty() then r == 0 else IsPeak(ClaimsOf(entries, account), Clipped(window), r)
    {
      hide IntervalCapacityIndex.Valid, IntervalCapacityIndex.Peak, ClaimsOf, Load, Keyed, Listing;
      match account
      case Reserved => committed.Peak(window)
      case OnHold => holds.Peak(window)
      case Combined => combined.Peak(window)
    }

    lemma StaysBounded(t: int)
      requires Valid() && HORIZON.Contains(t)
      ensures Load(ClaimsOf(entries, Combined), t) <= SATURATION
    {
      hide IntervalCapacityIndex.Valid, ClaimsOf, Load, Keyed, Listing;
      var peak := combined.Peak(Interval(t, t + 1));
    }

    /**
     The instants at which something changes on the resource within the window, the earliest of them if they are too
     many, and what is committed and held from there on.
     */
    method ChangePoints(window: Interval, maxPoints: nat) returns (points: seq<ChangePoint>, truncated: bool)
      requires Valid()
      ensures Exact(points, entries, window)
      ensures truncated <==>
        !window.Empty()
        && (|Sharing(entries, window)| > maxPoints + 1 || |Changes(entries, window)| > maxPoints + 1)
      ensures !window.Empty() && |Sharing(entries, window)| <= maxPoints + 1 ==>
        Leading(points, entries, window, maxPoints + 1)
      ensures !truncated && 0 <= window.start && !window.Empty() ==> StepFunction(points, entries, window)
    {
      hide IntervalCapacityIndex.Valid, Load, ClaimsOf, Keyed, Listing, Exact, StepFunction, Changes, Sharing, Leading;
      points, truncated := [], false;
      NoPoints(entries, window);
      if window.Empty() { return; }
      var marks, complete := Boundaries(window, maxPoints);
      truncated := !complete;
      var instants := SortUnique(marks);
      ghost var all := instants;
      if complete { RisingCount(instants, Changes(entries, window)); }
      if |instants| > maxPoints + 1 {
        instants, truncated := instants[..maxPoints + 1], true;
        assert forall x :: x in instants ==> x in marks;
      }
      points := Measure(instants, window);
      if complete { PrefixLeads(points, all, instants, entries, window, maxPoints + 1); }
      if !truncated && 0 <= window.start {
        ChangesMark(entries, marks, window);
        BoundariesMark(entries, marks, instants, window);
        PointsAreSteps(points, instants, entries, window);
      }
    }

    /** The starts and ends of the entries that share an instant with the window, cut to it. */
    method Boundaries(window: Interval, maxPoints: nat) returns (marks: seq<int>, complete: bool)
      requires Valid() && !window.Empty()
      ensures window.start in marks && forall x :: x in marks ==> window.start <= x
      ensures complete <==> |Sharing(entries, window)| <= maxPoints + 1
      ensures complete ==> forall x :: x in marks <==> x in Changes(entries, window)
      ensures Keyed(entries)
    {
      hide IntervalCapacityIndex.Valid, Load, ClaimsOf, Keyed, Listing, SeenChanges, SeenSharing, Sharing, Changes;
      marks, complete := [window.start], true;
      var i := 0;
      NothingSeen(byStart, window);
      while i < |byStart| && byStart[i].interval.start < window.end && complete
        invariant i <= |byStart| && |marks| == 1 + 2 * |SeenSharing(byStart, i, window)|
        invariant forall j :: 0 <= j < i ==> byStart[j].interval.start < window.end
        invariant forall x :: x in marks <==> x in SeenChanges(byStart, i, window)
        invariant complete <==> |SeenSharing(byStart, i, window)| <= maxPoints + 1
      {
        var interval := byStart[i].interval;
        SharingNext(byStart, entries, i, window);
        ChangesNext(byStart, i, window);
        if window.start < interval.end {
          marks := marks + [if interval.start < window.start then window.start else interval.start,
                            if interval.end > window.end then window.end else interval.end];
          complete := |marks| <= (maxPoints + 2) * 2;
        }
        i := i + 1;
      }
      ChangesWithin(byStart, i, window);
      BegunSeen(byStart, entries, i, window);
      if complete { AllChanges(byStart, entries, i, window); }
    }

    /** What is committed and held at each instant of the window. */
    method Measure(instants: seq<int>, window: Interval) returns (points: seq<ChangePoint>)
      requires Valid() && Rising(instants)
      ensures Exact(points, entries, window)
      ensures forall x :: x in instants && window.Contains(x) <==> exists i :: 0 <= i < |points| && points[i].at == x
      ensures (forall x :: x in instants ==> window.Contains(x)) ==> |points| == |instants|
    {
      hide IntervalCapacityIndex.Valid, Load, ClaimsOf, Keyed, Listing;
      points := [];
      var i := 0;
      while i < |instants|
        invariant i <= |instants| && Exact(points, entries, window)
        invariant forall j :: 0 <= j < |points| ==> points[j].at in instants[..i]
        invariant (forall x :: x in instants ==> window.Contains(x)) ==> |points| == i
        invariant forall j :: 0 <= j < i && window.Contains(instants[j]) ==>
          exists l :: 0 <= l < |points| && points[l].at == instants[j]
      {
        var t := instants[i];
        ghost var was := points;
        assert instants[..i + 1] == instants[..i] + [t];
        if window.Contains(t) {
          var committed, held := At(Reserved, t), At(OnHold, t);
          points := points + [ChangePoint(t, committed, held)];
          assert points[|was|].at == t;
        }
        assert forall j :: 0 <= j < |was| ==> points[j] == was[j];
        i := i + 1;
      }
      assert instants[..i] == instants;
      forall x | x in instants && window.Contains(x) ensures exists l :: 0 <= l < |points| && points[l].at == x {
        var j :| 0 <= j < |instants| && instants[j] == x;
      }
    }

    /** The three accumulators agree: at every instant the combined one is the sum of the other two. */
    lemma AccountsAddUp(t: int)
      requires Valid() && HORIZON.Contains(t)
      ensures At(Combined, t) == At(Reserved, t) + At(OnHold, t)
    {
      hide IntervalCapacityIndex.Valid, ClaimsOf, Load, Listing, At;
      CombinedIsSum(entries, t);
      AtIsLoad(Combined, t);
      AtIsLoad(Reserved, t);
      AtIsLoad(OnHold, t);
    }

    lemma AtIsLoad(account: Account, t: int)
      requires Valid() && HORIZON.Contains(t)
      ensures At(account, t) == Load(ClaimsOf(entries, account), t)
    {
    }

    /** The load of one account at an instant. */
    function At(account: Account, t: int): (r: int)
      requires Valid()
      reads Footprint()
      ensures HORIZON.Contains(t) ==> r == Load(ClaimsOf(entries, account), t)
    {
      hide IntervalCapacityIndex.Valid, ClaimsOf, Load, Keyed, Listing, ResourceState.Peak, ResourceState.Valid;
      var r := Peak(account, Interval(t, t + 1));
      InstantPeak(ClaimsOf(entries, account), t, r);
      r
    }

    /**
     Entries that share an instant with the window, in order. At most `scanLimit` entries are looked at, in order of
     start, and at most `outputLimit` are answered; `matched` counts all that were seen to share one.
     */
    method Overlapping(window: Interval, outputLimit: nat, scanLimit: nat)
      returns (out: seq<IndexEntry>, matched: nat, truncated: bool, ghost looked: set<EntryKey>)
      requires Valid()
      ensures Scans(looked, entries, window, scanLimit) && matched == |looked * Sharing(entries, window)|
      ensures Overlaps(out, entries, window) && Ordered(out, Earlier) && Foremost(out, entries, window)
      ensures |out| == if matched <= outputLimit then matched else outputLimit
      ensures Shows(out, looked, entries, window, matched <= outputLimit)
      ensures truncated <==> !window.Empty() && (|Begun(entries, window)| > scanLimit || matched > outputLimit)
      ensures !truncated ==> AllOverlaps(out, entries, window)
    {
      hide IntervalCapacityIndex.Valid, Load, ClaimsOf, Keyed, Listing, Picked, Overlaps, AllOverlaps, Ordered,
           Foremost, Begun, Sharing, Seen, SeenSharing, Scans, Shows;
      out, matched, truncated, looked := [], 0, false, {};
      PickedNone(byStart, entries, window);
      NoneLooked(entries, window, scanLimit);
      if window.Empty() { return; }
      var scanned, i := 0, 0;
      ghost var at: seq<nat> := [];
      while i < |byStart| && byStart[i].interval.start < window.end && scanned < scanLimit
        invariant i == scanned <= |byStart| && i <= scanLimit && matched == |SeenSharing(byStart, i, window)|
        invariant |out| == if matched <= outputLimit then matched else outputLimit
        invariant Picked(out, at, byStart, i, window)
        invariant forall j :: 0 <= j < i ==> byStart[j].interval.start < window.end
        invariant |out| == matched ==> forall j :: 0 <= j < i && byStart[j].interval.Overlaps(window) ==>
          byStart[j] in out
        invariant forall j :: 0 <= j < i && byStart[j].interval.Overlaps(window) ==>
          byStart[j] in out || forall l :: 0 <= l < |at| ==> at[l] < j
      {
        scanned := scanned + 1;
        PickedMore(out, at, byStart, i, window);
        SharingNext(byStart, entries, i, window);
        if window.start < byStart[i].interval.end {
          matched := matched + 1;
          if |out| < outputLimit {
            out := out + [byStart[i]];
            at := at + [i];
          }
        }
        i := i + 1;
      }
      var hitScanLimit := i < |byStart| && byStart[i].interval.start < window.end;
      truncated := hitScanLimit || matched > |out|;
      looked := Seen(byStart, i);
      BegunSeen(byStart, entries, i, window);
      LookedAt(byStart, entries, i, window, scanLimit);
      PickedShown(out, at, byStart, i, entries, window, |out| == matched);
      PickedOverlaps(out, at, byStart, i, entries, window);
      PickedForemost(out, at, byStart, i, entries, window);
      if !truncated {
        PickedAll(out, byStart, i, entries, window);
      }
      out := Arranged(out, window, looked, |out| == matched);
    }

    /** In order of start, end, identity and name. */
    method Arranged(out: seq<IndexEntry>, ghost window: Interval, ghost looked: set<EntryKey>, ghost all: bool)
      returns (sorted: seq<IndexEntry>)
      requires Overlaps(out, entries, window) && Foremost(out, entries, window)
      requires Shows(out, looked, entries, window, all)
      ensures Overlaps(sorted, entries, window) && Foremost(sorted, entries, window) && Ordered(sorted, Earlier)
      ensures |sorted| == |out| && (AllOverlaps(out, entries, window) ==> AllOverlaps(sorted, entries, window))
      ensures Shows(sorted, looked, entries, window, all)
    {
      hide Ordered, Orders, NameLess;
      NamesOrder();
      sorted := SortBy(out, Earlier);
      assert |multiset(sorted)| == |multiset(out)|;
      forall e ensures e in sorted <==> e in out {
        assert e in multiset(sorted) <==> e in multiset(out);
      }
      forall i | 0 <= i < |sorted|
        ensures sorted[i].Key() in entries && entries[sorted[i].Key()] == sorted[i]
        ensures sorted[i].interval.Overlaps(window)
      {
        assert sorted[i] in out;
      }
    }

    /** Position of the holder's entry among those that start at `start`; past the end when there is none. */
    method Locate(kind: HolderKind, id: Identity, generation: Option<nat>, start: int) returns (i: nat)
      requires Valid()
      ensures i <= |byStart|
      ensures i < |byStart| ==> Matches(byStart[i], kind, id, generation, start)
      ensures i == |byStart| ==> forall j :: 0 <= j < |byStart| ==> !Matches(byStart[j], kind, id, generation, start)
    {
      hide IntervalCapacityIndex.Valid, Load, ClaimsOf, DistinctKeys, Recorded, Covered, Keyed;
      i := 0;
      while i < |byStart| && byStart[i].interval.start < start
        invariant i <= |byStart|
        invariant forall j :: 0 <= j < i ==> byStart[j].interval.start < start
      {
        i := i + 1;
      }
      while i < |byStart| && byStart[i].interval.start == start
        invariant i <= |byStart|
        invariant forall j :: 0 <= j < i ==> !Matches(byStart[j], kind, id, generation, start)
        invariant forall j :: i <= j < |byStart| ==> start <= byStart[j].interval.start
      {
        if Matches(byStart[i], kind, id, generation, start) { return; }
        i := i + 1;
      }
      i := |byStart|;
    }
  }

  /** Entries of the map, each once, that share an instant with the window. */
  ghost predicate Overlaps(out: seq<IndexEntry>, m: Contents, window: Interval) {
    DistinctKeys(out) && Recorded(out, m) && forall i :: 0 <= i < |out| ==> out[i].interval.Overlaps(window)
  }

  /** None that shares an instant with a non-empty window is missing. */
  ghost predicate AllOverlaps(out: seq<IndexEntry>, m: Contents, window: Interval) {
    !window.Empty() ==> forall k :: k in m && m[k].interval.Overlaps(window) ==> m[k] in out
  }

  /** Where the load may change within the window: at its start, and where an entry begins or ends. */
  ghost function Changes(m: Contents, window: Interval): set<int> {
    {window.start} + (set k | k in m && m[k].interval.Overlaps(window) :: Max(m[k].interval.start, window.start))
    + set k | k in m && m[k].interval.Overlaps(window) :: Min(m[k].interval.end, window.end)
  }

  ghost function SeenChanges(s: seq<IndexEntry>, n: nat, window: Interval): set<int>
    requires n <= |s|
  {
    {window.start}
    + (set j | 0 <= j < n && s[j].interval.Overlaps(window) :: Max(s[j].interval.start, window.start))
    + set j | 0 <= j < n && s[j].interval.Overlaps(window) :: Min(s[j].interval.end, window.end)
  }

  lemma NothingSeen(s: seq<IndexEntry>, window: Interval)
    ensures SeenChanges(s, 0, window) == {window.start} && SeenSharing(s, 0, window) == {}
  {
  }

  lemma ChangesNext(s: seq<IndexEntry>, n: nat, window: Interval)
    requires n < |s|
    ensures SeenChanges(s, n + 1, window)
            == SeenChanges(s, n, window)
               + if s[n].interval.Overlaps(window)
                 then {Max(s[n].interval.start, window.start), Min(s[n].interval.end, window.end)} else {}
  {
  }

  lemma ChangesWithin(s: seq<IndexEntry>, n: nat, window: Interval)
    requires n <= |s| && !window.Empty()
    ensures window.start in SeenChanges(s, n, window)
    ensures forall x :: x in SeenChanges(s, n, window) ==> window.start <= x
  {
  }

  lemma AllChanges(s: seq<IndexEntry>, m: Contents, n: nat, window: Interval)
    requires Listing(s, m) && n <= |s| && SeenSharing(s, n, window) == Sharing(m, window)
    ensures SeenChanges(s, n, window) == Changes(m, window)
  {
    hide SortedByStart, Covered;
    forall j | 0 <= j < n && s[j].interval.Overlaps(window)
      ensures Max(s[j].interval.start, window.start) in Changes(m, window)
      ensures Min(s[j].interval.end, window.end) in Changes(m, window)
    {
      assert m[s[j].Key()] == s[j];
    }
    forall k | k in m && m[k].interval.Overlaps(window)
      ensures Max(m[k].interval.start, window.start) in SeenChanges(s, n, window)
      ensures Min(m[k].interval.end, window.end) in SeenChanges(s, n, window)
    {
      assert k in Sharing(m, window);
      var j :| 0 <= j < n && s[j].interval.Overlaps(window) && s[j].Key() == k;
    }
  }

  lemma ChangesMark(m: Contents, marks: seq<int>, window: Interval)
    requires forall x :: x in marks <==> x in Changes(m, window)
    ensures forall k :: k in m ==> MarksEntry(marks, m[k], window)
  {
  }

  /** Only changes are told, and one is left out only after so many earlier ones. */
  ghost predicate Leading(points: seq<ChangePoint>, m: Contents, window: Interval, count: nat) {
    && (forall i :: 0 <= i < |points| ==> points[i].at in Changes(m, window))
    && forall x :: x in Changes(m, window) && window.Contains(x)
                   && !(exists j :: 0 <= j < |points| && points[j].at == x) ==>
         |points| == count && forall i :: 0 <= i < |points| ==> points[i].at < x
  }

  lemma PrefixLeads(points: seq<ChangePoint>, all: seq<int>, instants: seq<int>, m: Contents, window: Interval,
                    count: nat)
    requires Rising(all) && forall x :: x in all <==> x in Changes(m, window)
    requires instants == if |all| <= count then all else all[..count]
    requires forall x :: x in instants && window.Contains(x) <==> exists i :: 0 <= i < |points| && points[i].at == x
    requires (forall x :: x in instants ==> window.Contains(x)) ==> |points| == |instants|
    requires !window.Empty() && forall x :: x in all ==> window.start <= x
    ensures Leading(points, m, window, count)
  {
    hide Changes;
    forall i | 0 <= i < |points| ensures points[i].at in instants && points[i].at in Changes(m, window) {
      var x := points[i].at;
      assert x in instants;
      assert x in all;
    }
    forall x | x in Changes(m, window) && window.Contains(x) && !(exists j :: 0 <= j < |points| && points[j].at == x)
      ensures |points| == count && forall i :: 0 <= i < |points| ==> points[i].at < x
    {
      LeftOutLast(all, instants, count, x);
      forall y | y in instants ensures window.Contains(y) {
        assert y in all;
      }
    }
  }

  /** What a prefix of a rising sequence leaves out comes after all of it. */
  lemma LeftOutLast(all: seq<int>, instants: seq<int>, count: nat, x: int)
    requires Rising(all) && x in all && x !in instants && instants == if |all| <= count then all else all[..count]
    ensures |instants| == count && forall y :: y in instants ==> y < x && y in all
  {
    var a :| 0 <= a < |all| && all[a] == x;
    forall l | 0 <= l < |instants| ensures all[l] in instants {
      assert instants[l] == all[l];
    }
    forall y | y in instants ensures y < x && y in all {
      var b :| 0 <= b < |instants| && instants[b] == y;
      assert all[b] == y;
    }
  }

  lemma {:induction false} RisingCount(r: seq<int>, all: set<int>)
    requires Rising(r) && forall x :: x in r <==> x in all
    ensures |r| == |all|
    decreases |r|
  {
    if r == [] {
      forall x ensures x !in all {
        assert x in r <==> x in all;
      }
    } else {
      var last, rest := r[|r| - 1], r[..|r| - 1];
      forall x ensures x in rest <==> x in all - {last} {
        if x in all - {last} {
          var j :| 0 <= j < |r| && r[j] == x;
          assert rest[j] == x;
        }
        if x in rest {
          var j :| 0 <= j < |rest| && rest[j] == x;
          assert r[j] == x;
        }
      }
      RisingCount(rest, all - {last});
      assert last in r;
    }
  }

  /** Whatever is missing begins no earlier than anything listed. */
  ghost predicate Foremost(out: seq<IndexEntry>, m: Contents, window: Interval) {
    forall k, e :: k in m && m[k].interval.Overlaps(window) && m[k] !in out && e in out ==>
      e.interval.start <= m[k].interval.start
  }

  /** The entries that begin before the window ends. */
  ghost function Begun(m: Contents, window: Interval): set<EntryKey> {
    set k | k in m && m[k].interval.start < window.end
  }

  /** The entries that share an instant with the window. */
  ghost function Sharing(m: Contents, window: Interval): set<EntryKey> {
    set k | k in m && m[k].interval.Overlaps(window)
  }

  /** As many of the entries that begin before the window ends as the limit allows, the earliest of them. */
  ghost predicate Scans(looked: set<EntryKey>, m: Contents, window: Interval, limit: nat) {
    && looked <= Begun(m, window)
    && |looked| == (if window.Empty() then 0 else if |Begun(m, window)| <= limit then |Begun(m, window)| else limit)
    && forall k, l :: k in Begun(m, window) && k !in looked && l in looked ==>
         m[l].interval.start <= m[k].interval.start
  }

  /** Only entries that were looked at; with `all`, every one of them that shares an instant with the window. */
  ghost predicate Shows(out: seq<IndexEntry>, looked: set<EntryKey>, m: Contents, window: Interval, all: bool) {
    && (forall e :: e in out ==> e.Key() in looked)
    && (all ==> forall k :: k in looked && k in m && m[k].interval.Overlaps(window) ==> m[k] in out)
  }

  lemma NoneLooked(m: Contents, window: Interval, limit: nat)
    ensures window.Empty() ==> Scans({}, m, window, limit)
    ensures {} * Sharing(m, window) == {} && forall all :: Shows([], {}, m, window, all)
  {
  }

  /** A scan within its limit misses nothing. */
  lemma ScansAll(looked: set<EntryKey>, m: Contents, window: Interval, limit: nat)
    requires Scans(looked, m, window, limit) && !window.Empty() && |Begun(m, window)| <= limit
    ensures looked == Begun(m, window) && looked * Sharing(m, window) == Sharing(m, window)
  {
    var rest := Begun(m, window) - looked;
    assert Begun(m, window) == looked + rest;
  }

  ghost function Seen(s: seq<IndexEntry>, n: nat): set<EntryKey>
    requires n <= |s|
  {
    set j | 0 <= j < n :: s[j].Key()
  }

  lemma LookedAt(s: seq<IndexEntry>, m: Contents, n: nat, window: Interval, limit: nat)
    requires Listing(s, m) && n <= |s| && n <= limit && !window.Empty()
    requires forall j :: 0 <= j < n ==> s[j].interval.start < window.end
    requires n == limit || n == |s| || window.end <= s[n].interval.start
    ensures Scans(Seen(s, n), m, window, limit) && Seen(s, n) * Sharing(m, window) == SeenSharing(s, n, window)
  {
    hide SortedByStart, Covered, DistinctKeys, Begun, Sharing, SeenSharing;
    SeenCount(s, n);
    BegunSeen(s, m, n, window);
    SeenBegun(s, m, n, window);
    forall k, l | k in Begun(m, window) && k !in Seen(s, n) && l in Seen(s, n)
      ensures k in m && l in m && m[l].interval.start <= m[k].interval.start
    {
      SeenFirst(s, m, n, window, k, l);
    }
  }

  /** What was not seen begins no earlier than what was. */
  lemma SeenFirst(s: seq<IndexEntry>, m: Contents, n: nat, window: Interval, k: EntryKey, l: EntryKey)
    requires Listing(s, m) && n <= |s| && k in Begun(m, window) && k !in Seen(s, n) && l in Seen(s, n)
    ensures k in m && l in m && m[l].interval.start <= m[k].interval.start
  {
    hide SortedByStart, DistinctKeys;
    var i :| 0 <= i < |s| && s[i].Key() == k;
    var j :| 0 <= j < n && s[j].Key() == l;
    SortedAt(s, j, i);
  }

  lemma SeenBegun(s: seq<IndexEntry>, m: Contents, n: nat, window: Interval)
    requires Listing(s, m) && n <= |s| && forall j :: 0 <= j < n ==> s[j].interval.start < window.end
    ensures Seen(s, n) <= Begun(m, window) && Seen(s, n) * Sharing(m, window) == SeenSharing(s, n, window)
    ensures |Seen(s, n)| <= |Begun(m, window)|
  {
    hide SortedByStart, Covered, DistinctKeys;
    SubsetSize(Seen(s, n), Begun(m, window));
  }

  lemma PickedShown(out: seq<IndexEntry>, at: seq<nat>, s: seq<IndexEntry>, n: nat, m: Contents, window: Interval,
                    all: bool)
    requires Picked(out, at, s, n, window) && Listing(s, m)
    requires all ==> forall j :: 0 <= j < n && s[j].interval.Overlaps(window) ==> s[j] in out
    ensures Shows(out, Seen(s, n), m, window, all)
  {
    hide SortedByStart, Covered, DistinctKeys;
  }

  ghost function SeenSharing(s: seq<IndexEntry>, n: nat, window: Interval): set<EntryKey>
    requires n <= |s|
  {
    set j | 0 <= j < n && s[j].interval.Overlaps(window) :: s[j].Key()
  }

  lemma SharingNext(s: seq<IndexEntry>, m: Contents, n: nat, window: Interval)
    requires Listing(s, m) && n < |s|
    ensures |SeenSharing(s, n + 1, window)|
            == |SeenSharing(s, n, window)| + if s[n].interval.Overlaps(window) then 1 else 0
  {
    hide SortedByStart, Recorded, Covered;
    assert s[n].Key() !in SeenSharing(s, n, window);
    assert SeenSharing(s, n + 1, window)
           == SeenSharing(s, n, window) + if s[n].interval.Overlaps(window) then {s[n].Key()} else {};
  }

  lemma {:induction false} SeenCount(s: seq<IndexEntry>, n: nat)
    requires DistinctKeys(s) && n <= |s|
    ensures |Seen(s, n)| == n
  {
    if n > 0 {
      SeenCount(s, n - 1);
      assert s[n - 1].Key() !in Seen(s, n - 1);
      assert Seen(s, n) == Seen(s, n - 1) + {s[n - 1].Key()};
    }
  }

  /** Having seen the first `n`, which all begin before the window ends, tells how many do, or that there are more. */
  lemma BegunSeen(s: seq<IndexEntry>, m: Contents, n: nat, window: Interval)
    requires Listing(s, m) && n <= |s| && forall j :: 0 <= j < n ==> s[j].interval.start < window.end
    ensures |SeenSharing(s, n, window)| <= |Sharing(m, window)|
    ensures n < |s| && s[n].interval.start < window.end ==> |Begun(m, window)| > n
    ensures n == |s| || window.end <= s[n].interval.start ==>
      |Begun(m, window)| == n && SeenSharing(s, n, window) == Sharing(m, window)
  {
    hide SortedByStart, Covered;
    SeenCount(s, n);
    SubsetSize(SeenSharing(s, n, window), Sharing(m, window));
    if n < |s| && s[n].interval.start < window.end {
      SeenCount(s, n + 1);
      assert Seen(s, n + 1) <= Begun(m, window);
      SubsetSize(Seen(s, n + 1), Begun(m, window));
    } else {
      AllSeen(s, m, n, window);
    }
  }

  lemma AllSeen(s: seq<IndexEntry>, m: Contents, n: nat, window: Interval)
    requires Listing(s, m) && n <= |s| && forall j :: 0 <= j < n ==> s[j].interval.start < window.end
    requires n == |s| || window.end <= s[n].interval.start
    ensures Begun(m, window) == Seen(s, n) && SeenSharing(s, n, window) == Sharing(m, window)
  {
    hide DistinctKeys, SortedByStart;
    forall k | k in m && m[k].interval.start < window.end ensures exists j :: 0 <= j < n && s[j].Key() == k {
      var j :| 0 <= j < |s| && s[j].Key() == k;
      if j >= n { SortedAt(s, n, j); }
    }
    hide Covered;
    forall k | k in m && m[k].interval.Overlaps(window) ensures k in SeenSharing(s, n, window) {
      var j :| 0 <= j < n && s[j].Key() == k;
    }
  }

  lemma SortedAt(s: seq<IndexEntry>, i: nat, j: nat)
    requires SortedByStart(s) && i <= j < |s|
    ensures s[i].interval.start <= s[j].interval.start
  {
  }

  lemma {:induction false} SubsetSize<T>(a: set<T>, b: set<T>)
    requires a <= b
    ensures |a| <= |b|
    decreases a
  {
    if a != {} {
      var x :| x in a;
      SubsetSize(a - {x}, b - {x});
    }
  }

  /** No more entries begin before the window ends than there are, and no more share an instant with it than begin. */
  lemma SharingWithinBegun(m: Contents, window: Interval)
    ensures |Sharing(m, window)| <= |Begun(m, window)| <= |m|
  {
    SubsetSize(Sharing(m, window), Begun(m, window));
    SubsetSize(Begun(m, window), m.Keys);
    assert |m.Keys| == |m|;
  }

  lemma PickedForemost(out: seq<IndexEntry>, at: seq<nat>, s: seq<IndexEntry>, n: nat, m: Contents, window: Interval)
    requires Picked(out, at, s, n, window) && Listing(s, m)
    requires forall j :: 0 <= j < n && s[j].interval.Overlaps(window) ==>
      s[j] in out || forall l :: 0 <= l < |at| ==> at[l] < j
    ensures Foremost(out, m, window)
  {
    hide DistinctKeys;
    forall k, e | k in m && m[k].interval.Overlaps(window) && m[k] !in out && e in out
      ensures e.interval.start <= m[k].interval.start
    {
      var j :| 0 <= j < |s| && s[j].Key() == k;
      var l :| 0 <= l < |out| && out[l] == e;
      assert at[l] < j;
      assert s[at[l]].interval.start <= s[j].interval.start;
    }
  }

  /** `out` lists overlapping entries found at the increasing positions `at` below `n`. */
  ghost predicate Picked(out: seq<IndexEntry>, at: seq<nat>, s: seq<IndexEntry>, n: nat, window: Interval) {
    && |at| == |out| && n <= |s|
    && (forall i :: 0 <= i < |at| ==> at[i] < n && out[i] == s[at[i]] && out[i].interval.Overlaps(window))
    && (forall i, j :: 0 <= i < j < |at| ==> at[i] < at[j])
  }

  lemma PickedNone(s: seq<IndexEntry>, m: Contents, window: Interval)
    ensures Picked([], [], s, 0, window) && Overlaps([], m, window) && (window.Empty() ==> AllOverlaps([], m, window))
    ensures Ordered([], Earlier) && Foremost([], m, window) && SeenSharing(s, 0, window) == {}
  {
  }

  lemma PickedMore(out: seq<IndexEntry>, at: seq<nat>, s: seq<IndexEntry>, n: nat, window: Interval)
    requires Picked(out, at, s, n, window) && n < |s|
    ensures Picked(out, at, s, n + 1, window)
    ensures s[n].interval.Overlaps(window) ==> Picked(out + [s[n]], at + [n], s, n + 1, window)
  {
  }

  lemma PickedOverlaps(out: seq<IndexEntry>, at: seq<nat>, s: seq<IndexEntry>, n: nat, m: Contents, window: Interval)
    requires Picked(out, at, s, n, window) && Listing(s, m)
    ensures Overlaps(out, m, window)
  {
    hide SortedByStart, Covered;
  }

  lemma PickedAll(out: seq<IndexEntry>, s: seq<IndexEntry>, n: nat, m: Contents, window: Interval)
    requires Listing(s, m) && n <= |s| && (n < |s| ==> window.end <= s[n].interval.start)
    requires forall j :: 0 <= j < n && s[j].interval.Overlaps(window) ==> s[j] in out
    ensures AllOverlaps(out, m, window)
  {
    hide DistinctKeys;
    forall k | k in m && m[k].interval.Overlaps(window) ensures m[k] in out {
      var j :| 0 <= j < |s| && s[j].Key() == k;
    }
  }

  /** The comparison the index makes; `None` accepts any generation. */
  predicate Matches(e: IndexEntry, kind: HolderKind, id: Identity, generation: Option<nat>, start: int) {
    && e.interval.start == start && e.kind == kind && e.id == id
    && (generation.Some? ==> e.generation == generation.value)
  }

  /** The entry of a key sits at exactly one position, recognisable without its resource. */
  lemma ListedOnce(s: seq<IndexEntry>, m: Contents, resource: ResourceName, k: EntryKey, i: nat)
    requires Listing(s, m) && k in m && k.resource == resource && i < |s|
    requires forall j :: j in m ==> j.resource == resource
    requires s[i].kind == k.kind && s[i].id == k.id
    ensures s[i].Key() == k && s[i] == m[k]
  {
  }
}

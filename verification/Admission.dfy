/** Evaluating a request: binding to current generations, the capacity verdict, and whom it could displace. */
module Admission {
  import opened Timeline
  import opened Claims
  import opened SegmentTree
  import opened Entries
  import opened ResourceStates
  import opened CapacityIndexing
  import opened Records
  import opened FabricState
  import opened Steps
  import opened Lineage
  import opened Effects

  // ---------------------------------------------------------------------------
  // Binding
  // ---------------------------------------------------------------------------

  /** References in strict order of name. */
  ghost predicate Canonical(refs: seq<ResourceRef>) {
    forall i, j :: 0 <= i < j < |refs| ==> NameLess(refs[i].resource, refs[j].resource)
  }

  lemma CanonicalDistinct(refs: seq<ResourceRef>)
    requires Canonical(refs)
    ensures Distinct(NamesOf(refs))
  {
    forall i, j | 0 <= i < j < |refs| ensures NamesOf(refs)[i] != NamesOf(refs)[j] {
      NameNotLessItself(refs[i].resource);
    }
  }

  function Put(refs: seq<ResourceRef>, i: nat, r: ResourceRef): (s: seq<ResourceRef>)
    requires i <= |refs|
    ensures |s| == |refs| + 1
    ensures forall j :: 0 <= j < |s| ==> s[j] == if j < i then refs[j] else if j == i then r else refs[j - 1]
  {
    refs[..i] + [r] + refs[i..]
  }

  lemma PutCanonical(refs: seq<ResourceRef>, i: nat, r: ResourceRef)
    requires Canonical(refs) && i <= |refs| && r.resource !in NamesOf(refs)
    requires forall j :: 0 <= j < i ==> NameLess(refs[j].resource, r.resource)
    requires i < |refs| ==> !NameLess(refs[i].resource, r.resource)
    ensures Canonical(Put(refs, i, r))
  {
    if i < |refs| {
      assert NamesOf(refs)[i] == refs[i].resource;
      NameLessTotal(refs[i].resource, r.resource);
      forall j | i < j < |refs| ensures NameLess(r.resource, refs[j].resource) {
        NameLessTrans(r.resource, refs[i].resource, refs[j].resource);
      }
    }
    hide NameLess;
    var s := Put(refs, i, r);
    forall a, b | 0 <= a < b < |s| ensures NameLess(s[a].resource, s[b].resource) {
      assert a < i || a == i || a - 1 >= i;
    }
  }

  lemma PutNames(refs: seq<ResourceRef>, i: nat, r: ResourceRef)
    requires i <= |refs|
    ensures forall n :: n in NamesOf(Put(refs, i, r)) <==> n == r.resource || n in NamesOf(refs)
  {
    var s := Put(refs, i, r);
    forall n ensures n in NamesOf(s) <==> n == r.resource || n in NamesOf(refs) {
      if n in NamesOf(refs) {
        var j :| 0 <= j < |refs| && NamesOf(refs)[j] == n;
        assert NamesOf(s)[if j < i then j else j + 1] == n;
      }
      if n == r.resource { assert NamesOf(s)[i] == n; }
      if n in NamesOf(s) {
        var j :| 0 <= j < |s| && NamesOf(s)[j] == n;
        if j != i { assert NamesOf(refs)[if j < i then j else j - 1] == n; }
      }
    }
  }

  /** Every requested resource is bound at its current generation, in canonical order. */
  ghost predicate BoundTo(ledger: Ledger, names: seq<ResourceName>, refs: seq<ResourceRef>) {
    && Canonical(refs) && AllCurrent(ledger, refs)
    && forall n :: n in names <==> n in NamesOf(refs)
  }

  predicate AllLive(ledger: Ledger, names: seq<ResourceName>) {
    forall i :: 0 <= i < |names| ==> Live(ledger, names[i])
  }

  /** Refused as soon as one name is unknown or withdrawn. */
  method ResolveBinding(ledger: Ledger, names: seq<ResourceName>) returns (bound: bool, refs: seq<ResourceRef>)
    requires Distinct(names)
    ensures bound <==> AllLive(ledger, names)
    ensures bound ==> BoundTo(ledger, names, refs)
  {
    hide NameLess;
    refs := [];
    var i := 0;
    while i < |names|
      invariant i <= |names| && Canonical(refs) && AllCurrent(ledger, refs)
      invariant forall n :: n in names[..i] <==> n in NamesOf(refs)
      invariant forall j :: 0 <= j < i ==> Live(ledger, names[j])
    {
      if !(names[i] in ledger && !ledger[names[i]].withdrawn) { return false, refs; }
      var r := ResourceRef(names[i], ledger[names[i]].capacity.generation);
      assert names[..i + 1] == names[..i] + [names[i]];
      assert names[i] !in names[..i];
      var k := 0;
      while k < |refs| && NameLess(refs[k].resource, names[i])
        invariant k <= |refs|
        invariant forall j :: 0 <= j < k ==> NameLess(refs[j].resource, names[i])
      {
        k := k + 1;
      }
      PutCanonical(refs, k, r);
      PutNames(refs, k, r);
      refs := Put(refs, k, r);
      i := i + 1;
    }
    assert names[..i] == names;
    return true, refs;
  }

  // ---------------------------------------------------------------------------
  // The verdict
  // ---------------------------------------------------------------------------

  /** What the request may be measured against: capacity less every headroom, and never below zero. */
  function Committable(c: Capacity, policy: Policy, headroom: int): int {
    Max(0, c.reservable - (c.headroom + policy.headroom + headroom))
  }

  predicate Maintained(ledger: Ledger, ref: ResourceRef, window: Interval) {
    IsCurrent(ledger, ref) && ledger[ref.resource].capacity.UnderMaintenance(window)
  }

  predicate InEmergency(ledger: Ledger, over: set<ResourceName>, ref: ResourceRef, policy: Policy) {
    IsCurrent(ledger, ref) && ref.resource in over && !policy.allowOvercommit
  }

  /** At some instant the capped sum passes the ceiling and whatever the policy allows on top. */
  ghost predicate Short(ledger: Ledger, m: Contents, ref: ResourceRef, window: Interval, amount: int, policy: Policy,
                        headroom: int)
  {
    && IsCurrent(ledger, ref)
    && exists t :: window.Contains(t) &&
         Min(MAX_BANDWIDTH_BPS, LoadOn(m, ref.resource, Combined, t) + amount)
         > Committable(ledger[ref.resource].capacity, policy, headroom) + policy.Slack()
  }

  /** Staleness outranks policy, policy outranks an emergency, and an emergency outranks a shortage. */
  ghost function Verdict(ledger: Ledger, over: set<ResourceName>, m: Contents, refs: seq<ResourceRef>, window: Interval,
                         amount: int, policy: Policy, headroom: int): Outcome
  {
    if exists i :: 0 <= i < |refs| && !IsCurrent(ledger, refs[i]) then StaleResource
    else if exists i :: 0 <= i < |refs| && Maintained(ledger, refs[i], window) then PolicyRejected
    else if exists i :: 0 <= i < |refs| && InEmergency(ledger, over, refs[i], policy) then EmergencyOvercommit
    else if exists i :: 0 <= i < |refs| && Short(ledger, m, refs[i], window, amount, policy, headroom)
        then InsufficientCapacity
    else Outcome.Committable
  }

  method UnderMaintenance(c: Capacity, window: Interval) returns (covered: bool)
    ensures covered <==> c.UnderMaintenance(window)
  {
    var i := 0;
    while i < |c.maintenance|
      invariant i <= |c.maintenance|
      invariant forall j :: 0 <= j < i ==> !c.maintenance[j].Overlaps(window)
    {
      if c.maintenance[i].Overlaps(window) { return true; }
      i := i + 1;
    }
    return false;
  }

  /** The peak the index reports decides the shortage. */
  lemma PeakDecides(ledger: Ledger, m: Contents, ref: ResourceRef, window: Interval, amount: int, policy: Policy,
                    headroom: int, peak: int)
    requires IsCurrent(ledger, ref) && ValidInterval(window) && PeakOn(m, ref.resource, Combined, window, peak)
    ensures var after := if peak > MAX_BANDWIDTH_BPS - amount then MAX_BANDWIDTH_BPS else peak + amount;
            var ceiling := Committable(ledger[ref.resource].capacity, policy, headroom);
            Short(ledger, m, ref, window, amount, policy, headroom) <==>
            after > ceiling && !(policy.allowOvercommit && after <= ceiling + policy.allowance)
  {
    assert Clipped(window) == window;
    var claims := ClaimsOf(On(m, ref.resource), Combined);
    assert IsPeak(claims, window, peak);
    var t0 :| window.Contains(t0) && Load(claims, t0) == peak;
    assert LoadOn(m, ref.resource, Combined, t0) == peak;
    forall t | window.Contains(t) ensures LoadOn(m, ref.resource, Combined, t) <= peak {
      assert Load(claims, t) <= peak;
    }
  }

  method Assess(index: CapacityIndex, ledger: Ledger, over: set<ResourceName>, refs: seq<ResourceRef>, window: Interval,
                amount: int, policy: Policy, headroom: int) returns (outcome: Outcome)
    requires index.Valid() && ValidInterval(window)
    ensures outcome == Verdict(ledger, over, index.contents, refs, window, amount, policy, headroom)
  {
    hide CapacityIndex.Valid, PeakOn, Short, Maintained, InEmergency, Committable;
    var stale, rejected, emergency, short := false, false, false, false;
    var i := 0;
    while i < |refs|
      invariant i <= |refs|
      invariant stale <==> exists j :: 0 <= j < i && !IsCurrent(ledger, refs[j])
      invariant rejected <==> exists j :: 0 <= j < i && Maintained(ledger, refs[j], window)
      invariant emergency <==> exists j :: 0 <= j < i && InEmergency(ledger, over, refs[j], policy)
      invariant short <==>
        exists j :: 0 <= j < i && Short(ledger, index.contents, refs[j], window, amount, policy, headroom)
    {
      var current, maintained, blocked, lacking :=
          AssessOne(index, ledger, over, refs[i], window, amount, policy, headroom);
      stale, rejected, emergency, short := stale || !current, rejected || maintained, emergency || blocked,
          short || lacking;
      i := i + 1;
    }
    if stale { return StaleResource; }
    if rejected { return PolicyRejected; }
    if emergency { return EmergencyOvercommit; }
    if short { return InsufficientCapacity; }
    return Outcome.Committable;
  }

  method AssessOne(index: CapacityIndex, ledger: Ledger, over: set<ResourceName>, ref: ResourceRef, window: Interval,
                   amount: int, policy: Policy, headroom: int)
    returns (current: bool, maintained: bool, blocked: bool, lacking: bool)
    requires index.Valid() && ValidInterval(window)
    ensures current <==> IsCurrent(ledger, ref)
    ensures maintained <==> Maintained(ledger, ref, window)
    ensures blocked <==> InEmergency(ledger, over, ref, policy)
    ensures lacking <==> Short(ledger, index.contents, ref, window, amount, policy, headroom)
  {
    hide CapacityIndex.Valid, PeakOn, LoadOn, Capacity.UnderMaintenance;
    if ref.resource !in ledger || ledger[ref.resource].withdrawn
       || ledger[ref.resource].capacity.generation != ref.generation {
      return false, false, false, false;
    }
    var capacity := ledger[ref.resource].capacity;
    var raw := capacity.reservable - (capacity.headroom + policy.headroom + headroom);
    var ceiling := if raw > 0 then raw else 0;
    var combined := index.Peak(ref.resource, Combined, window);
    PeakDecides(ledger, index.contents, ref, window, amount, policy, headroom, combined);
    var after := if combined > MAX_BANDWIDTH_BPS - amount then MAX_BANDWIDTH_BPS else combined + amount;
    current := true;
    blocked := ref.resource in over && !policy.allowOvercommit;
    maintained := UnderMaintenance(capacity, window);
    lacking := after > ceiling && !(policy.allowOvercommit && after <= ceiling + policy.allowance);
  }

  /** Assesses window after window and stops at the first that does not pass. */
  method AssessAll(index: CapacityIndex, ledger: Ledger, over: set<ResourceName>, refs: seq<ResourceRef>,
                   windows: seq<Interval>, amount: int, policy: Policy, headroom: int)
    returns (outcome: Outcome, failing: nat)
    requires index.Valid() && forall i :: 0 <= i < |windows| ==> ValidInterval(windows[i])
    ensures outcome == Outcome.Committable ==>
      AllCommittable(ledger, over, index.contents, refs, windows, amount, policy, headroom)
    ensures outcome != Outcome.Committable ==>
      && failing < |windows| && outcome
         == Verdict(ledger, over, index.contents, refs, windows[failing], amount, policy, headroom)
      && AllCommittable(ledger, over, index.contents, refs, windows[..failing], amount, policy, headroom)
  {
    hide CapacityIndex.Valid, Verdict;
    failing := 0;
    while failing < |windows|
      invariant failing <= |windows|
      invariant forall j :: 0 <= j < failing ==>
        Verdict(ledger, over, index.contents, refs, windows[j], amount, policy, headroom) == Outcome.Committable
    {
      outcome := Assess(index, ledger, over, refs, windows[failing], amount, policy, headroom);
      if outcome != Outcome.Committable { return; }
      failing := failing + 1;
    }
    outcome := Outcome.Committable;
  }

  ghost predicate AllCommittable(ledger: Ledger, over: set<ResourceName>, m: Contents, refs: seq<ResourceRef>,
                                 windows: seq<Interval>, amount: int, policy: Policy, headroom: int)
  {
    forall i :: 0 <= i < |windows| ==>
        Verdict(ledger, over, m, refs, windows[i], amount, policy, headroom) == Outcome.Committable
  }

  /** Every window closes exactly when none of them fails. */
  lemma VerdictsDecide(ledger: Ledger, over: set<ResourceName>, m: Contents, refs: seq<ResourceRef>,
                       windows: seq<Interval>, amount: int, policy: Policy, headroom: int)
    ensures AllCommittable(ledger, over, m, refs, windows, amount, policy, headroom) <==>
            !exists i :: 0 <= i < |windows|
                && Verdict(ledger, over, m, refs, windows[i], amount, policy, headroom) != Outcome.Committable
  {
    hide Verdict;
  }

  /** A committable verdict is the capacity test of an admission step, with the policy's slack. */
  lemma CommittableFits(ledger: Ledger, over: set<ResourceName>, m: Contents, refs: seq<ResourceRef>, window: Interval,
                        amount: int, policy: Policy, headroom: int)
    requires 0 <= headroom
    requires Verdict(ledger, over, m, refs, window, amount, policy, headroom) == Outcome.Committable
    ensures AllCurrent(ledger, refs)
    ensures FitsIn(ledger, m, NamesOf(refs), window, amount, policy.Slack())
  {
    hide LoadOn, Capacity.UnderMaintenance;
    forall i, t | 0 <= i < |refs| && window.Contains(t)
      ensures refs[i].resource in ledger
      ensures Min(MAX_BANDWIDTH_BPS, LoadOn(m, refs[i].resource, Combined, t) + amount)
              <= ledger[refs[i].resource].capacity.Ceiling() + policy.Slack()
    {
      assert IsCurrent(ledger, refs[i]) && !Short(ledger, m, refs[i], window, amount, policy, headroom);
      CommittableBelowCeiling(ledger[refs[i].resource].capacity, policy, headroom);
    }
  }

  lemma CommittableBelowCeiling(c: Capacity, policy: Policy, headroom: int)
    requires 0 <= headroom
    ensures Committable(c, policy, headroom) <= c.Ceiling()
  {
  }

  /** Less load fits wherever more did. */
  lemma FitsBeneath(ledger: Ledger, high: Contents, low: Contents, names: seq<ResourceName>, window: Interval,
                    amount: int, allowance: nat)
    requires FitsIn(ledger, high, names, window, amount, allowance)
    requires forall i, t :: 0 <= i < |names| && window.Contains(t) ==>
      LoadOn(low, names[i], Combined, t) <= LoadOn(high, names[i], Combined, t)
    ensures FitsIn(ledger, low, names, window, amount, allowance)
  {
    hide LoadOn;
  }

  // ---------------------------------------------------------------------------
  // Whom a request may displace
  // ---------------------------------------------------------------------------

  /** Displacement order: guarantee class, then identity, then generation. */
  predicate Sooner(a: IndexEntry, b: IndexEntry) {
    if a.guarantee != b.guarantee then a.guarantee.Rank() < b.guarantee.Rank()
    else if a.id != b.id then a.id < b.id
    else a.generation < b.generation
  }

  /** No entry is listed after one it should precede. */
  ghost predicate Ranked(es: seq<IndexEntry>) { Ordered(es, Sooner) }

  /** Sorts by displacement order. */
  method Rank(es: seq<IndexEntry>) returns (ranked: seq<IndexEntry>)
    ensures Ranked(ranked) && multiset(ranked) == multiset(es)
    ensures DistinctKeys(es) ==> DistinctKeys(ranked)
  {
    hide Ordered, DistinctKeys;
    assert Orders(Sooner);
    ranked := SortBy(es, Sooner);
  }

  /** Reservations of a lower class than the requester's that the policy lets it displace. */
  predicate Displaceable(e: IndexEntry, requester: GuaranteeClass, policy: Policy, self: Identity) {
    && e.kind == Reservation && e.id != self && e.guarantee.Rank() < requester.Rank()
    && (e.guarantee == Guaranteed ==> policy.recallGuaranteed)
    && (e.guarantee == Protected ==> policy.recallProtected)
  }

  lemma ChosenDistinct(es: seq<IndexEntry>, i: nat, chosen: seq<IndexEntry>)
    requires DistinctKeys(es) && DistinctKeys(chosen) && i < |es| && forall e :: e in chosen ==> e in es[..i]
    ensures DistinctKeys(chosen + [es[i]])
  {
    forall j | 0 <= j < |chosen| ensures chosen[j].Key() != es[i].Key() {
      assert chosen[j] in chosen;
    }
  }

  /**
   The displaceable reservations that share an instant with the window on a resource, least entitled first and each
   once: all those, and only those, that a scan of so many entries comes by.
   */
  ghost predicate CandidateList(cs: seq<IndexEntry>, m: Contents, resource: ResourceName, window: Interval,
                                requester: GuaranteeClass, policy: Policy, self: Identity, scanLimit: nat)
  {
    && Ranked(cs) && Overlaps(cs, On(m, resource), window)
    && (forall i :: 0 <= i < |cs| ==> cs[i].resource == resource && Displaceable(cs[i], requester, policy, self))
    && exists looked :: Scans(looked, On(m, resource), window, scanLimit)
                        && (forall e :: e in cs ==> e.Key() in looked)
                        && forall k :: k in looked ==> !Overlooked(cs, m, resource, window, requester, policy, self, k)
  }

  /** A displaceable reservation that shares an instant with the window and is not listed. */
  ghost predicate Overlooked(cs: seq<IndexEntry>, m: Contents, resource: ResourceName, window: Interval,
                             requester: GuaranteeClass, policy: Policy, self: Identity, k: EntryKey)
  {
    && k in m && k in On(m, resource) && m[k].interval.Overlaps(window)
    && Displaceable(m[k], requester, policy, self) && m[k] !in cs
  }

  method PreemptionCandidates(index: CapacityIndex, resource: ResourceName, window: Interval, requester: GuaranteeClass,
                              policy: Policy, self: Identity, scanLimit: nat) returns (candidates: seq<IndexEntry>)
    requires index.Valid()
    ensures CandidateList(candidates, index.contents, resource, window, requester, policy, self, scanLimit)
  {
    hide CapacityIndex.Valid, Ranked, Displaceable, DistinctKeys, Ordered, Overlaps, Foremost, AllOverlaps, Begun,
         Sharing, On, CandidateList, Scans, Shows;
    NoneDistinct();
    var overlaps, total, truncated, looked := index.Overlapping(resource, window, scanLimit, scanLimit);
    OverlapsDistinct(overlaps, On(index.contents, resource), window);
    var chosen: seq<IndexEntry> := [];
    var i := 0;
    while i < |overlaps|
      invariant i <= |overlaps|
      invariant forall e :: e in chosen <==> e in overlaps[..i] && Displaceable(e, requester, policy, self)
      invariant DistinctKeys(chosen)
    {
      assert overlaps[..i + 1] == overlaps[..i] + [overlaps[i]];
      if Displaceable(overlaps[i], requester, policy, self) {
        ChosenDistinct(overlaps, i, chosen);
        chosen := chosen + [overlaps[i]];
      }
      i := i + 1;
    }
    assert overlaps[..i] == overlaps;
    candidates := Rank(chosen);
    forall e ensures e in candidates <==> e in chosen {
      assert e in multiset(candidates) <==> e in multiset(chosen);
    }
    LookedMatch(looked, On(index.contents, resource), window, scanLimit);
    ChosenAreCandidates(candidates, overlaps, index.contents, resource, window, requester, policy, self, scanLimit,
                        looked);
  }

  /** No more can match than is looked at. */
  lemma LookedMatch(looked: set<EntryKey>, m: Contents, window: Interval, limit: nat)
    requires Scans(looked, m, window, limit)
    ensures |looked * Sharing(m, window)| <= limit
  {
    SubsetSize(looked * Sharing(m, window), looked);
  }

  lemma OverlapsDistinct(es: seq<IndexEntry>, m: Contents, window: Interval)
    requires Overlaps(es, m, window)
    ensures DistinctKeys(es)
  {
  }

  lemma ChosenAreCandidates(cs: seq<IndexEntry>, overlaps: seq<IndexEntry>, m: Contents, resource: ResourceName,
                            window: Interval, requester: GuaranteeClass, policy: Policy, self: Identity,
                            scanLimit: nat, looked: set<EntryKey>)
    requires Ranked(cs) && DistinctKeys(cs)
    requires forall e :: e in cs <==> e in overlaps && Displaceable(e, requester, policy, self)
    requires Overlaps(overlaps, On(m, resource), window) && Scans(looked, On(m, resource), window, scanLimit)
    requires Shows(overlaps, looked, On(m, resource), window, true)
    ensures CandidateList(cs, m, resource, window, requester, policy, self, scanLimit)
  {
    hide Ranked, Displaceable, Scans, DistinctKeys;
    forall i | 0 <= i < |cs|
      ensures cs[i].Key() in On(m, resource) && On(m, resource)[cs[i].Key()] == cs[i]
      ensures cs[i].interval.Overlaps(window) && cs[i].resource == resource
      ensures Displaceable(cs[i], requester, policy, self)
    {
      assert cs[i] in cs;
      var j :| 0 <= j < |overlaps| && overlaps[j] == cs[i];
    }
    forall k | k in looked && k in On(m, resource) && m[k].interval.Overlaps(window)
               && Displaceable(m[k], requester, policy, self)
      ensures m[k] in cs
    {
      assert On(m, resource)[k] in overlaps;
    }
  }

  lemma CandidateParts(cs: seq<IndexEntry>, m: Contents, resource: ResourceName, window: Interval,
                       requester: GuaranteeClass, policy: Policy, self: Identity, scanLimit: nat)
    requires CandidateList(cs, m, resource, window, requester, policy, self, scanLimit)
    ensures DistinctKeys(cs)
    ensures forall i :: 0 <= i < |cs| ==>
      && cs[i].Key() in m && m[cs[i].Key()] == cs[i] && cs[i].resource == resource && cs[i].kind == Reservation
      && Displaceable(cs[i], requester, policy, self)
  {
    hide Ranked, Scans;
  }
}

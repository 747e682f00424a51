/** Obligations beyond a resource's ceiling: how they are noticed, and in which order they are given up. */
module Overcommitment {
  import opened Timeline
  import opened Claims
  import opened SegmentTree
  import opened Entries
  import opened ResourceStates
  import opened CapacityIndexing
  import opened Suspending
  import opened Records
  import opened FabricState
  import opened Steps
  import opened Lineage
  import opened Closure
  import opened Runs
  import opened RecordIndexing
  import opened Bounds
  import opened Effects
  import opened Admission
  import opened Deadlines
  import opened Refreshing

  /** What may be committed on a resource; nothing once it is withdrawn. */
  function CeilingOf(ledger: Ledger, resource: ResourceName): int
    requires resource in ledger
  {
    if ledger[resource].withdrawn then 0 else ledger[resource].capacity.Ceiling()
  }

  /** A consuming record of the resource that holds a binding the ledger does not bear out. */
  predicate Stranded(ledger: Ledger, r: Record, resource: ResourceName) {
    r.Consumes() && r.Binds(resource) && !AllCurrent(ledger, r.refs)
  }

  /** Stranded obligations that still take an interval, one per record. */
  function Outstanding(s: State, resource: ResourceName): Contents {
    map k | k in KeysInPlay(s) && k.resource == resource && k.kind == Reservation && s.HasCurrent(k.id)
      && Stranded(s.ledger, s.CurrentRecord(k.id), resource) && !s.CurrentRecord(k.id).Window().Empty()
      :: s.CurrentRecord(k.id).Entry(resource)
  }

  lemma OutstandingIs(s: State, resource: ResourceName, id: Identity)
    ensures var k := EntryKey(Reservation, id, resource);
            && (k in Outstanding(s, resource) <==>
                  s.HasCurrent(id) && Stranded(s.ledger, s.CurrentRecord(id), resource)
                      && !s.CurrentRecord(id).Window().Empty())
            && (k in Outstanding(s, resource) ==> Outstanding(s, resource)[k] == s.CurrentRecord(id).Entry(resource))
  {
    if s.HasCurrent(id) && Stranded(s.ledger, s.CurrentRecord(id), resource) {
      var r := s.CurrentRecord(id);
      var i :| 0 <= i < |r.refs| && r.refs[i].resource == resource;
      assert EntryKey(Reservation, Key(id, s.current[id]).id, s.records[Key(id, s.current[id])].refs[i].resource)
             == EntryKey(Reservation, id, resource);
    }
  }

  lemma OutstandingKeyed(s: State, resource: ResourceName)
    requires Healthy(s)
    ensures Keyed(Outstanding(s, resource)) && Representable(Outstanding(s, resource))
  {
    hide Inv, Modest;
    InvSized(s);
    var m := Outstanding(s, resource);
    forall k | k in m ensures m[k].Key() == k && m[k].Wellformed() {
      BoundName(s.CurrentRecord(k.id), resource);
      FiledSized(s, k.id);
    }
    forall r, t | HORIZON.Contains(t) ensures LoadOn(m, r, Combined, t) <= SATURATION {
      ModestHere(s, r, t);
      OutstandingDemand(s, resource, r, t);
    }
  }

  lemma FiledSized(s: State, id: Identity)
    requires Sized(s) && s.HasCurrent(id)
    ensures var r := s.CurrentRecord(id); r.id == id && 0 < r.terms.amount && "" !in NamesOf(r.refs)
  {
  }

  lemma ModestHere(s: State, r: ResourceName, t: int)
    requires Modest(s) && HORIZON.Contains(t)
    ensures LoadOn(Demand(s), r, Combined, t) <= SATURATION
  {
  }

  lemma OutstandingDemand(s: State, resource: ResourceName, r: ResourceName, t: int)
    requires Sized(s) && HORIZON.Contains(t)
    ensures LoadOn(Outstanding(s, resource), r, Combined, t) <= LoadOn(Demand(s), r, Combined, t)
  {
    hide Demand, Load, ClaimsOf, Sized;
    DemandKeyed(s);
    OnKeyed(Demand(s), r);
    var a, b := On(Outstanding(s, resource), r), On(Demand(s), r);
    forall k | k in a && Weight(a[k], Combined, t) != 0
      ensures k in b && Weight(a[k], Combined, t) <= Weight(b[k], Combined, t)
    {
      OnDemand(s, r, k);
      OutstandingStake(s, resource, k);
      StakeCovers(s, k, t);
    }
    LoadDominated(a, b, Combined, t);
  }

  lemma OutstandingStake(s: State, resource: ResourceName, k: EntryKey)
    requires k in Outstanding(s, resource)
    ensures Stake(s, k) == Some(Outstanding(s, resource)[k].(interval := HORIZON))
  {
    hide Record.Window, AllCurrent;
  }

  lemma StakeCovers(s: State, k: EntryKey, t: int)
    requires Sized(s) && Stake(s, k).Some? && HORIZON.Contains(t)
    ensures Weight(Stake(s, k).value, Combined, t) == Stake(s, k).value.amount > 0
  {
  }

  /** Some instant carries more than the limit. */
  ghost predicate Surpasses(m: Contents, resource: ResourceName, account: Account, limit: int) {
    exists t :: HORIZON.Contains(t) && LoadOn(m, resource, account, t) > limit
  }

  /**
   Live commitments, or the obligations stranded at other generations, pass what
   the resource may carry now.
   */
  ghost predicate Overcommitted(s: State, m: Contents, resource: ResourceName)
    requires resource in s.ledger
  {
    || Surpasses(m, resource, Reserved, CeilingOf(s.ledger, resource))
    || Surpasses(Outstanding(s, resource), resource, Combined, CeilingOf(s.ledger, resource))
  }

  /** A peak over the horizon decides whether a limit is passed. */
  lemma PeakSurpasses(m: Contents, resource: ResourceName, account: Account, limit: int, peak: int)
    requires PeakOn(m, resource, account, HORIZON, peak)
    ensures Surpasses(m, resource, account, limit) <==> peak > limit
  {
    assert Clipped(HORIZON) == HORIZON;
    var claims := ClaimsOf(On(m, resource), account);
    assert IsPeak(claims, HORIZON, peak);
    if peak > limit {
      var t :| HORIZON.Contains(t) && Load(claims, t) == peak;
      assert LoadOn(m, resource, account, t) > limit;
    }
  }

  /** The resource's degraded state follows its obligations; a change is recorded. */
  ghost function Detected(s: State, m: Contents, resource: ResourceName): State {
    if resource !in s.ledger || Overcommitted(s, m, resource) == (resource in s.overcommitted) then s
    else Written(s, OvercommitMutation(resource, resource in s.overcommitted))
  }

  function OvercommitSet(s: State, resource: ResourceName, over: bool): State {
    s.(journal := s.journal + [OvercommitMutation(resource, !over)], overcommitted :=
       Marked(s.overcommitted, resource, over))
  }

  function Marked(names: set<ResourceName>, resource: ResourceName, over: bool): set<ResourceName> {
    if over then names + {resource} else names - {resource}
  }

  lemma DetectedBy(s: State, m: Contents, resource: ResourceName, over: bool, s': State)
    requires resource in s.ledger && over == Overcommitted(s, m, resource)
    requires s' == if over == (resource in s.overcommitted) then s else OvercommitSet(s, resource, over)
    ensures s' == Detected(s, m, resource) && Reaches(s, s', true)
    ensures s'.ledger == s.ledger && s'.records == s.records && s'.current == s.current && s'.holds == s.holds
  {
    hide Overcommitted, Reaches;
    ReachesItself(s, true);
    if over != (resource in s.overcommitted) {
      ReachesByStep(s, Note(OvercommitMutation(resource, !over)), true);
    }
  }

  /** Accumulating the stranded obligations of some records. */
  function OutstandingAmong(s: State, resource: ResourceName, keys: set<Key>): Contents {
    map k | k in Outstanding(s, resource) && k.id in s.current && Key(k.id, s.current[k.id]) in keys ::
        Outstanding(s, resource)[k]
  }

  lemma OutstandingNext(s: State, resource: ResourceName, keys: set<Key>, key: Key)
    requires Healthy(s) && key in s.records && key !in keys
    ensures var r, k := s.records[key], EntryKey(Reservation, key.id, resource);
            if Stranded(s.ledger, r, resource) && !r.Window().Empty() then
              && k !in OutstandingAmong(s, resource, keys) && r.Entry(resource).Key() == k
              && k in Outstanding(s, resource) && Outstanding(s, resource)[k] == r.Entry(resource)
              && OutstandingAmong(s, resource, keys + {key})
                 == OutstandingAmong(s, resource, keys)[k := r.Entry(resource)]
            else OutstandingAmong(s, resource, keys + {key}) == OutstandingAmong(s, resource, keys)
  {
    hide Healthy, Record.Window, AllCurrent, Outstanding;
    HealthyRecord(s, key);
    OutstandingIs(s, resource, key.id);
    SupersededIdle(s, key);
    forall k | k in Outstanding(s, resource) ensures k == EntryKey(Reservation, k.id, resource) {
      OutstandingShape(s, resource, k);
    }
  }

  lemma OutstandingShape(s: State, resource: ResourceName, k: EntryKey)
    requires k in Outstanding(s, resource)
    ensures k == EntryKey(Reservation, k.id, resource)
  {
  }

  lemma SupersededIdle(s: State, key: Key)
    requires Healthy(s) && key in s.records
    ensures s.records[key].Consumes() ==>
      key.id in s.current && s.current[key.id] == key.generation && s.HasCurrent(key.id)
  {
    hide Healthy;
    HealthyRecord(s, key);
  }

  lemma AmongPart(s: State, resource: ResourceName, keys: set<Key>)
    ensures forall k :: k in OutstandingAmong(s, resource, keys) ==>
      k in Outstanding(s, resource) && OutstandingAmong(s, resource, keys)[k] == Outstanding(s, resource)[k]
  {
    hide Outstanding;
  }

  lemma AmongAll(s: State, resource: ResourceName)
    ensures OutstandingAmong(s, resource, {}) == map[]
    ensures OutstandingAmong(s, resource, s.records.Keys) == Outstanding(s, resource)
  {
    var m := Outstanding(s, resource);
    forall k | k in m ensures k.id in s.current && Key(k.id, s.current[k.id]) in s.records.Keys {
      assert s.HasCurrent(k.id);
    }
  }

  /** Everything outstanding is on the one resource. */
  lemma OutstandingOn(s: State, resource: ResourceName)
    ensures On(Outstanding(s, resource), resource) == Outstanding(s, resource)
  {
  }

  method AnyStale(ledger: Ledger, r: Record, resource: ResourceName) returns (stranded: bool)
    ensures stranded <==> Stranded(ledger, r, resource)
  {
    var bound, live := false, true;
    var i := 0;
    while i < |r.refs|
      invariant i <= |r.refs|
      invariant bound <==> exists j :: 0 <= j < i && r.refs[j].resource == resource
      invariant live <==> forall j :: 0 <= j < i ==> IsCurrent(ledger, r.refs[j])
    {
      if r.refs[i].resource == resource { bound := true; }
      if !IsCurrent(ledger, r.refs[i]) { live := false; }
      i := i + 1;
    }
    return r.Consumes() && bound && !live;
  }

  /** The peak the stranded obligations would put on the resource, summed in an accumulator of its own. */
  method StrandedPeak(ledger: Ledger, records: map<Key, Record>, resource: ResourceName, ghost s: State)
    returns (peak: int)
    requires Healthy(s) && ledger == s.ledger && records == s.records
    ensures PeakOn(Outstanding(s, resource), resource, Combined, HORIZON, peak)
  {
    hide Healthy, IntervalCapacityIndex.Valid, ClaimsOf, Load, Outstanding, Stranded, Record.Window, OutstandingAmong,
         Keyed, Representable;
    var outstanding := new IntervalCapacityIndex();
    var work := SortKeys(records.Keys);
    var i := 0;
    AmongAll(s, resource);
    NoClaims();
    assert KeysBefore(work, 0) == {};
    while i < |work|
      invariant i <= |work| && fresh(outstanding) && outstanding.Valid()
      invariant outstanding.claims == ClaimsOf(OutstandingAmong(s, resource, KeysBefore(work, i)), Combined)
    {
      assert work[i] in work;
      BeforeNext(work, i);
      Accumulate(outstanding, ledger, records[work[i]], work[i], resource, s, KeysBefore(work, i));
      i := i + 1;
    }
    BeforeAll(work, records.Keys);
    OutstandingOn(s, resource);
    peak := outstanding.Peak(HORIZON);
    PeakOfClaims(s, resource, outstanding.claims, peak);
  }

  method Accumulate(outstanding: IntervalCapacityIndex, ledger: Ledger, r: Record, key: Key, resource: ResourceName,
                    ghost s: State, ghost keys: set<Key>)
    requires Healthy(s) && ledger == s.ledger && key in s.records && r == s.records[key] && key !in keys
    requires outstanding.Valid() && outstanding.claims == ClaimsOf(OutstandingAmong(s, resource, keys), Combined)
    modifies outstanding
    ensures outstanding.Valid() && outstanding.claims == ClaimsOf(OutstandingAmong(s, resource, keys + {key}), Combined)
  {
    hide Healthy, IntervalCapacityIndex.Valid, ClaimsOf, Load, Outstanding, Stranded, Record.Window, OutstandingAmong,
         Keyed, Representable;
    OutstandingNext(s, resource, keys, key);
    var stale := AnyStale(ledger, r, resource);
    if !stale { return; }
    var window := r.Window();
    if window.Empty() { return; }
    ghost var m, e := OutstandingAmong(s, resource, keys), r.Entry(resource);
    OutstandingKeyed(s, resource);
    AmongPart(s, resource, keys);
    AmongRoom(s, resource, keys, e);
    ClaimsPlus(m, e, Combined);
    outstanding.Add(window, r.terms.amount);
  }

  lemma AmongRoom(s: State, resource: ResourceName, keys: set<Key>, e: IndexEntry)
    requires Keyed(Outstanding(s, resource)) && Representable(Outstanding(s, resource))
    requires e.Key() in Outstanding(s, resource) && Outstanding(s, resource)[e.Key()] == e && e.resource == resource
    requires e.Key() !in OutstandingAmong(s, resource, keys)
    ensures e.Wellformed() && 0 < e.amount
    ensures forall t :: e.interval.Contains(t) && HORIZON.Contains(t) ==>
      Load(ClaimsOf(OutstandingAmong(s, resource, keys), Combined), t) + e.amount <= SATURATION
  {
    hide Outstanding, Load, ClaimsOf, OutstandingAmong, Representable;
    AmongPart(s, resource, keys);
    RoomWithin(Outstanding(s, resource), OutstandingAmong(s, resource, keys), e);
    AmongOn(s, resource, keys);
  }

  lemma AmongOn(s: State, resource: ResourceName, keys: set<Key>)
    ensures On(OutstandingAmong(s, resource, keys), resource) == OutstandingAmong(s, resource, keys)
  {
    hide Stranded, Record.Window;
  }

  lemma NoClaims()
    ensures ClaimsOf(map[], Combined) == multiset{}
  {
  }

  lemma PeakOfClaims(s: State, resource: ResourceName, claims: multiset<Claim>, peak: int)
    requires claims == ClaimsOf(Outstanding(s, resource), Combined)
             && On(Outstanding(s, resource), resource) == Outstanding(s, resource)
    requires if Clipped(HORIZON).Empty() then peak == 0 else IsPeak(claims, Clipped(HORIZON), peak)
    ensures PeakOn(Outstanding(s, resource), resource, Combined, HORIZON, peak)
  {
    hide Outstanding;
  }

  function KeysBefore(work: seq<Key>, i: nat): set<Key>
    requires i <= |work|
  {
    set j | 0 <= j < i :: work[j]
  }

  lemma BeforeNext(work: seq<Key>, i: nat)
    requires Ascending(work) && i < |work|
    ensures KeysBefore(work, i + 1) == KeysBefore(work, i) + {work[i]} && work[i] !in KeysBefore(work, i)
  {
  }

  lemma BeforeAll(work: seq<Key>, keys: set<Key>)
    requires forall k :: k in work <==> k in keys
    ensures KeysBefore(work, |work|) == keys
  {
  }

  lemma UnknownUndetected(s: State, m: Contents, resource: ResourceName)
    requires resource !in s.ledger
    ensures Detected(s, m, resource) == s && Reaches(s, s, true)
  {
    hide Reaches;
    ReachesItself(s, true);
  }

  /** The named resources are degraded exactly when they are overcommitted; the others are as they were. */
  ghost predicate Noticed(over: set<ResourceName>, s: State, m: Contents, names: set<ResourceName>) {
    forall r :: r in s.ledger ==> (r in s.overcommitted <==> if r in names then Overcommitted(s, m, r) else r in over)
  }

  ghost predicate DegradedAs(s: State, s': State, m: Contents, names: set<ResourceName>) {
    s' == s.(journal := s'.journal, overcommitted := s'.overcommitted) && Noticed(s.overcommitted, s', m, names)
  }

  lemma DegradedParts(s: State, s': State, m: Contents, names: set<ResourceName>)
    requires DegradedAs(s, s', m, names)
    ensures s'.records == s.records && s'.current == s.current && s'.holds == s.holds && s'.ledger == s.ledger
    ensures Noticed(s.overcommitted, s', m, names)
  {
    hide Overcommitted;
  }

  lemma NoneDegraded(s: State, m: Contents)
    ensures DegradedAs(s, s, m, {})
  {
    hide Overcommitted;
  }

  /** Whether a resource is overcommitted does not depend on what is degraded. */
  lemma OvercommittedSame(s: State, s': State, m: Contents, resource: ResourceName)
    requires s' == s.(journal := s'.journal, overcommitted := s'.overcommitted) && resource in s.ledger
    ensures Overcommitted(s', m, resource) <==> Overcommitted(s, m, resource)
  {
    hide Surpasses, Stranded, Record.Window;
    assert KeysInPlay(s') == KeysInPlay(s);
    assert Outstanding(s', resource) == Outstanding(s, resource);
  }

  lemma DegradedMore(s: State, mid: State, s': State, m: Contents, a: set<ResourceName>, b: set<ResourceName>)
    requires DegradedAs(s, mid, m, a) && DegradedAs(mid, s', m, b)
    ensures DegradedAs(s, s', m, a + b)
  {
    hide Overcommitted;
    forall r | r in s.ledger
      ensures r in s'.overcommitted <==> if r in a + b then Overcommitted(s', m, r) else r in s.overcommitted
    {
      OvercommittedSame(mid, s', m, r);
    }
  }

  lemma DetectedDegrades(s: State, m: Contents, resource: ResourceName)
    ensures DegradedAs(s, Detected(s, m, resource), m, {resource})
  {
    hide Overcommitted;
    if resource in s.ledger { OvercommittedSame(s, Detected(s, m, resource), m, resource); }
  }
}

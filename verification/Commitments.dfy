/** What an admission sets aside while it is tried, and what committing it amounts to. */
module Commitments {
  import opened Timeline
  import opened Claims
  import opened SegmentTree
  import opened Entries
  import opened ResourceStates
  import opened CapacityIndexing
  import opened Suspending
  import opened Records
  import opened FabricState
  import opened Steps
  import opened Lineage
  import opened Closure
  import opened Runs
  import opened RecordIndexing
  import opened Bounds
  import opened Effects
  import opened Admission
  import opened Series

  // ---------------------------------------------------------------------------
  // Setting holders aside
  // ---------------------------------------------------------------------------

  function SetOf(ids: seq<Identity>): set<Identity> { set i | 0 <= i < |ids| :: ids[i] }

  lemma SetOfNext(ids: seq<Identity>, i: nat)
    requires i < |ids|
    ensures SetOf(ids[..i + 1]) == SetOf(ids[..i]) + {ids[i]}
  {
    var more := ids[..i + 1];
    forall id ensures id in SetOf(more) <==> id in SetOf(ids[..i]) + {ids[i]} {
      if id in SetOf(ids[..i]) {
        var j :| 0 <= j < i && ids[..i][j] == id;
        assert more[j] == id;
      }
      if id == ids[i] { assert more[i] == id; }
      if id in SetOf(more) {
        var j :| 0 <= j < |more| && more[j] == id;
        if j < i { assert ids[..i][j] == id; }
      }
    }
  }

  /** Why a named hold cannot be consumed by a session, if so. */
  function HoldObjection(holds: map<Identity, Hold>, session: Identity, id: Identity): Option<Failure> {
    if id !in holds || holds[id].released then Some(UnknownRecord)
    else if holds[id].session != session then Some(NotOwner)
    else None
  }

  /** The first objection among the named holds. */
  function HoldsObjection(holds: map<Identity, Hold>, session: Identity, ids: seq<Identity>): Option<Failure>
    decreases |ids|
  {
    if ids == [] then None
    else if HoldObjection(holds, session, ids[0]).Some? then HoldObjection(holds, session, ids[0])
    else HoldsObjection(holds, session, ids[1..])
  }

  lemma HoldSetAside(s: State, ids: set<Identity>, id: Identity, under: Ledgers, behind: set<Identity>)
    ensures var m := Indexed(HoldsReleased(s, ids), under, behind);
            m - HeldKeys(m, HolderKind.Hold, id, None) == Indexed(HoldsReleased(s, ids + {id}), under, behind)
  {
    var before, after := HoldsReleased(s, ids), HoldsReleased(s, ids + {id});
    var m := Indexed(before, under, behind);
    var rest := m - HeldKeys(m, HolderKind.Hold, id, None);
    forall k ensures Answers(rest, k, WantedIn(after, under, behind, k)) {
      HoldSetAsideKey(s, ids, id, k, under, behind);
      IndexedIs(before, under, behind, k);
    }
    hide Indexed, Wanted, HoldsReleased;
    IndexedUnique(rest, after, under, behind);
  }

  lemma HoldSetAsideKey(s: State, ids: set<Identity>, id: Identity, k: EntryKey, under: Ledgers, behind: set<Identity>)
    ensures WantedIn(HoldsReleased(s, ids + {id}), under, behind, k) ==
            if k.kind == HolderKind.Hold && k.id == id then None else WantedIn(HoldsReleased(s, ids), under, behind, k)
  {
    hide Indexable;
  }

  lemma RevokedMore(s: State, victims: seq<Key>, key: Key)
    requires Known(s, victims) && key in s.records
    ensures Known(s, victims + [key])
    ensures var a, b := RevokedAll(s, victims), RevokedAll(s, victims + [key]);
            && b == a.(records := b.records) && b.records.Keys == a.records.Keys && a.holds == s.holds
            && a.current == s.current
            && a.records.Keys == s.records.Keys && b.records[key].state == Revoked
            && (forall k :: k in s.records && k != key ==> b.records[k] == a.records[k])
            && a.records[key] == s.records[key].(state := a.records[key].state)
  {
    hide RevokedAll;
    RevokedAllKeeps(s, victims);
    RevokedAllKeeps(s, victims + [key]);
    assert key in victims + [key] by { assert (victims + [key])[|victims|] == key; }
    forall x | x != key ensures x in victims + [key] <==> x in victims {
    }
  }

  lemma VictimKey(s: State, victims: seq<Key>, consumed: set<Identity>, key: Key, k: EntryKey, under: Ledgers,
                  behind: set<Identity>)
    requires Inv(s) && Known(s, victims) && key in s.records && key.id in s.current
             && s.current[key.id] == key.generation
    ensures Known(s, victims + [key])
    ensures WantedIn(Cleared(s, victims + [key], consumed), under, behind, k) ==
            if k.kind == Reservation && k.id == key.id then None
               else WantedIn(Cleared(s, victims, consumed), under, behind, k)
    ensures k.kind == Reservation && k.id == key.id
            && WantedIn(Cleared(s, victims, consumed), under, behind, k).Some? ==>
      WantedIn(Cleared(s, victims, consumed), under, behind, k).value.generation == key.generation
  {
    hide RevokedAll, HoldsReleased, Inv, Record.Window, AllCurrent;
    RevokedMore(s, victims, key);
    HoldsMatch(RevokedAll(s, victims), RevokedAll(s, victims + [key]), consumed);
    FiledAt(s, key);
  }

  lemma FiledAt(s: State, key: Key)
    requires Inv(s) && key in s.records
    ensures s.records[key].KeyOf() == key
  {
  }

  lemma VictimSetAside(s: State, victims: seq<Key>, consumed: set<Identity>, key: Key, under: Ledgers,
                       behind: set<Identity>)
    requires Inv(s) && Known(s, victims) && key in s.records && key.id in s.current
             && s.current[key.id] == key.generation
    ensures Known(s, victims + [key])
    ensures var m := Indexed(Cleared(s, victims, consumed), under, behind);
            m - HeldKeys(m, Reservation, key.id, Some(key.generation))
                == Indexed(Cleared(s, victims + [key], consumed), under, behind)
  {
    hide Inv, Indexed, Wanted, Cleared;
    var before, after := Cleared(s, victims, consumed), Cleared(s, victims + [key], consumed);
    var m := Indexed(before, under, behind);
    var rest := m - HeldKeys(m, Reservation, key.id, Some(key.generation));
    forall k ensures Answers(rest, k, WantedIn(after, under, behind, k)) {
      VictimKey(s, victims, consumed, key, k, under, behind);
      IndexedIs(before, under, behind, k);
    }
    IndexedUnique(rest, after, under, behind);
  }

  // ---------------------------------------------------------------------------
  // The records of a commit
  // ---------------------------------------------------------------------------

  function InitialState(window: Interval, now: int): ReservationState {
    if window.Contains(now) then Active else Committed
  }

  function MadeRecord(id: Identity, terms: Terms, window: Interval, refs: seq<ResourceRef>, series: Option<Identity>,
                      now: int): Record {
    Record(id, 1, terms.(interval := window), refs, InitialState(window, now), Current, NoReason, 0, 0, None, series)
  }

  function MadeRecords(ids: seq<Identity>, terms: Terms, intervals: seq<Interval>, refs: seq<ResourceRef>,
                       series: Option<Identity>, now: int): (rs: seq<Record>)
    requires |ids| == |intervals|
    ensures |rs| == |ids|
    ensures forall i :: 0 <= i < |rs| ==> rs[i] == MadeRecord(ids[i], terms, intervals[i], refs, series, now)
  {
    seq(|ids|, i requires 0 <= i < |ids| => MadeRecord(ids[i], terms, intervals[i], refs, series, now))
  }

  /** The intervals are valid and share no instant. */
  ghost predicate Disjoint(intervals: seq<Interval>) {
    && (forall i :: 0 <= i < |intervals| ==> ValidInterval(intervals[i]))
    && (forall i, j :: 0 <= i < j < |intervals| ==> !intervals[i].Overlaps(intervals[j]))
  }

  lemma ExpandedDisjoint(first: Interval, spec: Recurrence, maxMembers: nat, intervals: seq<Interval>)
    requires Expanded(first, spec, intervals) && Objection(first, spec, maxMembers) == None && ValidInterval(first)
    ensures Disjoint(intervals) && intervals != []
  {
    if spec.enabled {
      forall i | 0 <= i < |intervals| ensures ValidInterval(intervals[i]) {
        MemberValid(first, spec, maxMembers, i);
      }
      forall i, j | 0 <= i < j < |intervals| ensures !intervals[i].Overlaps(intervals[j]) {
        MembersDisjoint(first, spec, maxMembers, i, j);
      }
    }
  }

  lemma MadeWellbound(ledger: Ledger, id: Identity, terms: Terms, window: Interval, refs: seq<ResourceRef>,
                      series: Option<Identity>, now: int)
    requires ValidTerms(terms) && ValidInterval(window) && BoundTo(ledger, terms.resources, refs)
    ensures Wellbound(ledger, MadeRecord(id, terms, window, refs, series, now))
  {
    CanonicalDistinct(refs);
    hide NameLess, Canonical;
  }

  lemma MadeFresh(s: State, ids: seq<Identity>, terms: Terms, intervals: seq<Interval>, refs: seq<ResourceRef>,
                  series: Option<Identity>, now: int)
    requires |ids| == |intervals| && Distinct(ids) && forall i :: 0 <= i < |ids| ==> ids[i] !in s.current
    requires ValidTerms(terms) && Disjoint(intervals) && BoundTo(s.ledger, terms.resources, refs)
    ensures FreshMembers(s, MadeRecords(ids, terms, intervals, refs, series, now))
  {
    var rs := MadeRecords(ids, terms, intervals, refs, series, now);
    hide BoundTo, Wellbound, ValidTerms;
    forall i | 0 <= i < |rs| ensures Wellbound(s.ledger, rs[i]) {
      MadeWellbound(s.ledger, ids[i], terms, intervals[i], refs, series, now);
    }
  }

  // ---------------------------------------------------------------------------
  // Demand of a commit
  // ---------------------------------------------------------------------------

  lemma RegisteredStakeOther(s: State, r: Record, k: EntryKey)
    requires r.id !in s.current && k != EntryKey(Reservation, r.id, k.resource)
    ensures Stake(Registered(s, r), k) == Stake(s, k)
  {
    hide Record.Binds, Record.Window;
  }

  lemma RegisteredStakeOwn(s: State, r: Record, resource: ResourceName, t: int)
    requires r.id !in s.current && 0 < r.terms.amount
    ensures StakeAt(Registered(s, r), EntryKey(Reservation, r.id, resource), t) <= if resource in NamesOf(r.refs)
            then r.terms.amount else 0
  {
    hide Record.Binds, Record.Window, NamesOf;
    if r.Binds(resource) { BoundName(r, resource); }
  }

  lemma RegisteredStake(s: State, r: Record, k: EntryKey, t: int)
    requires r.id !in s.current && 0 < r.terms.amount
    ensures k != EntryKey(Reservation, r.id, k.resource) ==> StakeAt(Registered(s, r), k, t) == StakeAt(s, k, t)
    ensures k == EntryKey(Reservation, r.id, k.resource) ==>
      StakeAt(Registered(s, r), k, t) <= if k.resource in NamesOf(r.refs) then r.terms.amount else 0
  {
    hide Stake, Registered;
    if k != EntryKey(Reservation, r.id, k.resource) {
      RegisteredStakeOther(s, r, k);
    } else {
      RegisteredStakeOwn(s, r, k.resource, t);
    }
  }

  lemma RegisteredSized(s: State, r: Record)
    requires Sized(s) && 0 < r.terms.amount && "" !in NamesOf(r.refs)
    ensures Sized(Registered(s, r))
  {
  }

  /** Registering one new record binds its amount on its own resources. */
  lemma RegisteredDemand(s: State, r: Record, resource: ResourceName, t: int)
    requires r.id !in s.current && Sized(s) && 0 < r.terms.amount && "" !in NamesOf(r.refs)
    ensures LoadOn(Demand(Registered(s, r)), resource, Combined, t)
            <= LoadOn(Demand(s), resource, Combined, t) + if resource in NamesOf(r.refs) then r.terms.amount else 0
  {
    hide Sized, StakeAt, Demand, LoadOn, Registered;
    RegisteredSized(s, r);
    var key := EntryKey(Reservation, r.id, resource);
    forall k: EntryKey | k.resource == resource && k != key
        ensures StakeAt(Registered(s, r), k, t) <= StakeAt(s, k, t) {
      RegisteredStake(s, r, k, t);
    }
    RegisteredStake(s, r, key, t);
    DemandFollowsButOne(s, Registered(s, r), key, if resource in NamesOf(r.refs) then r.terms.amount else 0, t);
  }

  lemma {:induction false} RegisteredAllDemand(s: State, rs: seq<Record>, names: seq<ResourceName>, amount: int,
                                               resource: ResourceName, t: int)
    requires Sized(s) && DistinctIds(rs) && 0 < amount
    requires forall i :: 0 <= i < |rs| ==>
      rs[i].id !in s.current && rs[i].terms.amount == amount && NamesOf(rs[i].refs) == names && "" !in names
    ensures Sized(RegisteredAll(s, rs))
    ensures LoadOn(Demand(RegisteredAll(s, rs)), resource, Combined, t)
            <= LoadOn(Demand(s), resource, Combined, t) + if resource in names then |rs| * amount else 0
    decreases |rs|
  {
    hide Sized, Demand, LoadOn;
    if rs != [] {
      var s1, rest := Registered(s, rs[0]), rs[1..];
      RegisteredSized(s, rs[0]);
      RegisteredDemand(s, rs[0], resource, t);
      forall i | 0 <= i < |rest| ensures rest[i] == rs[i + 1] && rest[i].id !in s1.current {
        assert rs[i + 1].id != rs[0].id;
      }
      RegisteredAllDemand(s1, rest, names, amount, resource, t);
      assert |rs| * amount == amount + |rest| * amount;
    }
  }

  lemma AdmitWanes(s: State, d: DurableRecord, consumed: set<Identity>, allowance: nat, k: EntryKey, t: int)
    requires Inv(s) && CanAdmit(s, d, consumed, allowance) && Sized(RegisteredAll(s, Members(d)))
    ensures Applicable(s, d)
    ensures StakeAt(HoldsReleased(Written(s, d), consumed), k, t) <= StakeAt(RegisteredAll(s, Members(d)), k, t)
  {
    hide Inv, CanAdmit, StakeAt, Sized, Applied, HoldsReleased, RecordMap, GenerationMap, RevokedAll;
    InvChained(s);
    AdmitParts(s, d, consumed, allowance);
    AdmitShape(s, d, consumed, allowance);
    RegisteredAllIs(s, Members(d));
    var whole, after := RegisteredAll(s, Members(d)), HoldsReleased(Written(s, d), consumed);
    hide RegisteredAll, Chained, Written, Waned;
    ReleasedShape(Written(s, d), consumed);
    RevokedWanes(whole.records, after.records, d.companions);
    WanedStake(whole, after, k, t);
  }

  lemma RevokedWanes(before: RecordTable, after: RecordTable, keys: seq<Key>)
    requires RevokedIn(before, after, keys)
    ensures forall k :: k in before ==> Waned(before[k], after[k])
  {
  }

  lemma AdmitParts(s: State, d: DurableRecord, consumed: set<Identity>, allowance: nat)
    requires CanAdmit(s, d, consumed, allowance)
    ensures d.ReservationMutation? && DistinctIds(Members(d)) && forall i :: 0 <= i < |Members(d)| ==>
      Members(d)[i].id !in s.current
  {
    hide Wellbound, FitsIn;
  }

  lemma ReleasedShape(s: State, ids: set<Identity>)
    ensures var s' := HoldsReleased(s, ids);
            && s' == s.(holds := s'.holds) && s'.holds.Keys == s.holds.Keys
            && forall h :: h in s.holds ==> s'.holds[h] == s.holds[h] || s'.holds[h] == s.holds[h].(released := true)
  {
  }

  lemma WellboundParts(s: State, d: DurableRecord, consumed: set<Identity>, allowance: nat, i: nat)
    requires CanAdmit(s, d, consumed, allowance) && i < |Members(d)|
    ensures var r := Members(d)[i];
            && 0 < r.terms.amount == d.record.terms.amount && r.refs == d.record.refs && "" !in NamesOf(r.refs)
            && Wellbound(s.ledger, r)
  {
    hide FitsIn;
    assert Members(d)[0] == d.record;
    assert Wellbound(s.ledger, Members(d)[i]);
  }

  /** An admission within the room left keeps the state healthy. */
  lemma AdmitHealthy(s: State, d: DurableRecord, consumed: set<Identity>, allowance: nat)
    requires Healthy(s) && CanAdmit(s, d, consumed, allowance)
    requires RoomToBind(s, NamesOf(d.record.refs), |Members(d)| * d.record.terms.amount)
    ensures Healthy(Next(s, Admit(d, consumed, allowance)))
  {
    hide Inv, CanAdmit, FitsIn, Demand, StakeAt, LoadOn, Wellbound, Sized, RegisteredAll, RoomToBind, NamesOf;
    var s' := Next(s, Admit(d, consumed, allowance));
    AdmitKeepsInv(s, d, consumed, allowance);
    AdmitParts(s, d, consumed, allowance);
    InvSized(s);
    InvSized(s');
    forall i | 0 <= i < |Members(d)|
      ensures Members(d)[i].terms.amount == d.record.terms.amount && 0 < d.record.terms.amount
      ensures Members(d)[i].refs == d.record.refs && "" !in NamesOf(d.record.refs)
    {
      WellboundParts(s, d, consumed, allowance, i);
    }
    assert Members(d)[0] == d.record;
    forall r, t | HORIZON.Contains(t) ensures LoadOn(Demand(s'), r, Combined, t) <= SATURATION {
      AdmitDemand(s, d, consumed, allowance, r, t);
      ModestAt(s, r, t);
    }
  }

  lemma ModestAt(s: State, resource: ResourceName, t: int)
    requires Modest(s) && HORIZON.Contains(t)
    ensures LoadOn(Demand(s), resource, Combined, t) <= SATURATION
  {
  }

  lemma AdmitDemand(s: State, d: DurableRecord, consumed: set<Identity>, allowance: nat, resource: ResourceName, t: int)
    requires d.ReservationMutation? && Inv(s) && Sized(s) && CanAdmit(s, d, consumed, allowance)
             && Sized(Next(s, Admit(d, consumed, allowance)))
    requires DistinctIds(Members(d)) && 0 < d.record.terms.amount && "" !in NamesOf(d.record.refs)
    requires forall i :: 0 <= i < |Members(d)| ==>
      Members(d)[i].id !in s.current && Members(d)[i].terms.amount == d.record.terms.amount
          && Members(d)[i].refs == d.record.refs
    requires RoomToBind(s, NamesOf(d.record.refs), |Members(d)| * d.record.terms.amount) && HORIZON.Contains(t)
    ensures LoadOn(Demand(Next(s, Admit(d, consumed, allowance))), resource, Combined, t)
            <= Max(SATURATION, LoadOn(Demand(s), resource, Combined, t))
  {
    hide Inv, CanAdmit, FitsIn, Demand, StakeAt, LoadOn, Wellbound, Sized, RegisteredAll, NamesOf;
    var s', whole := Next(s, Admit(d, consumed, allowance)), RegisteredAll(s, Members(d));
    RegisteredAllDemand(s, Members(d), NamesOf(d.record.refs), d.record.terms.amount, resource, t);
    forall k: EntryKey | k.resource == resource ensures StakeAt(s', k, t) <= StakeAt(whole, k, t) {
      AdmitWanes(s, d, consumed, allowance, k, t);
    }
    DemandFollows(whole, s', resource, t);
  }

  // ---------------------------------------------------------------------------
  // Indexing the members one after the other
  // ---------------------------------------------------------------------------

  /** Identities of the members from position `i` on. */
  function IdsFrom(ms: seq<Record>, i: nat): set<Identity> {
    set j | i <= j < |ms| :: ms[j].id
  }

  /** The index without the reservations of some identities. */
  function Lacking(m: Contents, ids: set<Identity>): Contents {
    map k | k in m && !(k.kind == Reservation && k.id in ids) :: m[k]
  }

  lemma IdsFromNext(ms: seq<Record>, i: nat)
    requires DistinctIds(ms) && i < |ms|
    ensures IdsFrom(ms, i) == {ms[i].id} + IdsFrom(ms, i + 1) && ms[i].id !in IdsFrom(ms, i + 1)
  {
  }

  lemma MemberSettles(s: State, ms: seq<Record>, i: nat, under: Ledgers, behind: set<Identity>)
    requires DistinctIds(ms) && i < |ms| && s.HasCurrent(ms[i].id) && s.CurrentRecord(ms[i].id) == ms[i]
             && ms[i].id !in behind
    requires Distinct(NamesOf(ms[i].refs)) && "" !in NamesOf(ms[i].refs) && 0 < ms[i].terms.amount
    ensures var part := Lacking(Indexed(s, under, behind), IdsFrom(ms, i));
            Settled(part, s.ledger, ms[i]) == Lacking(Indexed(s, under, behind), IdsFrom(ms, i + 1))
                && SyncReady(part, s.ledger, ms[i])
  {
    hide Indexable, EntryMap, EntrySeq, Distinctly, Wanted, Indexed, NamesOf, IdsFrom, SyncReady, Distinct, HeldAt,
         Settled, DistinctIds;
    var r := ms[i];
    IdsFromNext(ms, i);
    NothingLacks(Indexed(s, under, behind), IdsFrom(ms, i), r);
    IndexableWindow(s.ledger, r);
    if Indexable(s.ledger, r) { EntriesDistinct(r); }
    var after, goal := Settled(Lacking(Indexed(s, under, behind), IdsFrom(ms, i)), s.ledger, r),
        Lacking(Indexed(s, under, behind), IdsFrom(ms, i + 1));
    forall k ensures (k in after <==> k in goal) && (k in after ==> after[k] == goal[k]) {
      MemberSettlesKey(s, IdsFrom(ms, i), IdsFrom(ms, i + 1), r, k, under, behind);
    }
  }

  lemma IndexableWindow(ledger: Ledger, r: Record)
    ensures Indexable(ledger, r) ==> !r.Window().Empty()
  {
  }

  lemma MemberSettlesKey(s: State, ids: set<Identity>, rest: set<Identity>, r: Record, k: EntryKey, under: Ledgers,
                         behind: set<Identity>)
    requires s.HasCurrent(r.id) && s.CurrentRecord(r.id) == r && ids == {r.id} + rest && r.id !in rest
             && r.id !in behind
    requires Indexable(s.ledger, r) ==> Distinctly(EntrySeq(r))
    ensures var after, goal := Settled(Lacking(Indexed(s, under, behind), ids), s.ledger, r),
            Lacking(Indexed(s, under, behind), rest);
            (k in after <==> k in goal) && (k in after ==> after[k] == goal[k])
  {
    hide Indexable, EntryMap, EntrySeq, Distinctly, Wanted, Indexed, Settled;
    if k.kind == Reservation && k.id == r.id {
      SettledOwn(s, Lacking(Indexed(s, under, behind), ids), r.id, k);
      IndexedIs(s, under, behind, k);
    } else {
      SettledOther(Lacking(Indexed(s, under, behind), ids), s.ledger, r, k);
    }
  }

  lemma NothingLacks(m: Contents, ids: set<Identity>, r: Record)
    requires r.id in ids
    ensures Without(Lacking(m, ids), Reservation, r.id) == Lacking(m, ids)
            && !HeldAt(Lacking(m, ids), r.id, r.generation)
    ensures forall ledger :: SyncReady(Lacking(m, ids), ledger, r)
  {
  }

  lemma NewIsNotBehind(s: State, d: DurableRecord, consumed: set<Identity>, allowance: nat, i: nat,
                       behind: set<Identity>)
    requires CanAdmit(s, d, consumed, allowance) && i < |Members(d)| && behind <= s.current.Keys
    ensures Members(d)[i].id !in behind
  {
    hide Wellbound, FitsIn;
  }

  lemma AdmitLedgers(s: State, d: DurableRecord, consumed: set<Identity>, allowance: nat)
    requires CanAdmit(s, d, consumed, allowance)
    ensures Next(s, Admit(d, consumed, allowance)).ledger == s.ledger
            && Cleared(s, d.companions, consumed).ledger == s.ledger
  {
    hide FitsIn, Wellbound, FreshMembers, RevokedAll, HoldsReleased, Applied;
    AdmitApplicable(s, d, consumed, allowance);
    ReleasedShape(Written(s, d), consumed);
    ReleasedShape(RevokedAll(s, d.companions), consumed);
    RevokedAllKeeps(s, d.companions);
    MutationLedger(s, d);
  }

  /** What an admission is tried against is the index it leads to, without the new members. */
  lemma AdmitBase(s: State, d: DurableRecord, consumed: set<Identity>, allowance: nat, under: Ledgers,
                  behind: set<Identity>)
    requires Inv(s) && CanAdmit(s, d, consumed, allowance) && behind <= s.current.Keys
    ensures Indexed(Cleared(s, d.companions, consumed), under, behind)
            == Lacking(Indexed(Next(s, Admit(d, consumed, allowance)), under, behind), IdsFrom(Members(d), 0))
  {
    AdmitParts(s, d, consumed, allowance);
    AdmitApplicable(s, d, consumed, allowance);
    hide Inv, FitsIn, WantedIn, Indexed, Applied, HoldsReleased, Wellbound, FreshMembers, Cleared, Written;
    var s', base := HoldsReleased(Written(s, d), consumed), Cleared(s, d.companions, consumed);
    var lacking := Lacking(Indexed(s', under, behind), IdsFrom(Members(d), 0));
    forall k ensures Answers(lacking, k, WantedIn(base, under, behind, k)) {
      IndexedIs(s', under, behind, k);
      if k.kind == Reservation && k.id in IdsFrom(Members(d), 0) {
        AdmitBaseMember(s, d, consumed, allowance, under, behind, k);
      } else {
        AdmitBaseOther(s, d, consumed, allowance, under, behind, k);
      }
    }
    IndexedUnique(lacking, base, under, behind);
  }

  lemma AdmitBaseMember(s: State, d: DurableRecord, consumed: set<Identity>, allowance: nat, under: Ledgers,
                        behind: set<Identity>, k: EntryKey)
    requires Inv(s) && CanAdmit(s, d, consumed, allowance) && behind <= s.current.Keys
    requires k.kind == Reservation && k.id in IdsFrom(Members(d), 0)
    ensures WantedIn(Cleared(s, d.companions, consumed), under, behind, k) == None
  {
    hide Inv, FitsIn, Wanted, Applied, HoldsReleased, Wellbound, FreshMembers, Cleared, Written;
    var i :| 0 <= i < |Members(d)| && Members(d)[i].id == k.id;
    AdmitMembers(s, d, consumed, allowance, i, k.resource);
    NewIsNotBehind(s, d, consumed, allowance, i, behind);
  }

  lemma AdmitBaseOther(s: State, d: DurableRecord, consumed: set<Identity>, allowance: nat, under: Ledgers,
                       behind: set<Identity>, k: EntryKey)
    requires Inv(s) && CanAdmit(s, d, consumed, allowance) && Applicable(s, d)
    requires !(k.kind == Reservation && k.id in IdsFrom(Members(d), 0))
    ensures WantedIn(HoldsReleased(Written(s, d), consumed), under, behind, k)
            == WantedIn(Cleared(s, d.companions, consumed), under, behind, k)
  {
    hide Inv, FitsIn, Wanted, Applied, HoldsReleased, Wellbound, FreshMembers, Cleared, Written;
    forall i | k.kind == Reservation && 0 <= i < |Members(d)| ensures Members(d)[i].id != k.id {
      assert Members(d)[i].id in IdsFrom(Members(d), 0);
    }
    AdmitOthers(s, d, consumed, allowance, k, if k.kind == Reservation && k.id in behind then under(k.id)
                else s.ledger);
    AdmitLedgers(s, d, consumed, allowance);
  }

  /** Revoking first and registering afterwards leads to the same state as the other way round. */
  lemma RevokeThenRegister(s: State, d: DurableRecord)
    requires d.ReservationMutation? && Filed(s.records, s.current) && Known(s, d.companions) && DistinctIds(Members(d))
    requires forall i :: 0 <= i < |Members(d)| ==> Members(d)[i].id !in s.current
    ensures Known(Grouped(RegisteredAll(s, Members(d)), d), d.companions)
    ensures RevokedAll(Grouped(RegisteredAll(s, Members(d)), d), d.companions)
            == Grouped(RegisteredAll(RevokedAll(s, d.companions), Members(d)), d)
  {
    hide RevokedAll, RegisteredAll, Grouped, RecordMap, GenerationMap, DistinctIds, Filed;
    var ms, keys := Members(d), d.companions;
    RevokedAllKeeps(s, keys);
    RegisteredAllIs(s, ms);
    RegisteredAllIs(RevokedAll(s, keys), ms);
    var x, rest := RegisteredAll(s, ms), RevokedAll(s, keys).records + RecordMap(ms);
    assert RegisteredAll(RevokedAll(s, keys), ms) == x.(records := rest);
    GroupedRecords(x, rest, d);
    RevokedAllKeeps(Grouped(x, d), keys);
    RevokedJoin(s.records, RevokedAll(s, keys).records, RevokedAll(Grouped(x, d), keys).records, ms, keys, s.current);
  }

  lemma GroupedRecords(s: State, records: RecordTable, d: DurableRecord)
    requires d.ReservationMutation?
    ensures Grouped(s.(records := records), d) == Grouped(s, d).(records := records)
            && Grouped(s, d).records == s.records
  {
    hide IdsOf;
    var ids := IdsOf([d.record] + d.members);
    assert Grouped(s, d).records == s.records;
    if d.seriesId.Some? {
      assert Grouped(s, d) == s.(series := s.series[d.seriesId.value := ids]);
      assert Grouped(s.(records := records), d) == s.(records := records, series := s.series[d.seriesId.value := ids]);
    }
  }

  lemma RevokedJoin(before: RecordTable, revoked: RecordTable, after: RecordTable, ms: seq<Record>, keys: seq<Key>,
                    current: Generations)
    requires DistinctIds(ms) && Filed(before, current) && forall i :: 0 <= i < |ms| ==> ms[i].id !in current
    requires forall i :: 0 <= i < |keys| ==> keys[i] in before
    requires RevokedIn(before, revoked, keys) && revoked.Keys == before.Keys
    requires RevokedIn(before + RecordMap(ms), after, keys) && after.Keys == (before + RecordMap(ms)).Keys
    ensures after == revoked + RecordMap(ms)
  {
    hide RecordMap, DistinctIds;
    forall k | k in after ensures after[k] == (revoked + RecordMap(ms))[k] {
      if k in RecordMap(ms) {
        JoinedMember(ms, k);
        assert k !in keys;
      }
    }
  }

  /** The live order of a commit leads to the state its record denotes. */
  lemma LiveAdmits(s: State, d: DurableRecord, consumed: set<Identity>, allowance: nat)
    requires Inv(s) && CanAdmit(s, d, consumed, allowance)
    ensures var s1 := s.(journal := s.journal + [d]);
            && Known(s1, d.companions)
            && HoldsReleased(Remembered(Grouped(RegisteredAll(RevokedAll(s1, d.companions), Members(d)), d),
                                        d.attempt.value), consumed)
               == Next(s, Admit(d, consumed, allowance))
  {
    hide RevokedAll, RegisteredAll, Grouped, Remembered, Wellbound, FitsIn, HoldsReleased, GapFree, OneAuthority,
         SoundLedger, SoundRecords, SoundHolds;
    var s1 := s.(journal := s.journal + [d]);
    AdmitParts(s, d, consumed, allowance);
    AdmitApplicable(s, d, consumed, allowance);
    RevokeThenRegister(s, d);
    RegisteredMembers(s, d);
    JournalAlong(s, s1.journal, d);
    JournalIrrelevant(Grouped(RegisteredAll(RevokedAll(s, d.companions), Members(d)), d), d.attempt.value, s1.journal);
  }

  lemma JournalAlong(s: State, journal: seq<DurableRecord>, d: DurableRecord)
    requires d.ReservationMutation? && Known(s, d.companions)
    ensures var s1 := s.(journal := journal);
            && Known(s1, d.companions)
            && Grouped(RegisteredAll(RevokedAll(s1, d.companions), Members(d)), d)
               == Grouped(RegisteredAll(RevokedAll(s, d.companions), Members(d)), d).(journal := journal)
  {
    hide RevokedAll, RegisteredAll;
    JournalRevoked(s, journal, d.companions);
    JournalRegistered(RevokedAll(s, d.companions), journal, Members(d));
  }

  lemma {:induction false} JournalRevoked(s: State, journal: seq<DurableRecord>, keys: seq<Key>)
    requires Known(s, keys)
    ensures Known(s.(journal := journal), keys)
    ensures RevokedAll(s.(journal := journal), keys) == RevokedAll(s, keys).(journal := journal)
    decreases |keys|
  {
    if keys != [] {
      JournalRevoked(WithState(s, keys[0], Revoked), journal, keys[1..]);
    }
  }

  lemma {:induction false} JournalRegistered(s: State, journal: seq<DurableRecord>, rs: seq<Record>)
    ensures RegisteredAll(s.(journal := journal), rs) == RegisteredAll(s, rs).(journal := journal)
    decreases |rs|
  {
    if rs != [] {
      JournalRegistered(Registered(s, rs[0]), journal, rs[1..]);
    }
  }

  // ---------------------------------------------------------------------------
  // Victims
  // ---------------------------------------------------------------------------

  /** Distinct authoritative generations that still consume. */
  ghost predicate Victims(s: State, victims: seq<Key>) {
    && Known(s, victims) && Distinct(victims)
    && forall i :: 0 <= i < |victims| ==>
         s.records[victims[i]].Consumes() && victims[i].id in s.current
             && s.current[victims[i].id] == victims[i].generation
  }

  /** An entry still indexed beside the victims so far belongs to a further possible victim. */
  lemma CandidateIsLive(s: State, victims: seq<Key>, consumed: set<Identity>, e: IndexEntry, under: Ledgers,
                        behind: set<Identity>)
    requires Inv(s) && Victims(s, victims) && e.kind == Reservation
    requires e.Key() in Indexed(Cleared(s, victims, consumed), under, behind)
    requires Indexed(Cleared(s, victims, consumed), under, behind)[e.Key()] == e
    ensures var key := Key(e.id, e.generation); key in s.records && Victims(s, victims + [key])
  {
    hide Cleared, Inv, Indexed, WantedIn, Record.Consumes;
    IndexedIs(Cleared(s, victims, consumed), under, behind, e.Key());
    CandidateConsumes(s, victims, consumed, e, under, behind);
    DistinctMore(victims, Key(e.id, e.generation));
  }

  /** Whoever is wanted beside the victims is live, and none of them. */
  lemma CandidateConsumes(s: State, victims: seq<Key>, consumed: set<Identity>, e: IndexEntry, under: Ledgers,
                          behind: set<Identity>)
    requires Inv(s) && Victims(s, victims) && e.kind == Reservation
    requires WantedIn(Cleared(s, victims, consumed), under, behind, e.Key()) == Some(e)
    ensures var key := Key(e.id, e.generation);
            && key in s.records && s.records[key].Consumes() && key !in victims
            && key.id in s.current && s.current[key.id] == key.generation
  {
    hide RevokedAll, HoldsReleased, Inv, Record.Window, AllCurrent;
    RevokedAllKeeps(s, victims);
    ReleasedShape(RevokedAll(s, victims), consumed);
    FiledAt(s, Key(e.id, s.current[e.id]));
  }

  lemma DistinctMore<T>(s: seq<T>, x: T)
    requires Distinct(s) && x !in s
    ensures Distinct(s + [x])
  {
  }

  /** Setting one candidate aside leaves every other candidate on the resource in place. */
  lemma OthersRemain(m: Contents, candidates: seq<IndexEntry>, i: nat, resource: ResourceName)
    requires DistinctKeys(candidates) && i < |candidates|
    requires forall j :: i <= j < |candidates| ==>
      candidates[j].kind == Reservation && candidates[j].resource == resource
      && candidates[j].Key() in m && m[candidates[j].Key()] == candidates[j]
    ensures var rest := m - HeldKeys(m, Reservation, candidates[i].id, Some(candidates[i].generation));
            forall j :: i < j < |candidates| ==>
                candidates[j].Key() in rest && rest[candidates[j].Key()] == candidates[j]
  {
    forall j | i < j < |candidates| ensures candidates[j].id != candidates[i].id {
      assert candidates[i].Key() != candidates[j].Key();
    }
  }

  lemma NoVictims(s: State, consumed: set<Identity>)
    ensures Victims(s, []) && Cleared(s, [], consumed) == HoldsReleased(s, consumed)
  {
  }

  /** Nothing of a victim is left in the index the request was admitted against. */
  lemma VictimsGone(s: State, victims: seq<Key>, consumed: set<Identity>, i: nat, under: Ledgers, behind: set<Identity>)
    requires Inv(s) && Victims(s, victims) && i < |victims|
    ensures Without(Indexed(Cleared(s, victims, consumed), under, behind), Reservation, victims[i].id)
            == Indexed(Cleared(s, victims, consumed), under, behind)
  {
    hide Cleared, Indexed, WantedIn, Inv;
    var base := Cleared(s, victims, consumed);
    forall k | k in Indexed(base, under, behind) ensures !(k.kind == Reservation && k.id == victims[i].id) {
      IndexedIs(base, under, behind, k);
      if k.kind == Reservation && k.id == victims[i].id { VictimUnwanted(s, victims, consumed, i, under, behind, k); }
    }
  }

  lemma VictimUnwanted(s: State, victims: seq<Key>, consumed: set<Identity>, i: nat, under: Ledgers,
                       behind: set<Identity>, k: EntryKey)
    requires Inv(s) && Victims(s, victims) && i < |victims| && k.kind == Reservation && k.id == victims[i].id
    ensures WantedIn(Cleared(s, victims, consumed), under, behind, k) == None
  {
    hide RevokedAll, HoldsReleased, Inv, Record.Window, AllCurrent;
    RevokedAllKeeps(s, victims);
    ReleasedShape(RevokedAll(s, victims), consumed);
  }

  lemma AlignedJoin(ledger: Ledger, before: RecordTable, ms: seq<Record>, after: RecordTable, keys: seq<Key>,
                    behind: set<Identity>)
    requires Aligned(ledger, before, behind) && DistinctIds(ms)
    requires forall i :: 0 <= i < |ms| ==> ms[i].applicability == Current && ms[i].id !in behind
    requires RevokedIn(before + RecordMap(ms), after, keys) && after.Keys == (before + RecordMap(ms)).Keys
    ensures Aligned(ledger, after, behind)
  {
    hide RecordMap, AllCurrent, DistinctIds;
    forall k | k in after && !IsTerminal(after[k].state)
      ensures k.id !in behind && AllCurrent(ledger, after[k].refs) ==> after[k].applicability == Current
      ensures k.id in behind ==> after[k].applicability == Current && !AllCurrent(ledger, after[k].refs)
    {
      if k in RecordMap(ms) {
        JoinedMember(ms, k);
      }
    }
  }

  lemma AdmitAligned(s: State, d: DurableRecord, consumed: set<Identity>, allowance: nat, behind: set<Identity>)
    requires Inv(s) && Aligned(s.ledger, s.records, behind) && behind <= s.current.Keys
             && CanAdmit(s, d, consumed, allowance)
    ensures var s' := Next(s, Admit(d, consumed, allowance));
            Aligned(s'.ledger, s'.records, behind) && behind <= s'.current.Keys
  {
    hide Inv, Applied, RecordMap, GenerationMap, AllCurrent, FitsIn, Bound, Aligned, Chained, CanAdmit, DistinctIds,
         RevokedIn;
    InvChained(s);
    AdmitParts(s, d, consumed, allowance);
    AdmitShape(s, d, consumed, allowance);
    ReleasedShape(Written(s, d), consumed);
    forall i | 0 <= i < |Members(d)|
      ensures Members(d)[i].applicability == Current && Members(d)[i].id !in behind
    {
      WellboundParts(s, d, consumed, allowance, i);
    }
    AlignedJoin(s.ledger, s.records, Members(d), Written(s, d).records, d.companions, behind);
  }

  lemma VictimIs(s: State, victims: seq<Key>, key: Key, consumed: set<Identity>, under: Ledgers, behind: set<Identity>)
    requires Healthy(s) && Victims(s, victims) && Victims(s, victims + [key])
    ensures var m := Indexed(Cleared(s, victims, consumed), under, behind);
            m - HeldKeys(m, Reservation, key.id, Some(key.generation))
                == Indexed(Cleared(s, victims + [key], consumed), under, behind)
  {
    assert (victims + [key])[|victims|] == key;
    hide Modest, Indexed, Cleared;
    VictimSetAside(s, victims, consumed, key, under, behind);
  }

  lemma VictimsKnown(s: State, victims: seq<Key>)
    requires Victims(s, victims)
    ensures Known(s, victims)
  {
  }

  /** The victim's class is lower than the requester's and the policy lets it be displaced. */
  ghost predicate Outranked(s: State, key: Key, requester: GuaranteeClass, policy: Policy, self: Identity) {
    && key in s.records && key.id != self
    && s.records[key].terms.guarantee.Rank() < requester.Rank()
    && (s.records[key].terms.guarantee == Guaranteed ==> policy.recallGuaranteed)
    && (s.records[key].terms.guarantee == Protected ==> policy.recallProtected)
  }

  lemma CandidateOutranked(s: State, victims: seq<Key>, consumed: set<Identity>, e: IndexEntry,
                           requester: GuaranteeClass, policy: Policy, self: Identity, under: Ledgers,
                           behind: set<Identity>)
    requires Inv(s) && Victims(s, victims) && Displaceable(e, requester, policy, self)
    requires e.Key() in Indexed(Cleared(s, victims, consumed), under, behind)
             && Indexed(Cleared(s, victims, consumed), under, behind)[e.Key()] == e
    ensures Outranked(s, Key(e.id, e.generation), requester, policy, self)
  {
    hide RevokedAll, HoldsReleased, Inv, Record.Window, AllCurrent, Indexed;
    IndexedIs(Cleared(s, victims, consumed), under, behind, e.Key());
    RevokedAllKeeps(s, victims);
    ReleasedShape(RevokedAll(s, victims), consumed);
    FiledAt(s, Key(e.id, s.current[e.id]));
  }

  /** A record that can be revoked without touching the index: nothing of it is left there. */
  ghost predicate Cleanly(records: RecordTable, key: Key, m: Contents) {
    && key in records && records[key].KeyOf() == key && Without(m, Reservation, key.id) == m
    && Distinct(NamesOf(records[key].refs)) && "" !in NamesOf(records[key].refs) && 0 < records[key].terms.amount
  }

  lemma CleanlyKnown(s: State, victims: seq<Key>, m: Contents)
    requires forall i :: 0 <= i < |victims| ==> Cleanly(s.records, victims[i], m)
    ensures Known(s, victims) && victims[0..] == victims
  {
  }

  lemma RevokedReady(m: Contents, ledger: Ledger, r: Record)
    requires Without(m, Reservation, r.id) == m && r.state == Revoked
    ensures SyncReady(m, ledger, r) && Settled(m, ledger, r) == m
  {
    WithoutTwice(m, r);
  }

  lemma RevokedNext(s: State, keys: seq<Key>)
    requires Known(s, keys)
    ensures keys == [] ==> RevokedAll(s, keys) == s
    ensures keys != [] ==> Known(WithState(s, keys[0], Revoked), keys[1..])
                           && RevokedAll(s, keys) == RevokedAll(WithState(s, keys[0], Revoked), keys[1..])
  {
  }

  lemma RegisteredNext(s: State, rs: seq<Record>)
    ensures rs == [] ==> RegisteredAll(s, rs) == s
    ensures rs != [] ==> RegisteredAll(s, rs) == RegisteredAll(Registered(s, rs[0]), rs[1..])
    ensures rs != [] ==> Registered(s, rs[0]).ledger == s.ledger
  {
  }

  /** The record is the authority of its identity in the state being built. */
  ghost predicate Arrives(goal: State, r: Record) {
    && goal.HasCurrent(r.id) && goal.CurrentRecord(r.id) == r
    && Distinct(NamesOf(r.refs)) && "" !in NamesOf(r.refs) && 0 < r.terms.amount
  }

  lemma LackingAtEnd(m: Contents, ms: seq<Record>)
    ensures Lacking(m, IdsFrom(ms, |ms|)) == m
  {
    assert IdsFrom(ms, |ms|) == {};
  }

  lemma LackingPart(m: Contents, ids: set<Identity>)
    requires Keyed(m) && Representable(m)
    ensures Keyed(Lacking(m, ids)) && Representable(Lacking(m, ids))
  {
    RepresentablePart(m, Lacking(m, ids));
  }

  lemma AdmitBasics(s: State, d: DurableRecord, consumed: set<Identity>, allowance: nat)
    requires CanAdmit(s, d, consumed, allowance)
    ensures Enabled(s, Admit(d, consumed, allowance)) && d.ReservationMutation? && d.attempt.Some?
            && Known(s, d.companions)
    ensures Next(s, Admit(d, consumed, allowance)).ledger == s.ledger
  {
    hide FitsIn, Wellbound, RevokedAll, RegisteredAll, Remembered;
    AdmitApplicable(s, d, consumed, allowance);
    MutationLedger(s, d);
  }

  lemma MutationLedger(s: State, d: DurableRecord)
    requires d.ReservationMutation? && Applicable(s, d)
    ensures Applied(s, d).ledger == s.ledger
  {
    hide RegisteredAll, RevokedAll, Remembered, Predeceased, Grouped, Known;
    var s1 := Registered(Predeceased(s, d), d.record);
    PredeceasedLedger(s, d);
    RegisteredAllLedger(s1, d.members);
    var s2 := RegisteredAll(s1, d.members);
    GroupedKeeps(s2, d);
    GroupedStillKnown(s2, d);
    RevokedAllKeeps(Grouped(s2, d), d.companions);
    if d.attempt.Some? { RememberedKeeps(RevokedAll(Grouped(s2, d), d.companions), d.attempt.value); }
  }

  lemma GroupedStillKnown(s: State, d: DurableRecord)
    requires d.ReservationMutation?
    ensures Known(Grouped(s, d), d.companions) == Known(s, d.companions)
  {
  }

  lemma PredeceasedLedger(s: State, d: DurableRecord)
    requires d.ReservationMutation?
    ensures Registered(Predeceased(s, d), d.record).ledger == s.ledger
  {
  }

  lemma {:induction false} RegisteredAllLedger(s: State, rs: seq<Record>)
    ensures RegisteredAll(s, rs).ledger == s.ledger
    decreases |rs|
  {
    if rs != [] { RegisteredAllLedger(Registered(s, rs[0]), rs[1..]); }
  }

  lemma VictimClean(s: State, victims: seq<Key>, consumed: set<Identity>, i: nat, under: Ledgers, behind: set<Identity>)
    requires Healthy(s) && Victims(s, victims) && i < |victims|
    ensures Cleanly(s.records, victims[i], Indexed(Cleared(s, victims, consumed), under, behind))
  {
    VictimsGone(s, victims, consumed, i, under, behind);
    HealthyRecord(s, victims[i]);
    hide Healthy, Indexed, Cleared;
  }

  lemma AdmitArrives(s: State, d: DurableRecord, consumed: set<Identity>, allowance: nat, i: nat)
    requires Inv(s) && CanAdmit(s, d, consumed, allowance) && i < |Members(d)|
    ensures Arrives(Next(s, Admit(d, consumed, allowance)), Members(d)[i])
  {
    hide Inv, Applied, RecordMap, GenerationMap, FitsIn, Chained, HoldsReleased, AllCurrent;
    InvChained(s);
    AdmitParts(s, d, consumed, allowance);
    AdmitShape(s, d, consumed, allowance);
    ReleasedShape(Written(s, d), consumed);
    WellboundParts(s, d, consumed, allowance, i);
    JoinedNew(s.records, s.current, Members(d), i);
    NotAVictim(s, d, consumed, allowance, i);
  }

  lemma NotAVictim(s: State, d: DurableRecord, consumed: set<Identity>, allowance: nat, i: nat)
    requires Inv(s) && CanAdmit(s, d, consumed, allowance) && i < |Members(d)|
    ensures Members(d)[i].KeyOf() !in d.companions && Members(d)[i].KeyOf() !in s.records
            && Members(d)[i].generation == 1
  {
    hide FitsIn, Wellbound, GapFree, OneAuthority, SoundRecords, SoundHolds, SoundLedger;
    assert Members(d)[i].id !in s.current;
  }

  // ---------------------------------------------------------------------------
  // What the index holds beyond what the records call for
  // ---------------------------------------------------------------------------

  lemma ClearedAligned(s: State, victims: seq<Key>, consumed: set<Identity>, behind: set<Identity>)
    requires Known(s, victims) && Aligned(s.ledger, s.records, behind) && Sized(s)
    ensures var base := Cleared(s, victims, consumed);
            base.ledger == s.ledger && Aligned(base.ledger, base.records, behind) && Sized(base)
  {
    hide RevokedAll, HoldsReleased, AllCurrent;
    RevokedAllKeeps(s, victims);
    ReleasedShape(RevokedAll(s, victims), consumed);
  }

  lemma IndexedCoversKey(s: State, under: Ledgers, behind: set<Identity>, k: EntryKey)
    requires Aligned(s.ledger, s.records, behind) && k in Expected(s)
    ensures k in Indexed(s, under, behind) && Indexed(s, under, behind)[k] == Expected(s)[k]
  {
    hide Record.Window, AllCurrent, Indexed, Expected;
    ExpectedIs(s, k);
    IndexedIs(s, under, behind, k);
  }

  /** The index carries at least what the records call for: those behind only add to it. */
  lemma IndexedCovers(s: State, under: Ledgers, behind: set<Identity>, resource: ResourceName, t: int)
    requires Aligned(s.ledger, s.records, behind) && Sized(s)
    ensures LoadOn(Expected(s), resource, Combined, t) <= LoadOn(Indexed(s, under, behind), resource, Combined, t)
  {
    hide Indexed, Expected, LoadOn, Aligned, Sized;
    IndexedUnique(Indexed(s, under, behind), s, under, behind);
    MixKeyed(s, Indexed(s, under, behind), under, behind);
    OnKeyed(Indexed(s, under, behind), resource);
    forall k | k in Expected(s) ensures k in Indexed(s, under, behind)
        && Indexed(s, under, behind)[k] == Expected(s)[k] {
      IndexedCoversKey(s, under, behind, k);
    }
    PartWeighsLess(Indexed(s, under, behind), Expected(s), resource, t);
  }

  /** What fits beside the index fits beside what the records call for. */
  lemma FitsBesideIndex(s: State, victims: seq<Key>, consumed: set<Identity>, under: Ledgers, behind: set<Identity>,
                        names: seq<ResourceName>, window: Interval, amount: int, allowance: nat)
    requires Known(s, victims) && Aligned(s.ledger, s.records, behind) && Sized(s)
    requires FitsIn(s.ledger, Indexed(Cleared(s, victims, consumed), under, behind), names, window, amount, allowance)
    ensures FitsIn(s.ledger, Expected(Cleared(s, victims, consumed)), names, window, amount, allowance)
  {
    hide Indexed, Expected, LoadOn, Aligned, Sized, Cleared, FitsIn;
    var base := Cleared(s, victims, consumed);
    ClearedAligned(s, victims, consumed, behind);
    forall i, t | 0 <= i < |names| && window.Contains(t)
      ensures LoadOn(Expected(base), names[i], Combined, t)
              <= LoadOn(Indexed(base, under, behind), names[i], Combined, t)
    {
      IndexedCovers(base, under, behind, names[i], t);
    }
    FitsBeneath(s.ledger, Indexed(base, under, behind), Expected(base), names, window, amount, allowance);
  }
}

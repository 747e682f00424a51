/**
 Capacity closure: committed plus held bandwidth never exceeds the committable
 ceiling of a live resource, at any instant, along any run of tame steps.
 */
module Closure {
  import opened Timeline
  import opened Claims
  import opened Entries
  import opened Records
  import opened FabricState
  import opened Steps
  import opened Lineage

  ghost predicate ClosedOn(s: State, resource: ResourceName, t: int) {
    Live(s.ledger, resource) ==> LoadOn(Expected(s), resource, Combined, t) <= s.ledger[resource].capacity.Ceiling()
  }

  /** No live resource is promised beyond its ceiling at any instant. */
  ghost predicate Closed(s: State) {
    forall resource, t :: ClosedOn(s, resource, t)
  }

  /** Sums are compared after a cap, so the cap must lie above every ceiling. */
  ghost predicate BelowCap(ledger: Ledger) {
    forall r :: r in ledger ==> ledger[r].capacity.Ceiling() < MAX_BANDWIDTH_BPS
  }

  /** A restated resource either did not change or moved to a later generation. */
  ghost predicate OnlyForward(before: Ledger, after: Ledger) {
    forall r :: r in before && Live(after, r) ==>
      after[r] == before[r] || before[r].capacity.generation < after[r].capacity.generation
  }

  /** One set of entries loads every resource at least as much as another at every instant. */
  ghost predicate Outweighs(high: Contents, low: Contents) {
    forall resource, t :: LoadOn(low, resource, Combined, t) <= LoadOn(high, resource, Combined, t)
  }

  /** Steps taken under no-overcommit policies that never widen what is already bound. */
  ghost predicate Restrained(s: State, step: Step)
    requires Enabled(s, step)
  {
    match step
    case Admit(_, _, allowance) => allowance == 0
    case Supersede(d, measured, allowance) =>
      allowance == 0 && Outweighs(measured, Expected(WithState(s, d.record.predecessor.value, Superseded)))
    case TakeHold(_, allowance) => allowance == 0
    case Note(d) =>
      d.ApplicabilityMutation? && s.records[d.key].applicability == StaleBinding && d.applicability != StaleBinding ==>
        !AllCurrent(s.ledger, s.records[d.key].refs)
    case Recall(d, grace) =>
      s.records[d.key].(recallAt := d.recallAt, grace := grace).Window().Within(s.records[d.key].Window())
    case Ingest(d, _) => OnlyForward(s.ledger, Applied(s, d).ledger)
    case DropHolds(_) => true
  }

  /** Restrained, and no ceiling is stated at the cap. */
  ghost predicate Tame(s: State, step: Step)
    requires Enabled(s, step)
  {
    Restrained(s, step) && (step.Ingest? ==> BelowCap(Applied(s, step.d).ledger))
  }

  // ---------------------------------------------------------------------------
  // Comparing the loads two states call for, key by key
  // ---------------------------------------------------------------------------

  /** What the key's entry, if any, puts on instant `t`. */
  function Pull(s: State, k: EntryKey, t: int): int {
    match Wanted(s, k)
    case None => 0
    case Some(e) => Weight(e, Combined, t)
  }

  lemma ExpectedKeyed(s: State)
    requires Inv(s)
    ensures Keyed(Expected(s))
  {
    forall k | k in Expected(s) ensures Expected(s)[k].Key() == k && Expected(s)[k].Wellformed() {
      ExpectedIs(s, k);
      if k.kind == Reservation {
        ReservationKeyed(s, k);
      } else {
        assert SoundHold(s.ledger, s.holds[k.id]);
      }
    }
  }

  lemma ReservationKeyed(s: State, k: EntryKey)
    requires Inv(s) && k.kind == Reservation && Wanted(s, k).Some?
    ensures Wanted(s, k).value.Key() == k && Wanted(s, k).value.Wellformed()
  {
    var r := s.CurrentRecord(k.id);
    assert SoundRecord(s.ledger, r);
    var i :| 0 <= i < |r.refs| && r.refs[i].resource == k.resource;
    assert NamesOf(r.refs)[i] == k.resource;
  }

  lemma OnExpected(s: State, resource: ResourceName, k: EntryKey)
    ensures k in On(Expected(s), resource) <==> k.resource == resource && Wanted(s, k).Some?
    ensures k in On(Expected(s), resource) ==> On(Expected(s), resource)[k] == Wanted(s, k).value
  {
    ExpectedIs(s, k);
  }

  /** Where no key pulls more than before, the load did not grow. */
  lemma LoadFollows(after: State, before: State, resource: ResourceName, t: int)
    requires Keyed(Expected(after)) && Keyed(Expected(before))
    requires forall k: EntryKey :: k.resource == resource ==> Pull(after, k, t) <= Pull(before, k, t)
    ensures LoadOn(Expected(after), resource, Combined, t) <= LoadOn(Expected(before), resource, Combined, t)
  {
    hide Wanted, Expected, On, Load, ClaimsOf;
    var a, b := On(Expected(after), resource), On(Expected(before), resource);
    OnKeyed(Expected(after), resource);
    OnKeyed(Expected(before), resource);
    forall k | k in a && Weight(a[k], Combined, t) != 0
      ensures k in b && Weight(a[k], Combined, t) <= Weight(b[k], Combined, t)
    {
      OnExpected(after, resource, k);
      OnExpected(before, resource, k);
    }
    LoadDominated(a, b, Combined, t);
  }

  lemma OnKeyed(m: Contents, resource: ResourceName)
    requires Keyed(m)
    ensures Keyed(On(m, resource))
  {
  }

  /** Where only one key pulls more than before, the load grew by its pull at most. */
  lemma LoadFollowsButOne(after: State, before: State, key: EntryKey, t: int)
    requires Keyed(Expected(after)) && Keyed(Expected(before)) && Wanted(after, key).Some?
    requires forall k: EntryKey :: k.resource == key.resource && k != key ==> Pull(after, k, t) <= Pull(before, k, t)
    ensures LoadOn(Expected(after), key.resource, Combined, t)
            <= LoadOn(Expected(before), key.resource, Combined, t) + Pull(after, key, t)
  {
    hide Wanted, Expected, On, Load, ClaimsOf;
    var a, b := On(Expected(after), key.resource), On(Expected(before), key.resource);
    OnKeyed(Expected(after), key.resource);
    OnKeyed(Expected(before), key.resource);
    OnExpected(after, key.resource, key);
    forall k | k in a && k != key && Weight(a[k], Combined, t) != 0
      ensures k in b && Weight(a[k], Combined, t) <= Weight(b[k], Combined, t)
    {
      OnExpected(after, key.resource, k);
      OnExpected(before, key.resource, k);
    }
    LoadPlusOne(a, b, key, Combined, t);
  }

  lemma PullNonNegative(s: State, k: EntryKey, t: int)
    requires Keyed(Expected(s))
    ensures 0 <= Pull(s, k, t)
  {
    ExpectedIs(s, k);
  }

  /** A state that keeps the ledger and pulls no more anywhere stays closed. */
  lemma ClosedFollows(before: State, after: State)
    requires Inv(before) && Inv(after) && Closed(before) && after.ledger == before.ledger
    requires forall k, t :: Pull(after, k, t) <= Pull(before, k, t)
    ensures Closed(after)
  {
    hide Inv, Wanted, Expected, LoadOn, Pull;
    ExpectedKeyed(before);
    ExpectedKeyed(after);
    forall resource, t ensures ClosedOn(after, resource, t) {
      assert ClosedOn(before, resource, t);
      LoadFollows(after, before, resource, t);
    }
  }

  // ---------------------------------------------------------------------------
  // Steps that only give capacity back
  // ---------------------------------------------------------------------------

  /** The record stays what it was bound to and consumes no more than it did. */
  ghost predicate Lessened(before: Record, after: Record) {
    && after.KeyOf() == before.KeyOf() && after.terms == before.terms && after.refs == before.refs
    && (after.Consumes() ==> before.Consumes())
    && after.Window().Within(before.Window())
  }

  ghost predicate LessenedAll(before: RecordTable, after: RecordTable) {
    after.Keys == before.Keys && forall k :: k in before ==> Lessened(before[k], after[k])
  }

  lemma LessenedPulls(before: State, after: State, k: EntryKey, t: int)
    requires Inv(before) && LessenedAll(before.records, after.records)
    requires after.ledger == before.ledger && after.current == before.current && after.holds == before.holds
    ensures Pull(after, k, t) <= Pull(before, k, t)
  {
    hide Chained, SoundLedger, SoundHolds;
    if k.kind == Reservation && before.HasCurrent(k.id) {
      var r, r' := before.CurrentRecord(k.id), after.CurrentRecord(k.id);
      assert SoundRecord(before.ledger, r) && Lessened(r, r');
      assert r'.Binds(k.resource) ==> r.Binds(k.resource);
    }
  }

  lemma LessenedStaysClosed(before: State, after: State)
    requires Inv(before) && Inv(after) && Closed(before) && LessenedAll(before.records, after.records)
    requires after.ledger == before.ledger && after.current == before.current && after.holds == before.holds
    ensures Closed(after)
  {
    hide Inv, Pull, LessenedAll, Closed;
    forall k, t ensures Pull(after, k, t) <= Pull(before, k, t) {
      LessenedPulls(before, after, k, t);
    }
    ClosedFollows(before, after);
  }

  lemma ReleasedPulls(s: State, ids: set<Identity>, k: EntryKey, t: int)
    requires Inv(s)
    ensures Pull(HoldsReleased(s, ids), k, t) <= Pull(s, k, t)
  {
    hide Chained, SoundLedger, SoundRecords;
    if k.kind == HolderKind.Hold && k.id in s.holds {
      assert SoundHold(s.ledger, s.holds[k.id]);
    }
  }

  lemma ReleasedStaysClosed(s: State, ids: set<Identity>)
    requires Inv(s) && Closed(s)
    ensures Inv(HoldsReleased(s, ids)) && Closed(HoldsReleased(s, ids))
  {
    hide Inv, Pull, Closed;
    ReleasedKeepsInv(s, ids);
    forall k, t ensures Pull(HoldsReleased(s, ids), k, t) <= Pull(s, k, t) {
      ReleasedPulls(s, ids, k, t);
    }
    ClosedFollows(s, HoldsReleased(s, ids));
  }

  lemma LessenedOne(s: State, key: Key, r: Record)
    requires key in s.records && Lessened(s.records[key], r)
    ensures LessenedAll(s.records, s.records[key := r])
  {
  }

  lemma NoteStaysClosed(s: State, d: DurableRecord)
    requires Inv(s) && Closed(s) && CanNote(s, d) && Tame(s, Note(d))
    ensures Closed(Written(s, d))
  {
    hide Inv, Closed, Applied, Pull;
    NoteKeepsInv(s, d);
    NoteShape(s, d);
    match d {
      case StateMutation(key, to, _, _) => LessenedOne(s, key, s.records[key].(state := to));
      case ApplicabilityMutation(key, applicability, reason) =>
        if s.records[key].applicability == StaleBinding && applicability != StaleBinding {
          UnboundStaysClosed(s, Written(s, d), key, s.records[key].(applicability := applicability, reason := reason));
          return;
        }
        LessenedOne(s, key, s.records[key].(applicability := applicability, reason := reason));
      case _ =>
    }
    LessenedStaysClosed(s, Written(s, d));
  }

  /** A record whose bindings the ledger does not bear out takes nothing, whatever it is marked. */
  lemma UnboundStaysClosed(s: State, s': State, key: Key, r: Record)
    requires Inv(s) && Inv(s') && Closed(s) && key in s.records && !AllCurrent(s.ledger, s.records[key].refs)
    requires r.refs == s.records[key].refs && s'.records == s.records[key := r]
    requires s'.ledger == s.ledger && s'.current == s.current && s'.holds == s.holds
    ensures Closed(s')
  {
    hide Inv, Pull, Closed, AllCurrent;
    forall k, t ensures Pull(s', k, t) <= Pull(s, k, t) {
      UnboundPulls(s, s', key, r, k, t);
    }
    ClosedFollows(s, s');
  }

  lemma UnboundPulls(s: State, s': State, key: Key, r: Record, k: EntryKey, t: int)
    requires key in s.records && !AllCurrent(s.ledger, s.records[key].refs)
    requires r.refs == s.records[key].refs && s'.records == s.records[key := r]
    requires s'.ledger == s.ledger && s'.current == s.current && s'.holds == s.holds
    ensures Pull(s', k, t) <= Pull(s, k, t)
  {
    hide AllCurrent, Record.Window;
  }

  lemma RecallStaysClosed(s: State, d: DurableRecord, grace: int)
    requires Inv(s) && Closed(s) && CanRecall(s, d) && Restrained(s, Recall(d, grace))
    ensures Closed(WithGrace(Written(s, d), d.key, grace))
  {
    hide Inv, Closed, Applied, Pull;
    RecallKeepsInv(s, d, grace);
    NoteShape(s, d);
    var r := s.records[d.key].(state := RecallPending, recallAt := d.recallAt);
    TwiceIsOnce(s.records, d.key, r, r.(grace := grace));
    assert Lessened(s.records[d.key], r.(grace := grace)) by {
      assert s.records[d.key].(recallAt := d.recallAt, grace := grace).Window() == r.(grace := grace).Window();
    }
    LessenedOne(s, d.key, r.(grace := grace));
    LessenedStaysClosed(s, WithGrace(Written(s, d), d.key, grace));
  }

  // ---------------------------------------------------------------------------
  // Steps that take capacity
  // ---------------------------------------------------------------------------

  /** The true sum goes past a ceiling that sits at the cap, which the capped sum cannot show. */
  ghost predicate OverCap(ledger: Ledger, base: Contents, names: seq<ResourceName>, window: Interval, amount: int,
                          i: nat, t: int)
  {
    && i < |names| && window.Contains(t) && names[i] in ledger
    && ledger[names[i]].capacity.Ceiling() == MAX_BANDWIDTH_BPS
    && LoadOn(base, names[i], Combined, t) + amount > MAX_BANDWIDTH_BPS
  }

  ghost predicate NeverOverCap(ledger: Ledger, base: Contents, names: seq<ResourceName>, window: Interval,
                               amount: int)
  {
    forall i: nat, t :: !OverCap(ledger, base, names, window, amount, i, t)
  }

  lemma BelowCapIsNever(ledger: Ledger, base: Contents, names: seq<ResourceName>, window: Interval, amount: int)
    requires BelowCap(ledger)
    ensures NeverOverCap(ledger, base, names, window, amount)
  {
    hide LoadOn;
  }

  /** What a step takes never goes past a ceiling at the cap. */
  ghost predicate CapSafe(s: State, step: Step)
    requires Enabled(s, step)
  {
    match step
    case Admit(d, consumed, _) => AdmitsBelowCap(s, d, consumed)
    case Supersede(d, _, _) => SupersedesBelowCap(s, d)
    case TakeHold(h, _) => NeverOverCap(s.ledger, Expected(s), h.resources, h.interval, h.amount)
    case _ => true
  }

  ghost predicate AdmitsBelowCap(s: State, d: DurableRecord, consumed: set<Identity>)
    requires d.ReservationMutation? && Known(s, d.companions)
  {
    forall i :: 0 <= i < |Members(d)| ==>
      NeverOverCap(s.ledger, Expected(Cleared(s, d.companions, consumed)), NamesOf(d.record.refs),
                   Members(d)[i].terms.interval, d.record.terms.amount)
  }

  ghost predicate SupersedesBelowCap(s: State, d: DurableRecord)
    requires d.ReservationMutation? && d.record.predecessor.Some? && d.record.predecessor.value in s.records
  {
    NeverOverCap(s.ledger, Expected(WithState(s, d.record.predecessor.value, Superseded)), NamesOf(d.record.refs),
                 d.record.Window(), d.record.terms.amount)
  }

  /** The capped test against a higher load is the exact one wherever the cap hides nothing. */
  lemma FitsExactly(ledger: Ledger, measured: Contents, base: Contents, names: seq<ResourceName>, window: Interval,
                    within: Interval, amount: int, i: nat, t: int)
    requires SoundLedger(ledger) && FitsIn(ledger, measured, names, window, amount, 0)
    requires i < |names| && window.Contains(t) && within.Contains(t)
    requires LoadOn(base, names[i], Combined, t) <= LoadOn(measured, names[i], Combined, t)
    requires !OverCap(ledger, base, names, within, amount, i, t)
    ensures names[i] in ledger && LoadOn(base, names[i], Combined, t) + amount <= ledger[names[i]].capacity.Ceiling()
  {
    hide LoadOn;
  }

  lemma TakeHoldStaysClosed(s: State, h: Hold)
    requires Inv(s) && Closed(s) && CanTakeHold(s, h, 0)
    requires NeverOverCap(s.ledger, Expected(s), h.resources, h.interval, h.amount)
    ensures Closed(s.(holds := s.holds[h.id := h]))
  {
    hide Inv, FitsIn, OverCap, LoadOn, Expected, SoundLedger;
    InvLedger(s);
    TakeHoldKeepsInv(s, h, 0);
    var s' := s.(holds := s.holds[h.id := h]);
    ExpectedKeyed(s);
    ExpectedKeyed(s');
    forall resource, t ensures ClosedOn(s', resource, t) {
      assert ClosedOn(s, resource, t);
      var key := EntryKey(HolderKind.Hold, h.id, resource);
      forall k: EntryKey | k.resource == resource && (k != key || resource !in h.resources || !h.interval.Contains(t))
        ensures Pull(s', k, t) <= Pull(s, k, t)
      {
        PullNonNegative(s, k, t);
      }
      if resource in h.resources && h.interval.Contains(t) {
        var i :| 0 <= i < |h.resources| && h.resources[i] == resource;
        LoadFollowsButOne(s', s, key, t);
        FitsExactly(s.ledger, Expected(s), Expected(s), h.resources, h.interval, h.interval, h.amount, i, t);
      } else {
        LoadFollows(s', s, resource, t);
      }
    }
  }

  lemma RevokedLessens(before: Record, key: Key, victims: seq<Key>)
    requires 0 <= before.recallAt && (IsTerminal(before.state) || ConsumesCapacity(before.state))
             && (key in victims ==> before.Consumes())
    ensures var after := if key in victims then before.(state := Revoked) else before;
            RetouchedRecord(before, after) && Lessened(before, after)
  {
  }

  /** Revoking the victims and setting the named holds aside takes nothing. */
  lemma ClearedStaysClosed(s: State, victims: seq<Key>, consumed: set<Identity>)
    requires Inv(s) && Closed(s) && Known(s, victims)
    requires forall i :: 0 <= i < |victims| ==> s.records[victims[i]].Consumes()
    ensures Inv(Cleared(s, victims, consumed)) && Closed(Cleared(s, victims, consumed))
  {
    hide Inv, Closed, Pull, RevokedAll, HoldsReleased, Lessened, RetouchedRecord, Record.Consumes;
    RevokedAllKeeps(s, victims);
    var s' := RevokedAll(s, victims);
    forall k | k in s.records
      ensures RetouchedRecord(s.records[k], s'.records[k]) && Lessened(s.records[k], s'.records[k])
    {
      NoteKeepsRecall(s, k);
      RevokedLessens(s.records[k], k, victims);
    }
    RetouchKeepsInv(s, s');
    LessenedStaysClosed(s, s');
    ReleasedStaysClosed(s', consumed);
  }

  /** The successor replaces its predecessor's claim on every resource it binds. */
  lemma SupersedePulls(s: State, d: DurableRecord, measured: Contents, allowance: nat, k: EntryKey)
    requires Inv(s) && CanSupersede(s, d, measured, allowance)
    ensures Applicable(s, d)
    ensures !(k.kind == Reservation && k.id == d.record.id) ==>
      Wanted(Written(s, d), k) == Wanted(WithState(s, d.record.predecessor.value, Superseded), k)
    ensures k.kind == Reservation && k.id == d.record.id ==>
      Wanted(Written(s, d), k) ==
      if Indexable(s.ledger, d.record) && d.record.Binds(k.resource) then Some(d.record.Entry(k.resource)) else None
  {
    hide FitsIn, Inv, Applied, Indexable;
    SupersedeShape(s, d, measured, allowance);
  }

  lemma SupersedeBase(s: State, d: DurableRecord, measured: Contents, allowance: nat)
    requires Inv(s) && Closed(s) && CanSupersede(s, d, measured, allowance)
    ensures var base := WithState(s, d.record.predecessor.value, Superseded);
            Inv(base) && Closed(base) && base.ledger == s.ledger
  {
    hide FitsIn, Closed, Chained;
    var p := d.record.predecessor.value;
    NoteKeepsRecall(s, p);
    RetouchOne(s, WithState(s, p, Superseded), p, s.records[p].(state := Superseded));
    hide Inv;
    LessenedOne(s, p, s.records[p].(state := Superseded));
    LessenedStaysClosed(s, WithState(s, p, Superseded));
  }

  lemma SupersedeStaysClosed(s: State, d: DurableRecord, measured: Contents)
    requires Inv(s) && Closed(s) && CanSupersede(s, d, measured, 0) && SupersedesBelowCap(s, d)
    requires Outweighs(measured, Expected(WithState(s, d.record.predecessor.value, Superseded)))
    ensures Applicable(s, d) && Closed(Written(s, d))
  {
    hide Inv, FitsIn, NeverOverCap, LoadOn, Expected, Wanted, Applied;
    SupersedeKeepsInv(s, d, measured, 0);
    SupersedeBase(s, d, measured, 0);
    SupersedeShape(s, d, measured, 0);
    var s', base := Written(s, d), WithState(s, d.record.predecessor.value, Superseded);
    ExpectedKeyed(base);
    ExpectedKeyed(s');
    forall resource, t ensures ClosedOn(s', resource, t) {
      assert ClosedOn(base, resource, t);
      SupersedeCloses(s, s', base, d, measured, resource, t);
    }
  }

  lemma SupersedeCloses(s: State, s': State, base: State, d: DurableRecord, measured: Contents, resource: ResourceName,
                        t: int)
    requires Inv(s) && CanSupersede(s, d, measured, 0) && Applicable(s, d) && SupersedesBelowCap(s, d)
    requires s' == Written(s, d) && base == WithState(s, d.record.predecessor.value, Superseded)
    requires Keyed(Expected(s')) && Keyed(Expected(base)) && Outweighs(measured, Expected(base))
    requires ClosedOn(base, resource, t) && s'.ledger == s.ledger
    ensures ClosedOn(s', resource, t)
  {
    hide Inv, FitsIn, OverCap, LoadOn, Expected, Wanted, Applied, Written, SoundLedger;
    InvLedger(s);
    var key := EntryKey(Reservation, d.record.id, resource);
    SupersedePulls(s, d, measured, 0, key);
    var covers := Wanted(s', key).Some? && Pull(s', key, t) != 0;
    forall k: EntryKey | k.resource == resource && (k != key || !covers)
      ensures Pull(s', k, t) <= Pull(base, k, t)
    {
      SupersedePulls(s, d, measured, 0, k);
      PullNonNegative(base, k, t);
    }
    if covers {
      LoadFollowsButOne(s', base, key, t);
      var i :| 0 <= i < |d.record.refs| && d.record.refs[i].resource == resource;
      FitsExactly(s.ledger, measured, Expected(base), NamesOf(d.record.refs), d.record.terms.interval,
                  d.record.Window(),
                  d.record.terms.amount, i, t);
    } else {
      LoadFollows(s', base, resource, t);
    }
  }

  // ---------------------------------------------------------------------------
  // Admission
  // ---------------------------------------------------------------------------

  /** The authority an identity has, if any. */
  function Authority(records: RecordTable, current: Generations, id: Identity): Option<Record> {
    if id in current && Key(id, current[id]) in records then Some(records[Key(id, current[id])]) else None
  }

  lemma JoinedOld(records: RecordTable, current: Generations, rs: seq<Record>, id: Identity)
    requires DistinctIds(rs) && forall i :: 0 <= i < |rs| ==> rs[i].id != id
    ensures id in current + GenerationMap(rs) <==> id in current
    ensures id in current ==> (current + GenerationMap(rs))[id] == current[id]
    ensures forall g :: Key(id, g) !in RecordMap(rs)
  {
    RecordMapIs(rs);
    GenerationMapIs(rs);
  }

  lemma JoinedNew(records: RecordTable, current: Generations, rs: seq<Record>, i: nat)
    requires DistinctIds(rs) && i < |rs|
    ensures rs[i].id in current + GenerationMap(rs) && (current + GenerationMap(rs))[rs[i].id] == rs[i].generation
    ensures rs[i].KeyOf() in RecordMap(rs) && RecordMap(rs)[rs[i].KeyOf()] == rs[i]
  {
    RecordMapIs(rs);
    GenerationMapIs(rs);
  }

  lemma InvChained(s: State)
    requires Inv(s)
    ensures Chained(s) && Filed(s.records, s.current)
  {
  }

  /** What a key calls for depends on the ledger, the identity's authority and the holds. */
  lemma SameWanted(a: State, b: State, k: EntryKey)
    requires a.ledger == b.ledger && a.holds == b.holds
    requires k.kind == Reservation ==> Authority(a.records, a.current, k.id) == Authority(b.records, b.current, k.id)
    ensures Wanted(a, k) == Wanted(b, k)
  {
    hide Indexable;
  }

  lemma AuthorityKept(before: RecordTable, current: Generations, rs: seq<Record>, after: RecordTable, base: RecordTable,
                      keys: seq<Key>, id: Identity)
    requires DistinctIds(rs) && forall i :: 0 <= i < |rs| ==> rs[i].id != id
    requires after.Keys == before.Keys + RecordMap(rs).Keys && RevokedIn(before + RecordMap(rs), after, keys)
    requires base.Keys == before.Keys && RevokedIn(before, base, keys)
    ensures Authority(after, current + GenerationMap(rs), id) == Authority(base, current, id)
  {
    hide DistinctIds, RecordMap, GenerationMap;
    JoinedOld(before, current, rs, id);
  }

  /** Outside the new members an admission leaves exactly what it was evaluated against. */
  lemma AdmitOthers(s: State, d: DurableRecord, consumed: set<Identity>, allowance: nat, k: EntryKey, ledger: Ledger)
    requires Inv(s) && CanAdmit(s, d, consumed, allowance)
    requires k.kind == Reservation ==> forall i :: 0 <= i < |Members(d)| ==> Members(d)[i].id != k.id
    ensures Applicable(s, d)
    ensures Wanted(HoldsReleased(Written(s, d), consumed), k) == Wanted(Cleared(s, d.companions, consumed), k)
    ensures Wanted(HoldsReleased(Written(s, d), consumed).(ledger := ledger), k)
            == Wanted(Cleared(s, d.companions, consumed).(ledger := ledger), k)
  {
    hide FitsIn, Inv, Chained, Applied, Authority, FreshMembers, DistinctIds, RecordMap, GenerationMap, RevokedAll;
    hide HoldsReleased, Wanted;
    InvChained(s);
    AdmitShape(s, d, consumed, allowance);
    RevokedAllKeeps(s, d.companions);
    HoldsMatch(Written(s, d), RevokedAll(s, d.companions), consumed);
    if k.kind == Reservation {
      AuthorityKept(s.records, s.current, Members(d), Written(s, d).records, RevokedAll(s, d.companions).records,
                    d.companions, k.id);
    }
    SameWanted(HoldsReleased(Written(s, d), consumed), Cleared(s, d.companions, consumed), k);
    SameWanted(HoldsReleased(Written(s, d), consumed).(ledger := ledger),
               Cleared(s, d.companions, consumed).(ledger := ledger), k);
  }

  /** Every member is the authority of its identity and revoked by nobody. */
  lemma AdmitMembers(s: State, d: DurableRecord, consumed: set<Identity>, allowance: nat, i: nat,
                     resource: ResourceName)
    requires Inv(s) && CanAdmit(s, d, consumed, allowance) && i < |Members(d)|
    ensures Applicable(s, d)
    ensures var m, k := Members(d)[i], EntryKey(Reservation, Members(d)[i].id, resource);
            && Wanted(HoldsReleased(Written(s, d), consumed), k) ==
               (if Indexable(s.ledger, m) && m.Binds(resource) then Some(m.Entry(resource)) else None)
            && Wanted(Cleared(s, d.companions, consumed), k) == None
  {
    hide FitsIn, Inv, Chained, Applied, Indexable, Wellbound, DistinctIds, RecordMap, GenerationMap, RevokedAll,
         HoldsReleased;
    InvChained(s);
    AdmitShape(s, d, consumed, allowance);
    RevokedAllKeeps(s, d.companions);
    HoldsMatch(Written(s, d), RevokedAll(s, d.companions), consumed);
    JoinedNew(s.records, s.current, Members(d), i);
    assert Members(d)[i].id !in s.current;
    assert Members(d)[i].KeyOf() !in s.records;
  }

  lemma HoldsMatch(a: State, b: State, ids: set<Identity>)
    requires a.holds == b.holds
    ensures HoldsReleased(a, ids).holds == HoldsReleased(b, ids).holds
    ensures HoldsReleased(a, ids) == a.(holds := HoldsReleased(a, ids).holds)
    ensures HoldsReleased(b, ids) == b.(holds := HoldsReleased(b, ids).holds)
  {
  }

  /** The member whose window covers the instant, if there is one. */
  ghost predicate Covers(d: DurableRecord, i: nat, resource: ResourceName, t: int)
    requires d.ReservationMutation?
  {
    i < |Members(d)| && Members(d)[i].Binds(resource) && Members(d)[i].terms.interval.Contains(t)
  }

  lemma AdmitPulls(s: State, d: DurableRecord, consumed: set<Identity>, k: EntryKey, t: int)
    requires Inv(s) && CanAdmit(s, d, consumed, 0)
    requires forall i :: 0 <= i < |Members(d)| && Covers(d, i, k.resource, t) ==>
      k != EntryKey(Reservation, Members(d)[i].id, k.resource)
    requires Keyed(Expected(Cleared(s, d.companions, consumed)))
    ensures Applicable(s, d)
    ensures Pull(HoldsReleased(Written(s, d), consumed), k, t) <= Pull(Cleared(s, d.companions, consumed), k, t)
  {
    hide FitsIn, Inv, Wanted, Applied, Cleared, HoldsReleased, Indexable, Wellbound;
    PullNonNegative(Cleared(s, d.companions, consumed), k, t);
    if i :| 0 <= i < |Members(d)| && k.kind == Reservation && Members(d)[i].id == k.id {
      AdmitMembers(s, d, consumed, 0, i, k.resource);
      assert !Covers(d, i, k.resource, t);
    } else {
      AdmitOthers(s, d, consumed, 0, k, s.ledger);
    }
  }

  lemma ClearedLedger(s: State, victims: seq<Key>, consumed: set<Identity>)
    requires Known(s, victims)
    ensures Cleared(s, victims, consumed).ledger == s.ledger
  {
    hide RevokedAll;
    RevokedAllKeeps(s, victims);
  }

  /** Windows of one commit are disjoint, so one member at most covers an instant. */
  lemma OneCovers(s: State, d: DurableRecord, i: nat, resource: ResourceName, t: int)
    requires d.ReservationMutation? && FreshMembers(s, Members(d)) && Covers(d, i, resource, t)
    ensures forall j :: 0 <= j < |Members(d)| && j != i ==> !Covers(d, j, resource, t)
  {
    forall j | 0 <= j < |Members(d)| && j != i ensures !Covers(d, j, resource, t) {
      hide Wellbound;
      var x, y := Members(d)[if i < j then i else j], Members(d)[if i < j then j else i];
      assert !x.terms.interval.Overlaps(y.terms.interval);
    }
  }

  lemma AdmitClosesOn(s: State, d: DurableRecord, consumed: set<Identity>, i: nat, resource: ResourceName, t: int)
    requires Inv(s) && CanAdmit(s, d, consumed, 0) && AdmitsBelowCap(s, d, consumed)
    requires Applicable(s, d) && Written(s, d).ledger == s.ledger && Covers(d, i, resource, t)
    requires Keyed(Expected(Cleared(s, d.companions, consumed)))
    requires Keyed(Expected(HoldsReleased(Written(s, d), consumed)))
    requires forall k: EntryKey :: k.resource == resource && k != EntryKey(Reservation, Members(d)[i].id, resource) ==>
      Pull(HoldsReleased(Written(s, d), consumed), k, t) <= Pull(Cleared(s, d.companions, consumed), k, t)
    ensures ClosedOn(HoldsReleased(Written(s, d), consumed), resource, t)
  {
    hide Inv, Applied, Wanted, LoadOn, Expected, Wellbound, OverCap, Known, Written, Keyed, Cleared, FitsIn,
         SoundLedger;
    InvLedger(s);
    var s', base, m := HoldsReleased(Written(s, d), consumed), Cleared(s, d.companions, consumed), Members(d)[i];
    var key := EntryKey(Reservation, m.id, resource);
    AdmitMembers(s, d, consumed, 0, i, resource);
    assert Wanted(s', key).Some? ==> Pull(s', key, t) <= d.record.terms.amount by {
      assert Wellbound(s.ledger, m);
      WellboundAmount(s.ledger, m);
    }
    assert m.refs == d.record.refs;
    var j :| 0 <= j < |m.refs| && m.refs[j].resource == resource;
    assert NeverOverCap(s.ledger, Expected(base), NamesOf(d.record.refs), m.terms.interval, d.record.terms.amount);
    FitsExactly(s.ledger, Expected(base), Expected(base), NamesOf(d.record.refs), m.terms.interval, m.terms.interval,
                d.record.terms.amount, j, t);
    if Wanted(s', key).Some? {
      LoadFollowsButOne(s', base, key, t);
    } else {
      WellboundAmount(s.ledger, m);
      LoadFollows(s', base, resource, t);
    }
  }

  lemma WellboundAmount(ledger: Ledger, r: Record)
    requires Wellbound(ledger, r)
    ensures 0 < r.terms.amount
  {
  }

  lemma AdmitCloses(s: State, d: DurableRecord, consumed: set<Identity>, resource: ResourceName, t: int)
    requires Inv(s) && CanAdmit(s, d, consumed, 0) && AdmitsBelowCap(s, d, consumed)
    requires Applicable(s, d) && Written(s, d).ledger == s.ledger
    requires Keyed(Expected(Cleared(s, d.companions, consumed)))
    requires Keyed(Expected(HoldsReleased(Written(s, d), consumed)))
    requires ClosedOn(Cleared(s, d.companions, consumed), resource, t)
    ensures ClosedOn(HoldsReleased(Written(s, d), consumed), resource, t)
  {
    hide FitsIn, Inv, Applied, Wanted, Pull, LoadOn, Expected, Wellbound, NeverOverCap, Known, Written, Keyed;
    var s', base := HoldsReleased(Written(s, d), consumed), Cleared(s, d.companions, consumed);
    if i :| 0 <= i < |Members(d)| && Covers(d, i, resource, t) {
      var key := EntryKey(Reservation, Members(d)[i].id, resource);
      forall k: EntryKey | k.resource == resource && k != key ensures Pull(s', k, t) <= Pull(base, k, t) {
        OneCovers(s, d, i, resource, t);
        AdmitPulls(s, d, consumed, k, t);
      }
      AdmitClosesOn(s, d, consumed, i, resource, t);
    } else {
      forall k: EntryKey | k.resource == resource ensures Pull(s', k, t) <= Pull(base, k, t) {
        AdmitPulls(s, d, consumed, k, t);
      }
      ClearedLedger(s, d.companions, consumed);
      LoadFollows(s', base, resource, t);
    }
  }

  lemma AdmitStaysClosed(s: State, d: DurableRecord, consumed: set<Identity>)
    requires Inv(s) && Closed(s) && CanAdmit(s, d, consumed, 0) && AdmitsBelowCap(s, d, consumed)
    ensures Applicable(s, d) && Closed(HoldsReleased(Written(s, d), consumed))
  {
    hide FitsIn, Inv, Applied, LoadOn, Expected, Wellbound, NeverOverCap, Keyed, FreshMembers, Cleared, Known,
         HoldsReleased;
    hide ClosedOn, Chained;
    InvChained(s);
    AdmitShape(s, d, consumed, 0);
    AdmitKeepsInv(s, d, consumed, 0);
    ClearedStaysClosed(s, d.companions, consumed);
    ExpectedKeyed(Cleared(s, d.companions, consumed));
    ExpectedKeyed(HoldsReleased(Written(s, d), consumed));
    forall resource, t ensures ClosedOn(HoldsReleased(Written(s, d), consumed), resource, t) {
      assert ClosedOn(Cleared(s, d.companions, consumed), resource, t);
      AdmitCloses(s, d, consumed, resource, t);
    }
  }

  // ---------------------------------------------------------------------------
  // Capacity changes
  // ---------------------------------------------------------------------------

  /** Records bound to a generation that has passed do not come back into force. */
  lemma CurrentBefore(before: Ledger, after: Ledger, refs: seq<ResourceRef>)
    requires forall i :: 0 <= i < |refs| ==> KnownRef(before, refs[i])
    requires OnlyForward(before, after) && AllCurrent(after, refs)
    ensures AllCurrent(before, refs)
    ensures forall i :: 0 <= i < |refs| ==>
      refs[i].resource in before && after[refs[i].resource] == before[refs[i].resource]
  {
    forall i | 0 <= i < |refs|
      ensures IsCurrent(before, refs[i]) && after[refs[i].resource] == before[refs[i].resource]
    {
      assert KnownRef(before, refs[i]) && IsCurrent(after, refs[i]);
    }
  }

  /** After an ingestion a key pulls what it pulled before, and nothing on a resource that moved. */
  lemma IngestPulls(s: State, s': State, k: EntryKey, t: int)
    requires Inv(s) && OnlyForward(s.ledger, s'.ledger)
    requires s'.records == s.records && s'.current == s.current && s'.holds.Keys == s.holds.Keys
    requires forall h :: h in s.holds ==>
      && (s'.holds[h] == s.holds[h] || s'.holds[h] == s.holds[h].(released := true))
      && (!s'.holds[h].released && k.resource in s.holds[h].resources ==>
            k.resource in s.ledger && k.resource in s'.ledger && s'.ledger[k.resource] == s.ledger[k.resource])
    ensures Wanted(s', k) == None ||
            (Wanted(s', k) == Wanted(s, k) && k.resource in s.ledger && k.resource in s'.ledger
             && s'.ledger[k.resource] == s.ledger[k.resource])
  {
    hide Chained, SoundLedger, SoundHolds, OnlyForward;
    if k.kind == Reservation && Wanted(s', k).Some? {
      var r := s.CurrentRecord(k.id);
      assert SoundRecord(s.ledger, r);
      CurrentBefore(s.ledger, s'.ledger, r.refs);
    }
  }

  lemma NothingWantedNoLoad(s: State, resource: ResourceName, t: int)
    requires forall k: EntryKey :: k.resource == resource ==> Wanted(s, k) == None
    ensures LoadOn(Expected(s), resource, Combined, t) == 0
  {
    hide Wanted;
    forall k ensures k !in On(Expected(s), resource) {
      OnExpected(s, resource, k);
    }
    assert On(Expected(s), resource) == map[];
  }

  lemma FencedHolds(s: State, d: DurableRecord, fenced: set<Identity>, h: Identity, resource: ResourceName)
    requires Inv(s) && CanIngest(s, d, fenced) && h in s.holds && resource in s.holds[h].resources
    requires !HoldsReleased(Written(s, d), fenced).holds[h].released
    ensures var after := Applied(s, d).ledger;
            resource in s.ledger && resource in after && after[resource] == s.ledger[resource]
  {
    IngestKeepsInv(s, d, fenced);
    hide Chained, SoundLedger, SoundRecords;
    assert SoundHold(s.ledger, s.holds[h]);
    assert h !in fenced && !s.holds[h].released;
    assert !Moved(s.ledger, Applied(s, d).ledger, d, resource);
  }

  lemma IngestShape(s: State, d: DurableRecord, fenced: set<Identity>)
    requires CanIngest(s, d, fenced)
    ensures var s' := HoldsReleased(Written(s, d), fenced);
            && s'.records == s.records && s'.current == s.current && s'.holds.Keys == s.holds.Keys
            && s'.ledger == Applied(s, d).ledger
            && forall h :: h in s.holds ==> (s'.holds[h] == s.holds[h] || s'.holds[h] == s.holds[h].(released := true))
  {
  }

  lemma IngestCloses(s: State, s': State, d: DurableRecord, fenced: set<Identity>, resource: ResourceName, t: int)
    requires Inv(s) && CanIngest(s, d, fenced) && s' == HoldsReleased(Written(s, d), fenced)
    requires OnlyForward(s.ledger, s'.ledger) && s'.ledger == Applied(s, d).ledger && SoundLedger(s'.ledger)
    requires s'.records == s.records && s'.current == s.current && s'.holds.Keys == s.holds.Keys
    requires forall h :: h in s.holds ==> (s'.holds[h] == s.holds[h] || s'.holds[h] == s.holds[h].(released := true))
    requires Keyed(Expected(s)) && Keyed(Expected(s')) && ClosedOn(s, resource, t)
    ensures ClosedOn(s', resource, t)
  {
    hide Inv, LoadOn, Expected, Wanted, OnlyForward, CanIngest, Keyed, Applied, Written, HoldsReleased;
    forall k: EntryKey | k.resource == resource
      ensures Wanted(s', k) == None ||
              (Wanted(s', k) == Wanted(s, k) && resource in s.ledger && resource in s'.ledger
               && s'.ledger[resource] == s.ledger[resource])
    {
      forall h | h in s.holds && !s'.holds[h].released && resource in s.holds[h].resources
        ensures resource in s.ledger && resource in s'.ledger && s'.ledger[resource] == s.ledger[resource]
      {
        FencedHolds(s, d, fenced, h, resource);
      }
      IngestPulls(s, s', k, t);
    }
    if resource in s.ledger && resource in s'.ledger && s'.ledger[resource] == s.ledger[resource] {
      forall k: EntryKey | k.resource == resource ensures Pull(s', k, t) <= Pull(s, k, t) {
        PullNonNegative(s, k, t);
      }
      LoadFollows(s', s, resource, t);
    } else {
      NothingWantedNoLoad(s', resource, t);
    }
  }

  lemma IngestStaysClosed(s: State, d: DurableRecord, fenced: set<Identity>)
    requires Inv(s) && Closed(s) && CanIngest(s, d, fenced) && OnlyForward(s.ledger, Applied(s, d).ledger)
    ensures Closed(HoldsReleased(Written(s, d), fenced))
  {
    var s' := HoldsReleased(Written(s, d), fenced);
    hide Inv, LoadOn, Expected, Wanted, OnlyForward, BelowCap, CanIngest, Keyed, ClosedOn, Applied, Written,
         HoldsReleased;
    IngestKeepsInv(s, d, fenced);
    IngestShape(s, d, fenced);
    ExpectedKeyed(s);
    ExpectedKeyed(s');
    InvLedger(s');
    forall resource, t ensures ClosedOn(s', resource, t) {
      assert ClosedOn(s, resource, t);
      IngestCloses(s, s', d, fenced, resource, t);
    }
  }

  lemma InvLedger(s: State)
    requires Inv(s)
    ensures SoundLedger(s.ledger)
  {
  }

  // ---------------------------------------------------------------------------
  // Runs
  // ---------------------------------------------------------------------------

  /** Only capacity ingestion touches the ledger. */
  lemma LedgerKept(s: State, step: Step)
    requires Inv(s) && Enabled(s, step) && !step.Ingest?
    ensures Next(s, step).ledger == s.ledger
  {
    hide Inv, CanIngest, FitsIn, Applied, HoldsReleased, Wellbound;
    InvChained(s);
    match step
    case Admit(d, consumed, allowance) => AdmitShape(s, d, consumed, allowance); HoldsOnly(Written(s, d), consumed);
    case Supersede(d, measured, allowance) => SupersedeShape(s, d, measured, allowance);
    case Note(d) => NoteShape(s, d);
    case Recall(d, grace) => NoteShape(s, d);
    case TakeHold(hold, allowance) =>
    case DropHolds(ids) => HoldsOnly(s, ids);
  }

  lemma HoldsOnly(s: State, ids: set<Identity>)
    ensures HoldsReleased(s, ids) == s.(holds := HoldsReleased(s, ids).holds)
  {
  }

  /** Where every ceiling lies below the cap, no step can go past one unseen. */
  lemma BelowCapIsSafe(s: State, step: Step)
    requires Enabled(s, step) && BelowCap(s.ledger)
    ensures CapSafe(s, step)
  {
    hide BelowCap, NeverOverCap, Cleared, Expected, FitsIn, Wellbound, CanIngest, CanNote, CanRecall;
    match step
    case Admit(d, consumed, _) =>
      forall i | 0 <= i < |Members(d)|
        ensures NeverOverCap(s.ledger, Expected(Cleared(s, d.companions, consumed)), NamesOf(d.record.refs),
                             Members(d)[i].terms.interval, d.record.terms.amount)
      {
        BelowCapIsNever(s.ledger, Expected(Cleared(s, d.companions, consumed)), NamesOf(d.record.refs),
                        Members(d)[i].terms.interval, d.record.terms.amount);
      }
    case Supersede(d, _, _) =>
      BelowCapIsNever(s.ledger, Expected(WithState(s, d.record.predecessor.value, Superseded)), NamesOf(d.record.refs),
                      d.record.Window(), d.record.terms.amount);
    case TakeHold(h, _) => BelowCapIsNever(s.ledger, Expected(s), h.resources, h.interval, h.amount);
    case _ =>
  }

  /** A tame step keeps the promise wherever the cap hides nothing. */
  lemma SafeStepStaysClosed(s: State, step: Step)
    requires Inv(s) && Closed(s) && Enabled(s, step) && Restrained(s, step) && CapSafe(s, step)
    ensures Closed(Next(s, step))
  {
    hide Inv, Closed, BelowCap, CanAdmit, CanSupersede, CanNote, CanRecall, CanIngest, CanTakeHold, Applied,
         WithGrace, OnlyForward, NeverOverCap, AdmitsBelowCap, SupersedesBelowCap;
    match step
    case Admit(d, consumed, allowance) => AdmitStaysClosed(s, d, consumed);
    case Supersede(d, measured, allowance) => SupersedeStaysClosed(s, d, measured);
    case Note(d) => NoteStaysClosed(s, d);
    case Recall(d, grace) => RecallStaysClosed(s, d, grace);
    case Ingest(d, fenced) => IngestStaysClosed(s, d, fenced);
    case TakeHold(hold, allowance) => TakeHoldStaysClosed(s, hold);
    case DropHolds(ids) => ReleasedStaysClosed(s, ids);
  }

  lemma StepStaysClosed(s: State, step: Step)
    requires Inv(s) && BelowCap(s.ledger) && Closed(s) && Enabled(s, step) && Tame(s, step)
    ensures Closed(Next(s, step)) && BelowCap(Next(s, step).ledger)
  {
    hide Inv, Closed, BelowCap, CanAdmit, CanSupersede, CanNote, CanRecall, CanIngest, CanTakeHold, Applied,
         WithGrace, OnlyForward, CapSafe;
    BelowCapIsSafe(s, step);
    SafeStepStaysClosed(s, step);
    if step.Ingest? { IngestShape(s, step.d, step.fenced); } else { LedgerKept(s, step); }
  }
}

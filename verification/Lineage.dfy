/**
 What every step keeps: gap-free generation lineage, exactly one authoritative
 generation per identity, and records bound to generations the ledger knows.
 */
module Lineage {
  import opened Timeline
  import opened Claims
  import opened Entries
  import opened Records
  import opened FabricState
  import opened Steps

  /** Generation 1 has no predecessor; a later one names the generation just before it. */
  ghost predicate Follows(r: Record, k: Key) {
    if k.generation == 1 then r.predecessor == None
    else r.predecessor.Some? && r.predecessor.value.id == k.id && r.predecessor.value.generation + 1 == k.generation
  }

  type RecordTable = map<Key, Record>
  type Generations = map<Identity, nat>

  /** Every record is filed under its own key, at a generation its identity has reached. */
  ghost predicate Filed(records: RecordTable, current: Generations) {
    forall k :: k in records ==>
      records[k].KeyOf() == k && k.id in current && 1 <= k.generation <= current[k.id] && Follows(records[k], k)
  }

  ghost predicate Complete(records: RecordTable, id: Identity, n: nat) {
    forall g :: 1 <= g <= n ==> Key(id, g) in records
  }

  /** No generation of a known identity is missing. */
  ghost predicate GapFree(records: RecordTable, current: Generations) {
    forall id :: id in current ==> 1 <= current[id] && Complete(records, id, current[id])
  }

  /** Every generation below the current one is superseded. */
  ghost predicate OneAuthority(records: RecordTable, current: Generations) {
    forall k :: k in records && k.id in current && k.generation < current[k.id] ==> records[k].state == Superseded
  }

  /** Generations of an identity run from 1 without gaps, each follows the one before, only the last has authority. */
  ghost predicate Chained(s: State) {
    Filed(s.records, s.current) && GapFree(s.records, s.current) && OneAuthority(s.records, s.current)
  }

  ghost predicate KnownRef(ledger: Ledger, ref: ResourceRef) {
    ref.resource in ledger && ref.generation <= ledger[ref.resource].capacity.generation
  }

  ghost predicate SoundRecord(ledger: Ledger, r: Record) {
    && ValidInterval(r.terms.interval) && 0 < r.terms.amount <= MAX_BANDWIDTH_BPS
    && Bound(r) && (IsTerminal(r.state) || ConsumesCapacity(r.state))
    && (forall i :: 0 <= i < |r.refs| ==> KnownRef(ledger, r.refs[i]))
    && 0 <= r.recallAt
  }

  ghost predicate SoundHold(ledger: Ledger, h: Hold) {
    && ValidInterval(h.interval) && 0 < h.amount <= MAX_BANDWIDTH_BPS
    && Distinct(h.resources) && "" !in h.resources
    && (forall r :: r in h.resources ==> r in ledger)
  }

  ghost predicate SoundLedger(ledger: Ledger) {
    forall r :: r in ledger ==> ledger[r].capacity.Acceptable() && ledger[r].capacity.resource == r
  }

  ghost predicate SoundRecords(ledger: Ledger, records: RecordTable) {
    forall k :: k in records ==> SoundRecord(ledger, records[k])
  }

  ghost predicate SoundHolds(ledger: Ledger, holds: map<Identity, Hold>) {
    forall h :: h in holds ==> holds[h].id == h && SoundHold(ledger, holds[h])
  }

  ghost predicate Inv(s: State) {
    Chained(s) && SoundLedger(s.ledger) && SoundRecords(s.ledger, s.records) && SoundHolds(s.ledger, s.holds)
  }

  // ---------------------------------------------------------------------------
  // Ledger
  // ---------------------------------------------------------------------------

  /** Resources are never forgotten and their generations never go back. */
  ghost predicate Advances(before: Ledger, after: Ledger) {
    forall r :: r in before ==> r in after && before[r].capacity.generation <= after[r].capacity.generation
  }

  lemma {:induction false} StatedAdvances(ledger: Ledger, cs: seq<Capacity>)
    requires Stated(ledger, cs).Some?
    requires forall r :: r in ledger ==> ledger[r].capacity.Acceptable() && ledger[r].capacity.resource == r
    ensures var after := Stated(ledger, cs).value;
            && Advances(ledger, after)
            && forall r :: r in after ==> after[r].capacity.Acceptable() && after[r].capacity.resource == r
    decreases |cs|
  {
    if cs != [] {
      match LedgerApply(ledger, cs[0])
      case Unchanged => StatedAdvances(ledger, cs[1..]);
      case Changed(next) => StatedAdvances(next, cs[1..]);
      case Refused => assert false;
    }
  }

  lemma {:induction false} WithdrawnKeeps(ledger: Ledger, names: seq<ResourceName>)
    ensures var after := WithdrawnAll(ledger, names);
            && after.Keys == ledger.Keys
            && forall r :: r in ledger ==>
                 && after[r].capacity == ledger[r].capacity
                 && after[r].withdrawn == (ledger[r].withdrawn || r in names)
    decreases |names|
  {
    if names != [] {
      WithdrawnKeeps(LedgerWithdraw(ledger, names[0]), names[1..]);
    }
  }

  // ---------------------------------------------------------------------------
  // The shape of each write
  // ---------------------------------------------------------------------------

  ghost predicate RevokedIn(before: map<Key, Record>, after: map<Key, Record>, keys: seq<Key>) {
    && before.Keys <= after.Keys
    && forall k :: k in before ==> after[k] == if k in keys then before[k].(state := Revoked) else before[k]
  }

  lemma EvictedKeeps(s: State)
    ensures Evicted(s) == s.(attempts := Evicted(s).attempts, attemptOrder := Evicted(s).attemptOrder)
    decreases |s.attemptOrder|
  {
  }

  /** What a state change, an applicability change or another note does to the records. */
  function Noted(s: State, d: DurableRecord): map<Key, Record> {
    match d
    case StateMutation(key, to, recallAt, _) =>
      if key in s.records then
        var r := s.records[key];
        s.records[key := r.(state := to, recallAt := if recallAt > 0 then recallAt else r.recallAt)]
      else s.records
    case ApplicabilityMutation(key, applicability, reason) =>
      if key in s.records then s.records[key := s.records[key].(applicability := applicability, reason := reason)]
      else s.records
    case _ => s.records
  }

  lemma NoteShape(s: State, d: DurableRecord)
    requires Applicable(s, d) && !d.ReservationMutation? && !d.CapacitySnapshot?
    ensures Applied(s, d).records == Noted(s, d)
    ensures Applied(s, d).ledger == s.ledger && Applied(s, d).current == s.current && Applied(s, d).holds == s.holds
    ensures Applied(s, d).maxAttempts == s.maxAttempts
  {
    hide Remembered;
    match d
    case StateMutation(key, to, recallAt, attempt) => StateShape(s, d);
    case AttemptOutcome(attempt) => RememberedKeeps(s, attempt);
    case _ =>
  }

  lemma StateShape(s: State, d: DurableRecord)
    requires d.StateMutation? && d.key in s.records
    ensures var s' := Applied(s, d);
            s' == s.(records := Noted(s, d), attempts := s'.attempts, attemptOrder := s'.attemptOrder)
  {
    hide Remembered;
    TransitionShape(s, d.key, d.to, d.recallAt);
    if d.attempt.Some? {
      RememberedKeeps(s.(records := Noted(s, d)), d.attempt.value);
    }
  }

  lemma TransitionShape(s: State, key: Key, to: ReservationState, recallAt: int)
    requires key in s.records
    ensures var r := s.records[key];
            var recalled := if recallAt > 0 then s.(records := s.records[key := r.(recallAt := recallAt)]) else s;
            WithState(recalled, key, to) ==
            s.(records := s.records[key := r.(state := to, recallAt := if recallAt > 0 then recallAt else r.recallAt)])
  {
    var r := s.records[key];
    TwiceIsOnce(s.records, key, r.(recallAt := recallAt), r.(recallAt := recallAt, state := to));
  }

  lemma TwiceIsOnce<K, V>(m: map<K, V>, k: K, v: V, w: V)
    ensures m[k := v][k := w] == m[k := w]
  {
  }

  lemma RememberedKeeps(s: State, a: Attempt)
    ensures Remembered(s, a) == s.(attempts := Remembered(s, a).attempts, attemptOrder := Remembered(s, a).attemptOrder)
  {
    EvictedKeeps(s.(attempts := s.attempts[a.id := a],
                    attemptOrder := if a.id in s.attempts then s.attemptOrder else s.attemptOrder + [a.id]));
  }

  function Members(d: DurableRecord): seq<Record>
    requires d.ReservationMutation?
  {
    [d.record] + d.members
  }

  lemma AdmitShape(s: State, d: DurableRecord, consumed: set<Identity>, allowance: nat)
    requires Chained(s) && CanAdmit(s, d, consumed, allowance)
    ensures Applicable(s, d) && DistinctIds(Members(d))
    ensures var s' := Applied(s, d);
            && s'.ledger == s.ledger && s'.holds == s.holds && s'.maxAttempts == s.maxAttempts
            && s'.current == s.current + GenerationMap(Members(d))
            && s'.records.Keys == s.records.Keys + RecordMap(Members(d)).Keys
            && RevokedIn(s.records + RecordMap(Members(d)), s'.records, d.companions)
  {
    hide Remembered, FitsIn, Wellbound, RevokedAll, RegisteredAll, Grouped, RecordMap, GenerationMap;
    AdmitApplicable(s, d, consumed, allowance);
    assert DistinctIds(Members(d));
    RegisteredMembers(s, d);
    RegisteredAllIs(s, Members(d));
    var grouped := Grouped(RegisteredAll(s, Members(d)), d);
    GroupedKeeps(RegisteredAll(s, Members(d)), d);
    RevokedAllKeeps(grouped, d.companions);
    RememberedKeeps(RevokedAll(grouped, d.companions), d.attempt.value);
  }

  lemma GroupedKeeps(s: State, d: DurableRecord)
    requires d.ReservationMutation?
    ensures Grouped(s, d) == s.(series := Grouped(s, d).series)
  {
  }

  lemma RegisteredMembers(s: State, d: DurableRecord)
    requires d.ReservationMutation?
    ensures RegisteredAll(s, Members(d)) == RegisteredAll(Registered(s, d.record), d.members)
  {
    assert Members(d)[1..] == d.members;
  }

  lemma SupersedeShape(s: State, d: DurableRecord, measured: Contents, allowance: nat)
    requires CanSupersede(s, d, measured, allowance)
    ensures Applicable(s, d)
    ensures var s', p := Applied(s, d), d.record.predecessor.value;
            && s'.ledger == s.ledger && s'.holds == s.holds && s'.maxAttempts == s.maxAttempts
            && s'.current == s.current[d.record.id := d.record.generation]
            && s'.records == s.records[p := s.records[p].(state := Superseded)][d.record.KeyOf() := d.record]
  {
    var s1 := Registered(Predeceased(s, d), d.record);
    assert RegisteredAll(s1, []) == s1;
    if d.attempt.Some? { RememberedKeeps(s1, d.attempt.value); }
  }

  // ---------------------------------------------------------------------------
  // Preservation
  // ---------------------------------------------------------------------------

  lemma ReleasedKeepsInv(s: State, ids: set<Identity>)
    requires Inv(s)
    ensures Inv(HoldsReleased(s, ids))
  {
    hide Chained, SoundLedger, SoundRecords;
    assert Chained(HoldsReleased(s, ids)) by { SameChain(s, HoldsReleased(s, ids)); }
  }

  lemma UnchainedParts(s: State)
    requires Chained(s)
    ensures Filed(s.records, s.current) && GapFree(s.records, s.current) && OneAuthority(s.records, s.current)
  {
  }

  lemma ChainedParts(s: State)
    requires Filed(s.records, s.current) && GapFree(s.records, s.current) && OneAuthority(s.records, s.current)
    ensures Chained(s)
  {
  }

  lemma SameChain(s: State, s': State)
    requires Chained(s) && s'.records == s.records && s'.current == s.current
    ensures Chained(s')
  {
  }

  /** A change that leaves identity, lineage and terms alone and revives no history. */
  ghost predicate RetouchedRecord(before: Record, after: Record) {
    && after.KeyOf() == before.KeyOf() && after.predecessor == before.predecessor
    && after.terms == before.terms && after.refs == before.refs
    && 0 <= after.recallAt
    && (before.state == Superseded ==> after.state == Superseded)
    && (IsTerminal(after.state) || ConsumesCapacity(after.state))
  }

  ghost predicate Retouched(before: RecordTable, after: RecordTable) {
    after.Keys == before.Keys && forall k :: k in before ==> RetouchedRecord(before[k], after[k])
  }

  lemma RetouchFiled(before: RecordTable, after: RecordTable, current: Generations)
    requires Filed(before, current) && OneAuthority(before, current) && Retouched(before, after)
    ensures Filed(after, current) && OneAuthority(after, current)
  {
    forall k | k in after
      ensures after[k].KeyOf() == k && k.id in current && 1 <= k.generation <= current[k.id] && Follows(after[k], k)
      ensures k.generation < current[k.id] ==> after[k].state == Superseded
    {
      assert RetouchedRecord(before[k], after[k]);
    }
  }

  lemma RetouchGapFree(before: RecordTable, after: RecordTable, current: Generations)
    requires GapFree(before, current) && after.Keys == before.Keys
    ensures GapFree(after, current)
  {
    forall id | id in current ensures Complete(after, id, current[id]) {
      assert Complete(before, id, current[id]);
    }
  }

  lemma RetouchSound(ledger: Ledger, before: RecordTable, after: RecordTable)
    requires SoundRecords(ledger, before) && Retouched(before, after)
    ensures SoundRecords(ledger, after)
  {
    hide KnownRef;
    forall k | k in after ensures SoundRecord(ledger, after[k]) {
      assert SoundRecord(ledger, before[k]) && RetouchedRecord(before[k], after[k]);
    }
  }

  lemma RetouchKeepsInv(s: State, s': State)
    requires Inv(s) && s'.ledger == s.ledger && s'.current == s.current && s'.holds == s.holds
    requires Retouched(s.records, s'.records)
    ensures Inv(s')
  {
    hide SoundLedger, SoundHolds, SoundRecords, Filed, GapFree, OneAuthority, RetouchedRecord;
    RetouchFiled(s.records, s'.records, s.current);
    RetouchGapFree(s.records, s'.records, s.current);
    RetouchSound(s.ledger, s.records, s'.records);
  }

  /** Rewriting one record within its identity, lineage and terms. */
  lemma RetouchOne(s: State, s': State, key: Key, r: Record)
    requires Inv(s) && key in s.records && RetouchedRecord(s.records[key], r)
    requires s'.records == s.records[key := r]
    requires s'.ledger == s.ledger && s'.current == s.current && s'.holds == s.holds
    ensures Inv(s')
  {
    forall k | k in s.records ensures RetouchedRecord(s.records[k], s'.records[k]) {
      hide Chained;
      assert SoundRecord(s.ledger, s.records[k]);
    }
    hide Inv, RetouchedRecord;
    RetouchKeepsInv(s, s');
  }

  lemma NoteKeepsInv(s: State, d: DurableRecord)
    requires Inv(s) && CanNote(s, d)
    ensures Inv(Written(s, d))
  {
    hide Chained, Applied;
    NoteShape(s, d);
    var s' := Written(s, d);
    match d
    case StateMutation(key, to, _, _) => NoteKeepsRecall(s, key); RetouchOne(s, s', key, s.records[key].(state := to));
    case ApplicabilityMutation(key, applicability, reason) =>
      NoteKeepsRecall(s, key);
      RetouchOne(s, s', key, s.records[key].(applicability := applicability, reason := reason));
    case _ => SameChain(s, s');
  }

  lemma NoteKeepsRecall(s: State, key: Key)
    requires Inv(s) && key in s.records
    ensures 0 <= s.records[key].recallAt && (IsTerminal(s.records[key].state) || ConsumesCapacity(s.records[key].state))
  {
    assert SoundRecord(s.ledger, s.records[key]);
  }

  lemma RecallKeepsInv(s: State, d: DurableRecord, grace: int)
    requires Inv(s) && CanRecall(s, d)
    ensures Inv(WithGrace(Written(s, d), d.key, grace))
  {
    hide Chained, Applied;
    NoteShape(s, d);
    var r := s.records[d.key].(state := RecallPending, recallAt := d.recallAt);
    TwiceIsOnce(s.records, d.key, r, r.(grace := grace));
    RetouchOne(s, WithGrace(Written(s, d), d.key, grace), d.key, r.(grace := grace));
  }

  lemma AdvanceKeepsSound(before: Ledger, after: Ledger, records: RecordTable, holds: map<Identity, Hold>)
    requires Advances(before, after) && SoundRecords(before, records) && SoundHolds(before, holds)
    ensures SoundRecords(after, records) && SoundHolds(after, holds)
  {
    forall k | k in records ensures SoundRecord(after, records[k]) {
      assert SoundRecord(before, records[k]);
      forall i | 0 <= i < |records[k].refs| ensures KnownRef(after, records[k].refs[i]) {
        assert KnownRef(before, records[k].refs[i]);
      }
    }
  }

  lemma StatedKeepsInv(s: State, d: DurableRecord)
    requires Inv(s) && d.CapacitySnapshot? && Applicable(s, d)
    ensures Inv(Written(s, d)) && Advances(s.ledger, Applied(s, d).ledger)
  {
    hide Chained, SoundRecords, SoundHolds;
    var stated := Stated(s.ledger, d.resources).value;
    StatedAdvances(s.ledger, d.resources);
    WithdrawnKeeps(stated, d.withdrawals);
    var s' := Written(s, d);
    AdvanceKeepsSound(s.ledger, s'.ledger, s.records, s.holds);
    SameChain(s, s');
  }

  lemma IngestKeepsInv(s: State, d: DurableRecord, fenced: set<Identity>)
    requires Inv(s) && CanIngest(s, d, fenced)
    ensures Inv(HoldsReleased(Written(s, d), fenced))
    ensures Advances(s.ledger, Applied(s, d).ledger)
  {
    hide Inv;
    StatedKeepsInv(s, d);
    ReleasedKeepsInv(Written(s, d), fenced);
  }

  ghost predicate Newcomers(current: Generations, rs: seq<Record>) {
    DistinctIds(rs) && forall i :: 0 <= i < |rs| ==>
        rs[i].id !in current && rs[i].generation == 1 && rs[i].predecessor == None
  }

  lemma JoinedMember(rs: seq<Record>, k: Key)
    requires DistinctIds(rs) && k in RecordMap(rs)
    ensures exists i :: 0 <= i < |rs| && rs[i].KeyOf() == k && RecordMap(rs)[k] == rs[i]
    ensures k.id in GenerationMap(rs) && GenerationMap(rs)[k.id] == k.generation
  {
    RecordMapIs(rs);
    GenerationMapIs(rs);
    var i :| 0 <= i < |rs| && rs[i].KeyOf() == k;
    assert rs[i].id == k.id;
  }

  lemma NotJoined(rs: seq<Record>, id: Identity)
    requires DistinctIds(rs) && forall i :: 0 <= i < |rs| ==> rs[i].id != id
    ensures id !in GenerationMap(rs)
  {
    GenerationMapIs(rs);
  }

  lemma AdmitFiled(records: RecordTable, current: Generations, rs: seq<Record>)
    requires Filed(records, current) && OneAuthority(records, current) && Newcomers(current, rs)
    ensures Filed(records + RecordMap(rs), current + GenerationMap(rs))
    ensures OneAuthority(records + RecordMap(rs), current + GenerationMap(rs))
  {
    hide RecordMap, GenerationMap, DistinctIds;
    var after, now := records + RecordMap(rs), current + GenerationMap(rs);
    forall k | k in after
      ensures after[k].KeyOf() == k && k.id in now && 1 <= k.generation <= now[k.id] && Follows(after[k], k)
      ensures k.generation < now[k.id] ==> after[k].state == Superseded
    {
      if k in RecordMap(rs) {
        JoinedMember(rs, k);
      } else {
        assert k.id in current;
        NotJoined(rs, k.id);
      }
    }
  }

  lemma CompleteMore(records: RecordTable, more: RecordTable, id: Identity, n: nat)
    requires Complete(records, id, n)
    ensures Complete(records + more, id, n)
  {
  }

  lemma CompleteOne(records: RecordTable, rs: seq<Record>, i: nat)
    requires DistinctIds(rs) && i < |rs| && rs[i].generation == 1
    ensures Complete(records + RecordMap(rs), rs[i].id, 1)
  {
    RecordMapIs(rs);
    assert rs[i].KeyOf() == Key(rs[i].id, 1);
  }

  lemma AdmitGapFree(records: RecordTable, current: Generations, rs: seq<Record>)
    requires GapFree(records, current) && Newcomers(current, rs)
    ensures GapFree(records + RecordMap(rs), current + GenerationMap(rs))
  {
    GenerationMapIs(rs);
    hide RecordMap, GenerationMap, Complete;
    var after, now := records + RecordMap(rs), current + GenerationMap(rs);
    forall id | id in now ensures 1 <= now[id] && Complete(after, id, now[id]) {
      if id in GenerationMap(rs) {
        var i :| 0 <= i < |rs| && rs[i].id == id;
        CompleteOne(records, rs, i);
      } else {
        CompleteMore(records, RecordMap(rs), id, current[id]);
      }
    }
  }

  lemma AdmitKeepsChained(s: State, s': State, rs: seq<Record>)
    requires Chained(s) && Newcomers(s.current, rs)
    requires s'.current == s.current + GenerationMap(rs) && s'.records == s.records + RecordMap(rs)
    ensures Chained(s')
  {
    hide Filed, GapFree, OneAuthority, Newcomers;
    AdmitFiled(s.records, s.current, rs);
    AdmitGapFree(s.records, s.current, rs);
  }

  lemma WellboundIsSound(ledger: Ledger, r: Record)
    requires Wellbound(ledger, r)
    ensures SoundRecord(ledger, r)
  {
    forall i | 0 <= i < |r.refs| ensures KnownRef(ledger, r.refs[i]) {
      assert IsCurrent(ledger, r.refs[i]);
    }
  }

  lemma AdmitKeepsSound(ledger: Ledger, records: RecordTable, rs: seq<Record>)
    requires SoundRecords(ledger, records) && DistinctIds(rs) && forall i :: 0 <= i < |rs| ==> Wellbound(ledger, rs[i])
    ensures SoundRecords(ledger, records + RecordMap(rs))
  {
    RecordMapIs(rs);
    var after := records + RecordMap(rs);
    forall k | k in after ensures SoundRecord(ledger, after[k]) {
      if k in RecordMap(rs) {
        var i :| 0 <= i < |rs| && rs[i].KeyOf() == k;
        WellboundIsSound(ledger, rs[i]);
      }
    }
  }

  lemma AdmitKeepsInv(s: State, d: DurableRecord, consumed: set<Identity>, allowance: nat)
    requires Inv(s) && CanAdmit(s, d, consumed, allowance)
    ensures Applicable(s, d) && Inv(HoldsReleased(Written(s, d), consumed))
  {
    hide FitsIn, Applied, Chained, SoundHolds, SoundLedger, SoundRecords, Wellbound, RecordMap, GenerationMap,
         HoldsReleased;
    AdmitShape(s, d, consumed, allowance);
    var rs, s' := Members(d), Written(s, d);
    var mid := s'.(records := s.records + RecordMap(rs));
    AdmitKeepsChained(s, mid, rs);
    AdmitKeepsSound(s.ledger, s.records, rs);
    CompanionsRevocable(s, d, mid, s'.records);
    RetouchKeepsInv(mid, s');
    ReleasedKeepsInv(s', consumed);
  }

  lemma RevokedRetouches(ledger: Ledger, before: Record, after: Record, revoked: bool)
    requires SoundRecord(ledger, before) && (revoked ==> before.Consumes())
    requires after == if revoked then before.(state := Revoked) else before
    ensures RetouchedRecord(before, after)
  {
    hide KnownRef, Bound;
  }

  /** Victims consume, so none of them is superseded history. */
  lemma CompanionsRevocable(s: State, d: DurableRecord, mid: State, after: RecordTable)
    requires d.ReservationMutation? && Chained(s) && SoundRecords(mid.ledger, mid.records) && DistinctIds(Members(d))
    requires forall i :: 0 <= i < |Members(d)| ==> Members(d)[i].id !in s.current
    requires Known(s, d.companions)
    requires forall i :: 0 <= i < |d.companions| ==> s.records[d.companions[i]].Consumes()
    requires mid.records == s.records + RecordMap(Members(d)) && after.Keys == mid.records.Keys
    requires RevokedIn(mid.records, after, d.companions)
    ensures Retouched(mid.records, after)
  {
    hide OneAuthority, GapFree, RecordMap, SoundRecord, DistinctIds, RetouchedRecord, Record.Consumes;
    forall k | k in mid.records ensures RetouchedRecord(mid.records[k], after[k]) {
      assert SoundRecord(mid.ledger, mid.records[k]);
      if k in d.companions {
        assert k in s.records && k.id in s.current;
        if k in RecordMap(Members(d)) { JoinedMember(Members(d), k); assert false; }
      }
      RevokedRetouches(mid.ledger, mid.records[k], after[k], k in d.companions);
    }
  }

  /** The successor is the next generation of the record it supersedes. */
  ghost predicate NextGeneration(records: RecordTable, current: Generations, r: Record, p: Key) {
    && r.generation > 1 && r.predecessor == Some(p) && p.id == r.id && p.generation + 1 == r.generation
    && p in records && r.id in current && current[r.id] == p.generation
  }

  function Superseding(records: RecordTable, r: Record, p: Key): RecordTable
    requires p in records
  {
    records[p := records[p].(state := Superseded)][r.KeyOf() := r]
  }

  lemma SupersedeFiled(records: RecordTable, current: Generations, r: Record, p: Key)
    requires Filed(records, current) && NextGeneration(records, current, r, p)
    ensures Filed(Superseding(records, r, p), current[r.id := r.generation])
  {
  }

  lemma SupersedeGapFree(records: RecordTable, current: Generations, r: Record, p: Key)
    requires GapFree(records, current) && NextGeneration(records, current, r, p)
    ensures GapFree(Superseding(records, r, p), current[r.id := r.generation])
  {
    var after, now := Superseding(records, r, p), current[r.id := r.generation];
    forall id | id in now ensures 1 <= now[id] && Complete(after, id, now[id]) {
      assert Complete(records, id, current[id]);
      assert id == r.id ==> Key(id, now[id]) == r.KeyOf();
    }
  }

  lemma SupersedeOneAuthority(records: RecordTable, current: Generations, r: Record, p: Key)
    requires Filed(records, current) && OneAuthority(records, current) && NextGeneration(records, current, r, p)
    ensures OneAuthority(Superseding(records, r, p), current[r.id := r.generation])
  {
    var after, now := Superseding(records, r, p), current[r.id := r.generation];
    forall k | k in after && k.id in now && k.generation < now[k.id] ensures after[k].state == Superseded {
      if k != p && k in records {
        assert k.id == r.id ==> k.generation != p.generation;
      }
    }
  }

  lemma SupersedeKeepsInv(s: State, d: DurableRecord, measured: Contents, allowance: nat)
    requires Inv(s) && CanSupersede(s, d, measured, allowance)
    ensures Applicable(s, d) && Inv(Written(s, d))
  {
    hide FitsIn, Applied, Chained, Filed, GapFree, OneAuthority, SoundHolds, SoundLedger, SoundRecords;
    SupersedeShape(s, d, measured, allowance);
    var s' := Written(s, d);
    assert Chained(s') by {
      UnchainedParts(s);
      SupersedeFiled(s.records, s.current, d.record, d.record.predecessor.value);
      SupersedeGapFree(s.records, s.current, d.record, d.record.predecessor.value);
      SupersedeOneAuthority(s.records, s.current, d.record, d.record.predecessor.value);
      ChainedParts(s');
    }
    WellboundIsSound(s.ledger, d.record);
    SoundRetire(s.ledger, s.records, d.record, d.record.predecessor.value);
  }

  lemma SoundRetire(ledger: Ledger, records: RecordTable, r: Record, p: Key)
    requires SoundRecords(ledger, records) && SoundRecord(ledger, r) && p in records
    ensures SoundRecords(ledger, records[p := records[p].(state := Superseded)][r.KeyOf() := r])
  {
    assert SoundRecord(ledger, records[p]);
  }

  lemma TakeHoldKeepsInv(s: State, h: Hold, allowance: nat)
    requires Inv(s) && CanTakeHold(s, h, allowance)
    ensures Inv(s.(holds := s.holds[h.id := h]))
  {
    hide FitsIn, Chained, SoundLedger, SoundRecords;
    SameChain(s, s.(holds := s.holds[h.id := h]));
  }

  /** The invariant holds after every step. */
  lemma NextKeepsInv(s: State, step: Step)
    requires Inv(s) && Enabled(s, step)
    ensures Inv(Next(s, step))
  {
    hide Inv, CanAdmit, CanSupersede, CanNote, CanRecall, CanIngest, CanTakeHold, Written, WithGrace, HoldsReleased;
    match step
    case Admit(d, consumed, allowance) => AdmitKeepsInv(s, d, consumed, allowance);
    case Supersede(d, measured, allowance) => SupersedeKeepsInv(s, d, measured, allowance);
    case Note(d) => NoteKeepsInv(s, d);
    case Recall(d, grace) => RecallKeepsInv(s, d, grace);
    case Ingest(d, fenced) => IngestKeepsInv(s, d, fenced);
    case TakeHold(hold, allowance) => TakeHoldKeepsInv(s, hold, allowance);
    case DropHolds(ids) => ReleasedKeepsInv(s, ids);
  }
}

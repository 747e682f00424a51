/**
 The coordinator as a transition system. Each step is one durable write or one
 change to the provisional holds, guarded by what the code establishes before it.
 */
module Steps {
  import opened Timeline
  import opened Claims
  import opened Entries
  import opened Records
  import opened FabricState

  datatype Step =
    | Admit(d: DurableRecord, consumed: set<Identity>, allowance: nat)
    | Supersede(d: DurableRecord, measured: Contents, allowance: nat)
    | Note(d: DurableRecord)
    | Recall(d: DurableRecord, grace: int)
    | Ingest(d: DurableRecord, fenced: set<Identity>)
    | TakeHold(hold: Hold, allowance: nat)
    | DropHolds(ids: set<Identity>)

  function HoldsReleased(s: State, ids: set<Identity>): State {
    s.(holds := map h | h in s.holds :: if h in ids then s.holds[h].(released := true) else s.holds[h])
  }

  /** The state in which an admission is evaluated: victims revoked, named holds set aside. */
  function Cleared(s: State, victims: seq<Key>, consumed: set<Identity>): State
    requires Known(s, victims)
  {
    HoldsReleased(RevokedAll(s, victims), consumed)
  }

  function NamesOf(refs: seq<ResourceRef>): seq<ResourceName> {
    seq(|refs|, i requires 0 <= i < |refs| => refs[i].resource)
  }

  /**
   The capacity test of an admission, stated on loads: at every instant of the
   window the sum, capped at the largest bandwidth, stays within the ceiling.
   */
  ghost predicate FitsIn(ledger: Ledger, base: Contents, names: seq<ResourceName>, window: Interval, amount: int,
                         allowance: nat)
  {
    forall i, t :: 0 <= i < |names| && window.Contains(t) ==>
      && names[i] in ledger
      && Min(MAX_BANDWIDTH_BPS, LoadOn(base, names[i], Combined, t) + amount) <= ledger[names[i]].capacity.Ceiling()
         + allowance
  }

  /** The references name each requested resource once and nothing else. */
  ghost predicate Bound(r: Record) {
    && Distinct(NamesOf(r.refs)) && "" !in NamesOf(r.refs)
    && Distinct(r.terms.resources) && 0 <= r.terms.headroom
    && forall name :: name in r.terms.resources <==> name in NamesOf(r.refs)
  }

  /** A record as admission builds it: bound to current generations, with valid terms. */
  ghost predicate Wellbound(ledger: Ledger, r: Record) {
    && ValidInterval(r.terms.interval) && 0 < r.terms.amount <= MAX_BANDWIDTH_BPS
    && Bound(r)
    && AllCurrent(ledger, r.refs)
    && (r.state == Committed || r.state == Active) && r.applicability == Current
    && 0 <= r.recallAt
  }

  /** The members of one commit: fresh identities at generation 1 with disjoint windows. */
  ghost predicate FreshMembers(s: State, rs: seq<Record>) {
    && (forall i :: 0 <= i < |rs| ==>
          && rs[i].id !in s.current && rs[i].generation == 1 && rs[i].predecessor == None
          && rs[i].recallAt == 0 && rs[i].grace == 0
          && Wellbound(s.ledger, rs[i])
          && rs[i].refs == rs[0].refs && rs[i].terms.amount == rs[0].terms.amount)
    && (forall i, j :: 0 <= i < j < |rs| ==>
          rs[i].id != rs[j].id && !rs[i].terms.interval.Overlaps(rs[j].terms.interval))
  }

  ghost predicate CanAdmit(s: State, d: DurableRecord, consumed: set<Identity>, allowance: nat) {
    && d.ReservationMutation? && !d.supersedes
    && d.attempt.Some? && d.attempt.value.id !in s.attempts
    && FreshMembers(s, [d.record] + d.members)
    && Known(s, d.companions) && Distinct(d.companions)
    && (forall i :: 0 <= i < |d.companions| ==> s.records[d.companions[i]].Consumes())
    && forall i :: 0 <= i < |[d.record] + d.members| ==>
         FitsIn(s.ledger, Expected(Cleared(s, d.companions, consumed)), NamesOf(d.record.refs),
                ([d.record] + d.members)[i].terms.interval, d.record.terms.amount, allowance)
  }

  /** The successor passed the capacity test against `measured`, the index as it stood without its predecessor. */
  ghost predicate CanSupersede(s: State, d: DurableRecord, measured: Contents, allowance: nat) {
    && d.ReservationMutation? && d.supersedes && d.members == [] && d.companions == [] && d.seriesId == None
    && (d.attempt.Some? ==> d.attempt.value.id !in s.attempts)
    && d.record.generation > 1 && d.record.predecessor == Some(Key(d.record.id, d.record.generation - 1))
    && d.record.predecessor.value in s.records
    && s.HasCurrent(d.record.id) && s.current[d.record.id] == d.record.generation - 1
    && Wellbound(s.ledger, d.record)
    && FitsIn(s.ledger, measured, NamesOf(d.record.refs), d.record.terms.interval, d.record.terms.amount, allowance)
  }

  ghost predicate CanNote(s: State, d: DurableRecord) {
    match d
    case StateMutation(key, to, recallAt, _) =>
      && key in s.records && !IsTerminal(s.records[key].state) && recallAt == 0
      && (to == Released || to == Expired || to == Revoked || (to == Active && s.records[key].state == Committed))
    case ApplicabilityMutation(key, _, _) => key in s.records
    case AttemptOutcome(attempt) => attempt.outcome != Committable && attempt.id !in s.attempts
    case ClaimantRegistration(claimant, generation) => claimant in s.claimants ==> generation > s.claimants[claimant]
    case OvercommitMutation(_, _) => true
    case _ => false
  }

  ghost predicate CanRecall(s: State, d: DurableRecord) {
    && d.StateMutation? && d.to == RecallPending && 0 < d.recallAt
    && d.key in s.records && s.records[d.key].Consumes() && d.recallAt <= s.records[d.key].terms.interval.end
  }

  /** A resource whose statement the ingestion changed or withdrew. */
  predicate Moved(before: Ledger, after: Ledger, d: DurableRecord, resource: ResourceName)
    requires d.CapacitySnapshot?
  {
    resource in d.withdrawals || (resource in after && (resource !in before || after[resource] != before[resource]))
  }

  ghost predicate CanIngest(s: State, d: DurableRecord, fenced: set<Identity>) {
    && d.CapacitySnapshot? && Applicable(s, d)
    && (forall h, r :: h in s.holds && !s.holds[h].released && r in s.holds[h].resources ==>
          Moved(s.ledger, Applied(s, d).ledger, d, r) ==> h in fenced)
  }

  ghost predicate CanTakeHold(s: State, h: Hold, allowance: nat) {
    && h.id !in s.holds && !h.released
    && ValidInterval(h.interval) && 0 < h.amount <= MAX_BANDWIDTH_BPS
    && Distinct(h.resources) && "" !in h.resources
    && (forall i :: 0 <= i < |h.resources| ==> Live(s.ledger, h.resources[i]))
    && FitsIn(s.ledger, Expected(s), h.resources, h.interval, h.amount, allowance)
  }

  ghost predicate Enabled(s: State, step: Step) {
    match step
    case Admit(d, consumed, allowance) => CanAdmit(s, d, consumed, allowance)
    case Supersede(d, measured, allowance) => CanSupersede(s, d, measured, allowance)
    case Note(d) => CanNote(s, d)
    case Recall(d, _) => CanRecall(s, d)
    case Ingest(d, fenced) => CanIngest(s, d, fenced)
    case TakeHold(hold, allowance) => CanTakeHold(s, hold, allowance)
    case DropHolds(_) => true
  }

  ghost function Next(s: State, step: Step): State
    requires Enabled(s, step)
  {
    match step
    case Admit(d, consumed, _) => AdmitApplicable(s, d, consumed, step.allowance); HoldsReleased(Written(s, d),
        consumed)
    case Supersede(d, _, _) => Written(s, d)
    case Note(d) => Written(s, d)
    case Recall(d, grace) => WithGrace(Written(s, d), d.key, grace)
    case Ingest(d, fenced) => HoldsReleased(Written(s, d), fenced)
    case TakeHold(hold, _) => s.(holds := s.holds[hold.id := hold])
    case DropHolds(ids) => HoldsReleased(s, ids)
  }

  function WithGrace(s: State, key: Key, grace: int): State {
    if key in s.records then s.(records := s.records[key := s.records[key].(grace := grace)]) else s
  }

  // ---------------------------------------------------------------------------
  // What registering and revoking several records amounts to
  // ---------------------------------------------------------------------------

  function RecordMap(rs: seq<Record>): map<Key, Record> {
    if rs == [] then map[] else map[rs[0].KeyOf() := rs[0]] + RecordMap(rs[1..])
  }

  function GenerationMap(rs: seq<Record>): map<Identity, nat> {
    if rs == [] then map[] else map[rs[0].id := rs[0].generation] + GenerationMap(rs[1..])
  }

  ghost predicate DistinctIds(rs: seq<Record>) {
    forall i, j :: 0 <= i < j < |rs| ==> rs[i].id != rs[j].id
  }

  lemma {:induction false} RecordMapIs(rs: seq<Record>)
    requires DistinctIds(rs)
    ensures forall i :: 0 <= i < |rs| ==> rs[i].KeyOf() in RecordMap(rs) && RecordMap(rs)[rs[i].KeyOf()] == rs[i]
    ensures forall k :: k in RecordMap(rs) ==> exists i :: 0 <= i < |rs| && rs[i].KeyOf() == k
    decreases |rs|
  {
    if rs != [] {
      var rest := rs[1..];
      RecordMapIs(rest);
      forall i | 0 <= i < |rs| ensures rs[i].KeyOf() in RecordMap(rs) && RecordMap(rs)[rs[i].KeyOf()] == rs[i] {
        if i > 0 { assert rest[i - 1] == rs[i]; }
      }
      forall k | k in RecordMap(rs) ensures exists i :: 0 <= i < |rs| && rs[i].KeyOf() == k {
        if k in RecordMap(rest) {
          var j :| 0 <= j < |rest| && rest[j].KeyOf() == k;
          assert rs[j + 1].KeyOf() == k;
        } else {
          assert rs[0].KeyOf() == k;
        }
      }
    }
  }

  lemma {:induction false} GenerationMapIs(rs: seq<Record>)
    requires DistinctIds(rs)
    ensures forall i :: 0 <= i < |rs| ==>
      rs[i].id in GenerationMap(rs) && GenerationMap(rs)[rs[i].id] == rs[i].generation
    ensures forall id :: id in GenerationMap(rs) ==> exists i :: 0 <= i < |rs| && rs[i].id == id
    decreases |rs|
  {
    if rs != [] {
      var rest := rs[1..];
      GenerationMapIs(rest);
      forall i | 0 <= i < |rs| ensures rs[i].id in GenerationMap(rs)
          && GenerationMap(rs)[rs[i].id] == rs[i].generation {
        if i > 0 { assert rest[i - 1] == rs[i]; }
      }
      forall id | id in GenerationMap(rs) ensures exists i :: 0 <= i < |rs| && rs[i].id == id {
        if id in GenerationMap(rest) {
          var j :| 0 <= j < |rest| && rest[j].id == id;
          assert rs[j + 1].id == id;
        } else {
          assert rs[0].id == id;
        }
      }
    }
  }

  /** Registering fresh identities adds their records and generations and changes nothing else. */
  lemma {:induction false} RegisteredAllIs(s: State, rs: seq<Record>)
    requires DistinctIds(rs) && forall i :: 0 <= i < |rs| ==> rs[i].id !in s.current
    ensures RegisteredAll(s, rs) ==
            s.(records := s.records + RecordMap(rs), current := s.current + GenerationMap(rs))
    decreases |rs|
  {
    if rs == [] {
      assert s.records + RecordMap(rs) == s.records && s.current + GenerationMap(rs) == s.current;
    } else {
      var s1, rest := Registered(s, rs[0]), rs[1..];
      forall i | 0 <= i < |rest| ensures rest[i].id !in s1.current {
        assert rs[i + 1] == rest[i];
      }
      RegisteredAllIs(s1, rest);
      MapShift(s.records, rs[0].KeyOf(), rs[0], RecordMap(rest));
      MapShift(s.current, rs[0].id, rs[0].generation, GenerationMap(rest));
    }
  }

  lemma MapShift<K, V>(m: map<K, V>, k: K, v: V, rest: map<K, V>)
    ensures m[k := v] + rest == m + (map[k := v] + rest)
  {
  }

  lemma {:induction false} RevokedAllKeeps(s: State, keys: seq<Key>)
    requires Known(s, keys)
    ensures var s' := RevokedAll(s, keys);
            && s' == s.(records := s'.records)
            && s'.records.Keys == s.records.Keys
            && (forall k :: k in s.records ==> s'.records[k] == if k in keys then s.records[k].(state := Revoked)
                else s.records[k])
    decreases |keys|
  {
    if keys != [] {
      RevokedAllKeeps(WithState(s, keys[0], Revoked), keys[1..]);
    }
  }

  lemma AdmitApplicable(s: State, d: DurableRecord, consumed: set<Identity>, allowance: nat)
    requires CanAdmit(s, d, consumed, allowance)
    ensures Applicable(s, d)
  {
    KnownAfter(Registered(s, d.record), d.members, d.companions);
  }

  lemma {:induction false} KnownAfter(s: State, rs: seq<Record>, keys: seq<Key>)
    requires Known(s, keys)
    ensures Known(RegisteredAll(s, rs), keys)
    decreases |rs|
  {
    if rs != [] {
      KnownAfter(Registered(s, rs[0]), rs[1..], keys);
    }
  }
}

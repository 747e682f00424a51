/**
 The coordinator's state as a value, what one durable record does to it, and the
 index contents that the records and holds call for.
 */
module FabricState {
  import opened Timeline
  import opened Claims
  import opened Entries
  import opened Records

  datatype State = State(
    maxAttempts: nat,
    ledger: Ledger,
    records: map<Key, Record>,
    current: map<Identity, nat>,
    series: map<Identity, seq<Identity>>,
    edges: seq<(Key, Key)>,
    claimants: map<Identity, nat>,
    attempts: map<Identity, Attempt>,
    attemptOrder: seq<Identity>,
    overcommitted: set<ResourceName>,
    holds: map<Identity, Hold>,
    journal: seq<DurableRecord>)
  {
    /** The generation that carries authority for an identity. */
    predicate HasCurrent(id: Identity) { id in current && Key(id, current[id]) in records }

    function CurrentRecord(id: Identity): Record
      requires HasCurrent(id)
    {
      records[Key(id, current[id])]
    }
  }

  function Initial(maxAttempts: nat): State {
    State(maxAttempts, map[], map[], map[], map[], [], map[], map[], [], {}, map[], [])
  }

  // ---------------------------------------------------------------------------
  // Durable records
  // ---------------------------------------------------------------------------

  datatype DurableRecord =
    | CapacitySnapshot(resources: seq<Capacity>, withdrawals: seq<ResourceName>)
    | ReservationMutation(record: Record, members: seq<Record>, supersedes: bool, companions: seq<Key>,
                          seriesId: Option<Identity>, attempt: Option<Attempt>)
    | StateMutation(key: Key, to: ReservationState, recallAt: int, attempt: Option<Attempt>)
    | ApplicabilityMutation(key: Key, applicability: Applicability, reason: Reason)
    | AttemptOutcome(outcome: Attempt)
    | ClaimantRegistration(claimant: Identity, generation: nat)
    | OvercommitMutation(resource: ResourceName, resolved: bool)

  function WithState(s: State, key: Key, to: ReservationState): State
    requires key in s.records
  {
    s.(records := s.records[key := s.records[key].(state := to)])
  }

  /** A record enters; its generation becomes current when it is the newest. */
  function Registered(s: State, r: Record): State {
    s.(records := s.records[r.KeyOf() := r],
       current := if r.id !in s.current || r.generation > s.current[r.id] then s.current[r.id := r.generation]
           else s.current)
  }

  function RegisteredAll(s: State, rs: seq<Record>): State
    decreases |rs|
  {
    if rs == [] then s else RegisteredAll(Registered(s, rs[0]), rs[1..])
  }

  predicate Known(s: State, keys: seq<Key>) { forall i :: 0 <= i < |keys| ==> keys[i] in s.records }

  /** Every named record is revoked. */
  function RevokedAll(s: State, keys: seq<Key>): (r: State)
    requires Known(s, keys)
    decreases |keys|
  {
    if keys == [] then s else RevokedAll(WithState(s, keys[0], Revoked), keys[1..])
  }

  /** Oldest attempts are forgotten beyond the bound. */
  function Evicted(s: State): State
    decreases |s.attemptOrder|
  {
    if |s.attemptOrder| <= s.maxAttempts then s
    else Evicted(s.(attempts := s.attempts - {s.attemptOrder[0]}, attemptOrder := s.attemptOrder[1..]))
  }

  function Remembered(s: State, a: Attempt): State {
    Evicted(s.(attempts := s.attempts[a.id := a],
               attemptOrder := if a.id in s.attempts then s.attemptOrder else s.attemptOrder + [a.id]))
  }

  function RememberedIf(s: State, a: Option<Attempt>): State {
    match a
    case None => s
    case Some(attempt) => Remembered(s, attempt)
  }

  /** Capacity statements in order; `None` when one is refused. */
  function Stated(ledger: Ledger, cs: seq<Capacity>): Option<Ledger>
    decreases |cs|
  {
    if cs == [] then Some(ledger)
    else
      match LedgerApply(ledger, cs[0])
      case Refused => None
      case Unchanged => Stated(ledger, cs[1..])
      case Changed(next) => Stated(next, cs[1..])
  }

  function WithdrawnAll(ledger: Ledger, names: seq<ResourceName>): Ledger
    decreases |names|
  {
    if names == [] then ledger else WithdrawnAll(LedgerWithdraw(ledger, names[0]), names[1..])
  }

  /** What replay demands of a record before it takes effect. */
  predicate Applicable(s: State, d: DurableRecord) {
    match d
    case CapacitySnapshot(resources, _) => Stated(s.ledger, resources).Some?
    case ReservationMutation(record, members, supersedes, companions, _, _) =>
      && (supersedes ==> record.predecessor.Some? && record.predecessor.value in s.records)
      && Known(RegisteredAll(Registered(Predeceased(s, d), record), members), companions)
    case StateMutation(key, _, _, _) => key in s.records
    case ApplicabilityMutation(key, _, _) => key in s.records
    case _ => true
  }

  function Predeceased(s: State, d: DurableRecord): State
    requires d.ReservationMutation?
  {
    if d.supersedes && d.record.predecessor.Some? && d.record.predecessor.value in s.records then
      WithState(s, d.record.predecessor.value, Superseded)
        .(edges := s.edges + [(d.record.predecessor.value, d.record.KeyOf())])
    else s
  }

  /** The effect of one durable record on everything but holds and the journal itself. */
  function Applied(s: State, d: DurableRecord): State
    requires Applicable(s, d)
  {
    match d
    case CapacitySnapshot(resources, withdrawals) =>
      s.(ledger := WithdrawnAll(Stated(s.ledger, resources).value, withdrawals))
    case ReservationMutation(record, members, _, companions, _, attempt) =>
      RememberedIf(RevokedAll(Grouped(RegisteredAll(Registered(Predeceased(s, d), record), members), d), companions),
                   attempt)
    case StateMutation(key, to, recallAt, attempt) =>
      var recalled := if recallAt > 0 then s.(records := s.records[key := s.records[key].(recallAt := recallAt)])
          else s;
      RememberedIf(WithState(recalled, key, to), attempt)
    case ApplicabilityMutation(key, applicability, reason) =>
      s.(records := s.records[key := s.records[key].(applicability := applicability, reason := reason)])
    case AttemptOutcome(attempt) => Remembered(s, attempt)
    case ClaimantRegistration(claimant, generation) =>
      if claimant !in s.claimants || generation > s.claimants[claimant]
      then s.(claimants := s.claimants[claimant := generation]) else s
    case OvercommitMutation(resource, resolved) =>
      s.(overcommitted := if resolved then s.overcommitted - {resource} else s.overcommitted + {resource})
  }

  /** A series lists the identities of its members. */
  function Grouped(s: State, d: DurableRecord): (r: State)
    requires d.ReservationMutation?
    ensures r.records == s.records
  {
    if d.seriesId.Some? then s.(series := s.series[d.seriesId.value := IdsOf([d.record] + d.members)]) else s
  }

  function IdsOf(rs: seq<Record>): seq<Identity> {
    seq(|rs|, i requires 0 <= i < |rs| => rs[i].id)
  }

  /** A live write: the record is appended and then takes effect. */
  function Written(s: State, d: DurableRecord): State
    requires Applicable(s, d)
  {
    Applied(s, d).(journal := s.journal + [d])
  }

  // ---------------------------------------------------------------------------
  // What belongs in the index
  // ---------------------------------------------------------------------------

  /** The entry a key must have, if any. */
  function Wanted(s: State, k: EntryKey): Option<IndexEntry> {
    match k.kind
    case Reservation =>
      if s.HasCurrent(k.id) && Indexable(s.ledger, s.CurrentRecord(k.id)) && s.CurrentRecord(k.id).Binds(k.resource)
      then Some(s.CurrentRecord(k.id).Entry(k.resource)) else None
    case Hold =>
      if k.id in s.holds && !s.holds[k.id].released && k.resource in s.holds[k.id].resources
      then Some(s.holds[k.id].Entry(k.resource)) else None
  }

  function KeysInPlay(s: State): set<EntryKey> {
    (set k, i | k in s.records && 0 <= i < |s.records[k].refs| ::
     EntryKey(Reservation, k.id, s.records[k].refs[i].resource))
    + (set h, r | h in s.holds && r in s.holds[h].resources :: EntryKey(HolderKind.Hold, h, r))
  }

  /** The index contents the records and holds call for. */
  function Expected(s: State): Contents {
    map k | k in KeysInPlay(s) && Wanted(s, k).Some? :: Wanted(s, k).value
  }

  lemma ExpectedIs(s: State, k: EntryKey)
    ensures k in Expected(s) <==> Wanted(s, k).Some?
    ensures k in Expected(s) ==> Expected(s)[k] == Wanted(s, k).value
  {
    if Wanted(s, k).Some? {
      if k.kind == Reservation {
        var r := s.CurrentRecord(k.id);
        var i :| 0 <= i < |r.refs| && r.refs[i].resource == k.resource;
        assert EntryKey(Reservation, Key(k.id, s.current[k.id]).id,
                        s.records[Key(k.id, s.current[k.id])].refs[i].resource) == k;
      }
      assert k in KeysInPlay(s);
    }
  }

  /** Contents that answer every key as wanted are the expected ones. */
  lemma ExpectedUnique(s: State, m: Contents)
    requires forall k :: (k in m <==> Wanted(s, k).Some?) && (k in m ==> m[k] == Wanted(s, k).value)
    ensures m == Expected(s)
  {
    forall k ensures k in m <==> k in Expected(s) {
      ExpectedIs(s, k);
    }
    forall k | k in m ensures m[k] == Expected(s)[k] {
      ExpectedIs(s, k);
    }
  }
}

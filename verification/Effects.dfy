/**
 What the coordinator's operations do to its state as a value, and why each of
 them keeps the state healthy and the index expectation in step.
 */
module Effects {
  import opened Timeline
  import opened Claims
  import opened Entries
  import opened SegmentTree
  import opened ResourceStates
  import opened CapacityIndexing
  import opened Suspending
  import opened Records
  import opened FabricState
  import opened Steps
  import opened Lineage
  import opened Closure
  import opened Runs
  import opened RecordIndexing
  import opened Bounds
  import opened Deadlines

  /** The effect of a state or applicability change before its attempt is remembered. */
  function Transitioned(s: State, d: DurableRecord): State {
    s.(records := Noted(s, d), journal := s.journal + [d])
  }

  lemma TransitionedIsWritten(s: State, d: DurableRecord)
    requires Applicable(s, d) && (d.StateMutation? || d.ApplicabilityMutation?)
    ensures Written(s, d) ==
            if d.StateMutation? && d.attempt.Some? then Remembered(Transitioned(s, d), d.attempt.value)
               else Transitioned(s, d)
  {
    hide Remembered;
    if d.StateMutation? { StateIsWritten(s, d); }
  }

  lemma StateIsWritten(s: State, d: DurableRecord)
    requires Applicable(s, d) && d.StateMutation?
    ensures Written(s, d) ==
            if d.attempt.Some? then Remembered(Transitioned(s, d), d.attempt.value) else Transitioned(s, d)
  {
    hide Remembered, WithState;
    TransitionShape(s, d.key, d.to, d.recallAt);
    var noted := s.(records := Noted(s, d));
    assert Applied(s, d) == RememberedIf(noted, d.attempt);
    if d.attempt.Some? { JournalIrrelevant(noted, d.attempt.value, s.journal + [d]); }
  }

  lemma JournalIrrelevant(s: State, a: Attempt, journal: seq<DurableRecord>)
    ensures Remembered(s, a).(journal := journal) == Remembered(s.(journal := journal), a)
  {
    EvictedJournal(s.(attempts := s.attempts[a.id := a],
                      attemptOrder := if a.id in s.attempts then s.attemptOrder else s.attemptOrder + [a.id]), journal);
  }

  lemma {:induction false} EvictedJournal(s: State, journal: seq<DurableRecord>)
    ensures Evicted(s).(journal := journal) == Evicted(s.(journal := journal))
    decreases |s.attemptOrder|
  {
    if |s.attemptOrder| > s.maxAttempts {
      EvictedJournal(s.(attempts := s.attempts - {s.attemptOrder[0]}, attemptOrder := s.attemptOrder[1..]), journal);
    }
  }

  /** The moves a live record may make. */
  ghost predicate CanMove(s: State, key: Key, to: ReservationState, recallAt: int) {
    && key in s.records && !IsTerminal(s.records[key].state)
    && if to == RecallPending then 0 < recallAt <= s.records[key].terms.interval.end && s.records[key].Consumes()
       else recallAt == 0 && (to == Released || to == Expired || to == Revoked
                              || (to == Active && s.records[key].state == Committed))
  }

  lemma MoveHealthy(s: State, key: Key, to: ReservationState, recallAt: int, attempt: Option<Attempt>)
    requires Healthy(s) && CanMove(s, key, to, recallAt)
    ensures Healthy(Transitioned(s, StateMutation(key, to, recallAt, attempt)))
  {
    hide Healthy;
    HealthyRecord(s, key);
    var r := s.records[key];
    HealthyWaned(s, Transitioned(s, StateMutation(key, to, recallAt, attempt)), key,
                 r.(state := to, recallAt := if recallAt > 0 then recallAt else r.recallAt));
  }

  /** A move rewrites one record and leaves what it binds alone. */
  lemma MoveRewrites(s: State, key: Key, to: ReservationState, recallAt: int, attempt: Option<Attempt>)
    requires Healthy(s) && CanMove(s, key, to, recallAt)
    ensures key in s.records
    ensures var was := s.records[key];
    var r := was.(state := to, recallAt := if recallAt > 0 then recallAt else was.recallAt);
            var d := StateMutation(key, to, recallAt, attempt);
            && !IsTerminal(was.state) && was.KeyOf() == key
            && Transitioned(s, d) == s.(records := s.records[key := r], journal := s.journal + [d])
            && Healthy(Transitioned(s, d))
            && (to != RecallPending ==> SameEntries(was, r))
  {
    hide Healthy;
    MoveHealthy(s, key, to, recallAt, attempt);
    HealthyRecord(s, key);
  }

  lemma GraceRewrites(s: State, key: Key, grace: int)
    requires Healthy(s) && key in s.records
    ensures var r := s.records[key].(grace := grace);
            && s.records[key].KeyOf() == key && Healthy(s.(records := s.records[key := r], journal := s.journal + []))
            && WithGrace(s, key, grace) == s.(records := s.records[key := r]) && s.journal + [] == s.journal
  {
    hide Healthy;
    GraceHealthy(s, key, grace);
    HealthyRecord(s, key);
    assert s.journal + [] == s.journal;
  }

  lemma MarkHealthy(s: State, key: Key, applicability: Applicability, reason: Reason)
    requires Healthy(s) && key in s.records
    ensures Healthy(Transitioned(s, ApplicabilityMutation(key, applicability, reason)))
  {
    hide Healthy;
    HealthyRecord(s, key);
    HealthyWaned(s, Transitioned(s, ApplicabilityMutation(key, applicability, reason)), key,
                 s.records[key].(applicability := applicability, reason := reason));
  }

  /** A live record is marked current exactly when the ledger bears out everything it is bound to. */
  ghost predicate Attuned(ledger: Ledger, records: map<Key, Record>) {
    forall k :: k in records && !IsTerminal(records[k].state) ==>
      (records[k].applicability == Current <==> AllCurrent(ledger, records[k].refs))
  }

  /**
   Identities not behind are marked current if the ledger bears out everything their live
   record is bound to; those behind are marked current although it does not.
   */
  ghost predicate Aligned(ledger: Ledger, records: map<Key, Record>, behind: set<Identity>) {
    forall k :: k in records && !IsTerminal(records[k].state) ==>
      && (k.id !in behind && AllCurrent(ledger, records[k].refs) ==> records[k].applicability == Current)
      && (k.id in behind ==> records[k].applicability == Current && !AllCurrent(ledger, records[k].refs))
  }

  /** A record that keeps its bindings and mark, and was live before if it is now, stays in step. */
  lemma AlignedKept(ledger: Ledger, records: map<Key, Record>, key: Key, r: Record, behind: set<Identity>)
    requires Aligned(ledger, records, behind) && key in records && !IsTerminal(records[key].state)
    requires r.applicability == records[key].applicability && r.refs == records[key].refs
    ensures Aligned(ledger, records[key := r], behind) && Aligned(ledger, records[key := r], behind - {key.id})
  {
    hide AllCurrent;
  }

  /** The index expectation looks only at the ledger, the records, their generations and the holds. */
  lemma MixSame(m: Contents, s: State, s': State, before: Ledgers, pending: set<Identity>)
    requires InMix(m, s, before, pending)
    requires s'.ledger == s.ledger && s'.records == s.records && s'.current == s.current && s'.holds == s.holds
    ensures InMix(m, s', before, pending)
  {
    hide Answers;
    forall k ensures WantedIn(s', before, pending, k) == WantedIn(s, before, pending, k) {
      hide Wanted;
      SameWanted(s', s, k);
      SameWanted(s'.(ledger := before(k.id)), s.(ledger := before(k.id)), k);
    }
  }

  lemma ReleasedWanted(s: State, id: Identity, k: EntryKey)
    requires id in s.holds
    ensures Wanted(HoldsReleased(s, {id}), k)
            == if k.kind == HolderKind.Hold && k.id == id then None else Wanted(s, k)
  {
    hide Indexable;
  }

  lemma MixReleased(m: Contents, s: State, id: Identity, before: Ledgers, pending: set<Identity>)
    requires InMix(m, s, before, pending) && id in s.holds
    ensures InMix(Without(m, HolderKind.Hold, id), HoldsReleased(s, {id}), before, pending)
  {
    hide Wanted;
    var s' := HoldsReleased(s, {id});
    forall k ensures Answers(Without(m, HolderKind.Hold, id), k, WantedIn(s', before, pending, k)) {
      var ledger := if k.kind == Reservation && k.id in pending then before(k.id) else s.ledger;
      assert s.(ledger := s.ledger) == s && s'.(ledger := s.ledger) == s';
      assert HoldsReleased(s.(ledger := ledger), {id}) == s'.(ledger := ledger);
      ReleasedWanted(s.(ledger := ledger), id, k);
      assert Answers(m, k, WantedIn(s, before, pending, k));
    }
  }

  lemma ReleasedNone(s: State)
    ensures HoldsReleased(s, {}) == s
  {
  }

  lemma ReleasedNothing(s: State, id: Identity)
    ensures id !in s.holds || s.holds[id].released ==> HoldsReleased(s, {id}) == s
    ensures id in s.holds ==> HoldsReleased(s, {id}) == s.(holds := s.holds[id := s.holds[id].(released := true)])
  {
  }

  lemma ReleasedMore(s: State, a: set<Identity>, b: set<Identity>)
    ensures HoldsReleased(HoldsReleased(s, a), b) == HoldsReleased(s, a + b)
  {
  }

  predicate ClaimantAccepted(s: State, claimant: Identity, generation: nat) {
    claimant != 0 && (claimant in s.claimants ==> s.claimants[claimant] <= generation)
  }

  /** The claimant's open holds of an earlier generation. */
  function OlderHolds(s: State, claimant: Identity, generation: nat): set<Identity> {
    set h | h in s.holds && !s.holds[h].released && s.holds[h].claimant == claimant
        && s.holds[h].claimantGeneration < generation
  }

  /** The claimant is on record at this generation, and nothing older of it holds capacity. */
  function ClaimantEnsured(s: State, claimant: Identity, generation: nat): State {
    var noted := s.(claimants := s.claimants[claimant := generation],
                    journal := s.journal + [ClaimantRegistration(claimant, generation)]);
    if claimant !in s.claimants then noted
    else if s.claimants[claimant] < generation then HoldsReleased(noted, OlderHolds(s, claimant, generation))
    else s
  }

  lemma RegisterReaches(s: State, claimant: Identity, generation: nat)
    requires claimant in s.claimants ==> generation > s.claimants[claimant]
    ensures Reaches(s, s.(claimants := s.claimants[claimant := generation],
                          journal := s.journal + [ClaimantRegistration(claimant, generation)]), true)
  {
    ReachesByStep(s, Note(ClaimantRegistration(claimant, generation)), true);
  }

  lemma EvictedNext(s: State)
    ensures Evicted(s) ==
            if |s.attemptOrder| <= s.maxAttempts then s
            else Evicted(s.(attempts := s.attempts - {s.attemptOrder[0]}, attemptOrder := s.attemptOrder[1..]))
  {
  }

  // ---------------------------------------------------------------------------
  // The passing of time
  // ---------------------------------------------------------------------------

  /** Only records changed, each noted in the journal. */
  ghost predicate OnlyRecords(s: State, s': State) {
    s' == s.(records := s'.records, journal := s'.journal)
  }

  function ReconciledAll(records: map<Key, Record>, now: int): map<Key, Record> {
    map k | k in records :: Reconciled(records[k], now)
  }

  function Lapsed(holds: map<Identity, Hold>, now: int): set<Identity> {
    set h | h in holds && !holds[h].released && holds[h].expiresAt <= now
  }

  /** Records of the keys visited so far are reconciled, the others untouched. */
  ghost predicate PartlyReconciled(before: map<Key, Record>, after: map<Key, Record>, visited: seq<Key>, now: int) {
    && after.Keys == before.Keys
    && forall k :: k in before ==> after[k] == if k in visited then Reconciled(before[k], now) else before[k]
  }

  /** The due records, once each and in key order. */
  ghost predicate WorkOf(work: seq<Key>, records: map<Key, Record>, now: int) {
    Ascending(work) && forall k :: k in work <==> k in records && Due(records[k], now)
  }

  ghost predicate Idle(records: map<Key, Record>, now: int) {
    forall k :: k in records ==> !Due(records[k], now)
  }

  /** Every due record was visited and nothing else happened; with nothing due, nothing at all. */
  ghost predicate DueVisited(s: State, s': State, now: int) {
    && OnlyRecords(s, s') && s'.records == ReconciledAll(s.records, now)
    && (Idle(s.records, now) ==> s'.journal == s.journal)
  }

  lemma VisitedAll(s: State, s': State, work: seq<Key>, now: int)
    requires OnlyRecords(s, s') && PartlyReconciled(s.records, s'.records, work, now) && WorkOf(work, s.records, now)
    requires work == [] ==> s' == s
    ensures DueVisited(s, s', now)
  {
    hide Due, Visited;
    assert Idle(s.records, now) ==> work == [] by {
      if work != [] { assert work[0] in work; }
    }
  }

  lemma VisitedOne(before: map<Key, Record>, after: map<Key, Record>, work: seq<Key>, i: nat, r: Record, now: int)
    requires i < |work| && Ascending(work) && work[i] in before
    requires PartlyReconciled(before, after, work[..i], now) && r == Reconciled(before[work[i]], now)
    ensures work[i] in after && after[work[i]] == before[work[i]]
    ensures PartlyReconciled(before, after[work[i] := r], work[..i + 1], now)
  {
    hide Reconciled;
    assert work[i] !in work[..i];
    forall k ensures k in work[..i + 1] <==> k in work[..i] || k == work[i] {
      assert work[..i + 1] == work[..i] + [work[i]];
    }
  }

  lemma TickReaches(s: State, s': State, key: Key, to: ReservationState)
    requires CanMove(s, key, to, 0) && to != RecallPending
    requires s' == Transitioned(s, StateMutation(key, to, 0, None))
    ensures OnlyRecords(s, s') && s'.records == s.records[key := s.records[key].(state := to)]
    ensures Reaches(s, s', true)
  {
    var d := StateMutation(key, to, 0, None);
    TransitionedIsWritten(s, d);
    assert Next(s, Note(d)) == s';
    hide Next, Written, Transitioned, Reaches;
    ReachesByStep(s, Note(d), true);
  }

  lemma OnlyRecordsJoin(s: State, mid: State, s': State)
    requires OnlyRecords(s, mid) && OnlyRecords(mid, s')
    ensures OnlyRecords(s, s')
  {
  }

  /** Every record is reconciled, every lapsed hold is released, and the journal grew only if a record was due. */
  ghost predicate TimePassed(s: State, s': State, now: int) {
    && s' == HoldsReleased(s, Lapsed(s.holds, now)).(records := ReconciledAll(s.records, now), journal := s'.journal)
    && (Idle(s.records, now) ==> s'.journal == s.journal)
  }

  /**
   After time has passed nothing consumes beyond its window or waits beyond its
   start, no hold outlives its deadline, and passing the same time again does
   nothing, not even to the journal.
   */
  lemma TimeSettles(s: State, s': State, now: int)
    requires TimePassed(s, s', now)
    ensures forall k :: k in s'.records && s'.records[k].Consumes() ==>
      && (!s'.records[k].Window().Empty() ==> now < s'.records[k].Window().end)
      && (s'.records[k].state == Committed ==> now < s'.records[k].terms.interval.start)
    ensures forall h :: h in s'.holds && !s'.holds[h].released ==> now < s'.holds[h].expiresAt
    ensures Idle(s'.records, now)
    ensures forall s'' :: TimePassed(s', s'', now) ==> s'' == s'
  {
    hide Reconciled, Due, Record.Consumes, Record.Window;
    forall k | k in s.records
      ensures var r := s'.records[k];
              && (r.Consumes() ==>
                    && (!r.Window().Empty() ==> now < r.Window().end)
                    && (r.state == Committed ==> now < r.terms.interval.start))
              && !Due(r, now) && Reconciled(r, now) == r
    {
      ReconciledSettles(s.records[k], now);
      ReconciledTwice(s.records[k], now);
    }
    assert ReconciledAll(s'.records, now) == s'.records;
    assert HoldsReleased(s', Lapsed(s'.holds, now)) == s';
  }

  lemma TimeParts(s: State, s': State, now: int)
    requires TimePassed(s, s', now)
    ensures s'.records == ReconciledAll(s.records, now)
    ensures s'.holds == HoldsReleased(s, Lapsed(s.holds, now)).holds
  {
  }

  lemma HoldsInStages(s: State, early: int, late: int, mid: State)
    requires early <= late && mid.holds == HoldsReleased(s, Lapsed(s.holds, early)).holds
    ensures HoldsReleased(mid, Lapsed(mid.holds, late)).holds == HoldsReleased(s, Lapsed(s.holds, late)).holds
  {
  }

  /** Stopping on the way changes neither the records nor the holds one ends up with. */
  lemma TimeInStages(s: State, early: int, late: int, mid: State, staged: State, direct: State)
    requires early <= late && Inv(s)
    requires TimePassed(s, mid, early) && TimePassed(mid, staged, late) && TimePassed(s, direct, late)
    ensures staged.records == direct.records && staged.holds == direct.holds
  {
    TimeParts(s, mid, early);
    TimeParts(mid, staged, late);
    TimeParts(s, direct, late);
    hide HoldsReleased, Lapsed, TimePassed, Reconciled;
    HoldsInStages(s, early, late, mid);
    RecordsInStages(s, early, late);
  }

  lemma RecordsInStages(s: State, early: int, late: int)
    requires early <= late && Inv(s)
    ensures ReconciledAll(ReconciledAll(s.records, early), late) == ReconciledAll(s.records, late)
  {
    hide Chained, SoundLedger, SoundHolds, Reconciled;
    forall k | k in s.records
      ensures Reconciled(Reconciled(s.records[k], early), late) == Reconciled(s.records[k], late)
    {
      assert SoundRecord(s.ledger, s.records[k]);
      ReconciledInStages(s.records[k], early, late);
    }
  }

  /** Visiting every due record and then releasing the lapsed holds is what the passing of time asks for. */
  lemma PassTime(s: State, mid: State, expired: set<Identity>, now: int)
    requires DueVisited(s, mid, now) && expired == Lapsed(mid.holds, now)
    ensures TimePassed(s, HoldsReleased(mid, expired), now)
  {
    hide Reconciled, Due;
  }

  lemma DropReaches(s: State, mid: State, ids: set<Identity>)
    requires Reaches(s, mid, true)
    ensures Reaches(s, HoldsReleased(mid, ids), true)
  {
    hide Reaches, HoldsReleased;
    ReachesFurther(s, mid, DropHolds(ids), true);
  }

  lemma NoneVisited(s: State, now: int)
    ensures OnlyRecords(s, s) && PartlyReconciled(s.records, s.records, [], now)
  {
  }

  lemma InitialMix(maxAttempts: nat, under: Ledgers)
    ensures InMix(map[], Initial(maxAttempts), under, {})
  {
  }

  lemma InitialHealthy(maxAttempts: nat)
    ensures Healthy(Initial(maxAttempts)) && Expected(Initial(maxAttempts)) == map[]
  {
    var s := Initial(maxAttempts);
    InitialInv(maxAttempts);
    assert Demand(s) == map[];
    forall r, t ensures LoadOn(Demand(s), r, Combined, t) == 0 {
      NoEntriesNoLoad(Demand(s), r, Combined, HORIZON);
    }
  }

  // ---------------------------------------------------------------------------
  // Requests and their answers
  // ---------------------------------------------------------------------------

  datatype Failure =
    | UnknownRecord | NotOwner | FencedClaimant | IllegalTransition | PolicyForbids | BadWindow | BadTerms
    | Contradiction | StaleBindings | Exhausted

  datatype Answer = Done(record: Record, replayed: bool) | Denied(failure: Failure)

  /** The attempt a requested transition is remembered under. */
  function TransitionAttempt(attempt: Identity, key: Key, to: ReservationState): Attempt {
    Attempt(attempt, StateRequest(key, to), Committable, key)
  }

  function Requested(attempt: Identity, key: Key, to: ReservationState, recallAt: int): DurableRecord {
    StateMutation(key, to, recallAt, Some(TransitionAttempt(attempt, key, to)))
  }

  lemma ConcludeReaches(s: State, key: Key, to: ReservationState, attempt: Identity)
    requires CanMove(s, key, to, 0) && to != RecallPending
    ensures var d := Requested(attempt, key, to, 0);
            && Applicable(s, d) && Written(s, d) == Remembered(Transitioned(s, d), d.attempt.value)
            && Reaches(s, Written(s, d), true)
  {
    var d := Requested(attempt, key, to, 0);
    TransitionedIsWritten(s, d);
    assert Next(s, Note(d)) == Written(s, d);
    hide Next, Written, Transitioned, Reaches;
    ReachesByStep(s, Note(d), true);
  }

  /** A requested transition leaves the record in the state asked for. */
  lemma ConcludedRecord(s: State, d: DurableRecord)
    requires d.StateMutation? && d.recallAt == 0 && Applicable(s, d)
    ensures Written(s, d).records == s.records[d.key := s.records[d.key].(state := d.to)]
  {
    StateShape(s, d);
  }

  /** Why a release is turned away before time is reconciled. */
  function ReleaseObjection(s: State, key: Key, claimant: Identity, generation: nat): Option<Failure> {
    if key !in s.records then Some(UnknownRecord)
    else if claimant != 0 && claimant != s.records[key].terms.claimant then Some(NotOwner)
    else if claimant != 0 && !ClaimantAccepted(s, claimant, generation) then Some(FencedClaimant)
    else None
  }

  /** What becomes of a record that is asked to end, judged once time has passed. */
  ghost predicate EndsAs(settled: State, s': State, key: Key, to: ReservationState, attempt: Identity, answer: Answer) {
    && key in settled.records
    && if settled.records[key].state == to then answer == Done(settled.records[key], true) && s' == settled
       else if IsTerminal(settled.records[key].state) then answer == Denied(IllegalTransition) && s' == settled
       else
         && answer == Done(settled.records[key].(state := to), false)
         && Applicable(settled, Requested(attempt, key, to, 0))
         && s' == Written(settled, Requested(attempt, key, to, 0))
  }

  /** The rules of one policy; unlisted policies resolve to a strict one before they get here. */
  datatype Policy = Policy(
    allowOvercommit: bool, allowance: nat, headroom: nat, allowPreemption: bool, maxVictims: nat,
    recallProtected: bool, recallGuaranteed: bool, defaultGrace: int, allowPastStart: bool, maxHorizon: int,
    minimumAmount: int, maxExtraHeadroom: int, maxSeriesMembers: nat, maxHoldTtl: int, maxHolds: nat,
    maxHoldBandwidth: int, autoRevalidate: bool)
  {
    predicate PermitsRecall(terms: Terms) {
      match terms.guarantee
      case Scavenger | Preemptible => true
      case Protected => recallProtected || terms.recallPermitted
      case Guaranteed => recallGuaranteed || terms.recallPermitted
    }

    /** Overcommitment this policy grants on top of a ceiling. */
    function Slack(): nat { if allowOvercommit then allowance else 0 }
  }

  lemma EnsuredRecords(s: State, claimant: Identity, generation: nat)
    ensures ClaimantEnsured(s, claimant, generation).records == s.records
    ensures ClaimantEnsured(s, claimant, generation).attempts == s.attempts
  {
  }

  lemma PassedKeys(s: State, s': State, now: int)
    requires TimePassed(s, s', now)
    ensures s'.records.Keys == s.records.Keys && s'.current == s.current && s'.ledger == s.ledger
            && s'.attempts == s.attempts
    ensures s'.overcommitted == s.overcommitted && s'.claimants == s.claimants
    ensures forall k :: k in s.records ==> s'.records[k] == s.records[k].(state := s'.records[k].state)
  {
  }

  /** What a revocation comes to, judged once time has passed. */
  ghost predicate RevokesAs(settled: State, s': State, key: Key, attempt: Identity, answer: Answer) {
    && key in settled.records
    && if attempt in settled.attempts || settled.records[key].state == Revoked then
         answer == Done(settled.records[key], true) && s' == settled
       else if !settled.records[key].Consumes() then answer == Denied(IllegalTransition) && s' == settled
       else
         && answer == Done(settled.records[key].(state := Revoked), false)
         && Applicable(settled, Requested(attempt, key, Revoked, 0))
         && s' == Written(settled, Requested(attempt, key, Revoked, 0))
  }

  /** The instant a recall asks for, before it is held to the end of the interval. */
  function AskedEffect(effectiveAt: int, force: bool, now: int): int {
    if force || effectiveAt == 0 then now else effectiveAt
  }

  function HeldEffect(r: Record, asked: int): int {
    if r.terms.interval.end < asked then r.terms.interval.end else asked
  }

  function EffectiveGrace(grace: int, policy: Policy): int {
    if grace == 0 then policy.defaultGrace else grace
  }

  /** What a recall comes to, judged once time has passed. */
  ghost predicate RecallsAs(settled: State, s': State, key: Key, policy: Policy, asked: int, grace: int,
                            attempt: Identity, now: int, answer: Answer)
  {
    && key in settled.records
    && var r := settled.records[key];
       var effect := HeldEffect(r, asked);
       if !r.Consumes() then answer == Denied(IllegalTransition) && s' == settled
       else if !policy.PermitsRecall(r.terms) then answer == Denied(PolicyForbids) && s' == settled
       else if asked < now then answer == Denied(BadWindow) && s' == settled
       else if r.state == RecallPending && r.recallAt == effect then answer == Done(r, true) && s' == settled
       else if effect <= now then
         && answer == Done(r.(state := Revoked), false)
         && Applicable(settled, Requested(attempt, key, Revoked, 0))
         && s' == Written(settled, Requested(attempt, key, Revoked, 0))
       else
         && answer == Done(r.(state := RecallPending, recallAt := effect, grace := EffectiveGrace(grace, policy)),
                           false)
         && Enabled(settled, RecallStep(key, effect, grace, policy, attempt))
         && s' == Next(settled, RecallStep(key, effect, grace, policy, attempt))
  }

  function RecallStep(key: Key, effect: int, grace: int, policy: Policy, attempt: Identity): Step {
    Recall(Requested(attempt, key, RecallPending, effect), EffectiveGrace(grace, policy))
  }

  /** A recall that leaves the record consuming within what it consumed before. */
  ghost predicate Shortens(settled: State, key: Key, effect: int, grace: int) {
    key in settled.records ==>
      settled.records[key].(recallAt := effect, grace := grace).Window().Within(settled.records[key].Window())
  }

  lemma RecallComes(s: State, key: Key, effect: int, grace: int, policy: Policy, attempt: Identity)
    requires CanMove(s, key, RecallPending, effect)
    ensures var d, g := Requested(attempt, key, RecallPending, effect), EffectiveGrace(grace, policy);
            && Enabled(s, RecallStep(key, effect, grace, policy, attempt))
            && Next(s, RecallStep(key, effect, grace, policy, attempt))
               == Remembered(WithGrace(Transitioned(s, d), key, g), d.attempt.value)
            && Reaches(s, Next(s, RecallStep(key, effect, grace, policy, attempt)), Shortens(s, key, effect, g))
  {
    var d, g := Requested(attempt, key, RecallPending, effect), EffectiveGrace(grace, policy);
    var step := RecallStep(key, effect, grace, policy, attempt);
    assert Enabled(s, step);
    GraceCommutes(s, d, g);
    hide Next, Written, Transitioned, Reaches, Record.Window, Remembered;
    assert Shortens(s, key, effect, g) ==> Tame(s, step);
    ReachesByStep(s, step, Shortens(s, key, effect, g));
  }

  lemma GraceCommutes(s: State, d: DurableRecord, grace: int)
    requires d.StateMutation? && d.key in s.records && d.attempt.Some?
    ensures WithGrace(Written(s, d), d.key, grace)
            == Remembered(WithGrace(Transitioned(s, d), d.key, grace), d.attempt.value)
  {
    hide Remembered;
    var t, a := Transitioned(s, d), d.attempt.value;
    TransitionedIsWritten(s, d);
    RememberedKeeps(t, a);
    RememberedKeeps(WithGrace(t, d.key, grace), a);
    RememberedSame(t, WithGrace(t, d.key, grace), a);
  }

  /** Which attempts are remembered depends only on the attempts. */
  lemma RememberedSame(s: State, s': State, a: Attempt)
    requires s'.attempts == s.attempts && s'.attemptOrder == s.attemptOrder && s'.maxAttempts == s.maxAttempts
    ensures Remembered(s', a).attempts == Remembered(s, a).attempts
            && Remembered(s', a).attemptOrder == Remembered(s, a).attemptOrder
  {
    hide Evicted;
    var order := if a.id in s.attempts then s.attemptOrder else s.attemptOrder + [a.id];
    EvictedSame(s.(attempts := s.attempts[a.id := a], attemptOrder := order),
                s'.(attempts := s'.attempts[a.id := a], attemptOrder := order));
  }

  lemma {:induction false} EvictedSame(s: State, s': State)
    requires s'.attempts == s.attempts && s'.attemptOrder == s.attemptOrder && s'.maxAttempts == s.maxAttempts
    ensures Evicted(s').attempts == Evicted(s).attempts && Evicted(s').attemptOrder == Evicted(s).attemptOrder
    decreases |s.attemptOrder|
  {
    if |s.attemptOrder| > s.maxAttempts {
      EvictedSame(s.(attempts := s.attempts - {s.attemptOrder[0]}, attemptOrder := s.attemptOrder[1..]),
                  s'.(attempts := s'.attempts - {s'.attemptOrder[0]}, attemptOrder := s'.attemptOrder[1..]));
    }
  }

  lemma RecalledTo(s: State, key: Key, effect: int, grace: int, policy: Policy, attempt: Identity)
    requires CanMove(s, key, RecallPending, effect)
    ensures Next(s, RecallStep(key, effect, grace, policy, attempt)).records
            == s.records[key := s.records[key].(state := RecallPending, recallAt := effect, grace :=
                                                EffectiveGrace(grace, policy))]
  {
    var d := Requested(attempt, key, RecallPending, effect);
    StateShape(s, d);
    TwiceIsOnce(s.records, key, s.records[key].(state := RecallPending, recallAt := effect),
                s.records[key].(state := RecallPending, recallAt := effect, grace := EffectiveGrace(grace, policy)));
  }

  lemma GraceHealthy(s: State, key: Key, grace: int)
    requires Healthy(s) && key in s.records
    ensures Healthy(WithGrace(s, key, grace))
  {
    hide Healthy;
    HealthyRecord(s, key);
    HealthyWaned(s, WithGrace(s, key, grace), key, s.records[key].(grace := grace));
  }
}

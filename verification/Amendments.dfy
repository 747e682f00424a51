/** Requests to amend a single reservation, what they may be answered with, and when. */
module Amendments {
  import opened Timeline
  import opened Claims
  import opened SegmentTree
  import opened Entries
  import opened ResourceStates
  import opened CapacityIndexing
  import opened Records
  import opened FabricState
  import opened Steps
  import opened Lineage
  import opened Closure
  import opened Runs
  import opened RecordIndexing
  import opened Bounds
  import opened Deadlines
  import opened Effects
  import opened Series
  import opened Admission
  import opened Commitments
  import opened Orders
  import opened Successions

  datatype Amendment = Amendment(attempt: Identity, target: Key, terms: Terms, dryRun: bool) {
    function Fingerprint(): Fingerprint { AmendRequest(target, terms) }

    /** Counts and periods are machine integers. */
    predicate Encoded() { InInt64(terms.recurrence.period) && terms.recurrence.count < 0x1_0000_0000 }
  }

  datatype AmendAnswer =
    | Amended(successor: Record)
    | Foreshown
    | Declined(outcome: Outcome)
    | Recalled(attempt: Attempt)
    | NotAmended(failure: Failure)

  /** Why an amendment is turned away before time is reconciled; a repeated attempt raises none. */
  function AmendObjection(s: State, o: Amendment): Option<Failure> {
    if !ValidTerms(o.terms) then Some(BadTerms)
    else if o.target !in s.records then Some(UnknownRecord)
    else if o.attempt in s.attempts then
      if s.attempts[o.attempt].fingerprint != o.Fingerprint() then Some(Contradiction) else None
    else if IsTerminal(s.records[o.target].state) then Some(IllegalTransition)
    else if o.terms.claimant != s.records[o.target].terms.claimant then Some(NotOwner)
    else if o.terms.claimantGeneration < s.records[o.target].terms.claimantGeneration then Some(FencedClaimant)
    else if !ClaimantAccepted(s, o.terms.claimant, o.terms.claimantGeneration) then Some(FencedClaimant)
    else None
  }

  /** Why it is turned away once time has passed. */
  function LateObjection(s: State, o: Amendment, policy: Policy): Option<Failure> {
    if !AllLive(s.ledger, o.terms.resources) then Some(StaleBindings)
    else if Objection(o.terms.interval, o.terms.recurrence, policy.maxSeriesMembers).Some? then Some(BadWindow)
    else None
  }

  function AmendRefusal(o: Amendment, outcome: Outcome): DurableRecord {
    AttemptOutcome(Attempt(o.attempt, o.Fingerprint(), outcome, o.target))
  }

  /** The next generation under the amended terms: no recall is pending on it. */
  function AmendedRecord(s: State, o: Amendment, refs: seq<ResourceRef>, now: int): Record
    requires o.target in s.records
  {
    Successor(s.records[o.target], o.terms, refs, 0, now)
  }

  function AmendmentRecord(s: State, o: Amendment, refs: seq<ResourceRef>, now: int): DurableRecord
    requires o.target in s.records
  {
    var r := AmendedRecord(s, o, refs, now);
    SuccessionRecord(r, Some(Attempt(o.attempt, o.Fingerprint(), Outcome.Committable, r.KeyOf())))
  }

  /** The verdict of the first window that does not close beside the index without the predecessor. */
  ghost predicate FirstShort(s: State, measured: Contents, o: Amendment, refs: seq<ResourceRef>, windows: seq<Interval>,
                             policy: Policy, outcome: Outcome)
  {
    exists i :: 0 <= i < |windows| && outcome != Outcome.Committable
      && outcome == Verdict(s.ledger, s.overcommitted, measured, refs, windows[i], o.terms.amount, policy,
                            o.terms.headroom)
      && AllCommittable(s.ledger, s.overcommitted, measured, refs, windows[..i], o.terms.amount, policy,
                        o.terms.headroom)
  }

  /** Every way a settled amendment can be answered, with the state it leaves; `m` is the index before it. */
  ghost predicate AmendsAs(s: State, s': State, m: Contents, o: Amendment, policy: Policy, now: int,
                           refs: seq<ResourceRef>, windows: seq<Interval>, answer: AmendAnswer)
  {
    var measured := Without(m, Reservation, o.target.id);
    var objection := LateObjection(s, o, policy);
    if objection.Some? then answer == NotAmended(objection.value) && s' == s
    else
      && o.target in s.records
      && BoundTo(s.ledger, o.terms.resources, refs) && Expanded(o.terms.interval, o.terms.recurrence, windows)
      && match answer
         case NotAmended(_) => false
         case Recalled(_) => false
         case Declined(outcome) =>
           && FirstShort(s, measured, o, refs, windows, policy, outcome)
           && (if o.dryRun then s' == s
               else Enabled(s, Note(AmendRefusal(o, outcome))) && s' == Next(s, Note(AmendRefusal(o, outcome))))
         case Foreshown =>
           o.dryRun && s' == s && AllCommittable(s.ledger, s.overcommitted, measured, refs, windows, o.terms.amount,
                                                 policy, o.terms.headroom)
         case Amended(r) =>
           && !o.dryRun && AllCommittable(s.ledger, s.overcommitted, measured, refs, windows, o.terms.amount, policy,
                                          o.terms.headroom)
           && r == AmendedRecord(s, o, refs, now)
           && var step := Supersede(AmendmentRecord(s, o, refs, now), measured, policy.Slack());
              Enabled(s, step) && s' == Next(s, step)
  }

  // ---------------------------------------------------------------------------
  // Lemmas
  // ---------------------------------------------------------------------------

  /** Only the index without the predecessor matters, so it does not matter whether the predecessor was behind. */
  lemma AmendsWithout(s: State, s': State, m: Contents, under: Ledgers, behind: set<Identity>, after: set<Identity>,
                      o: Amendment, policy: Policy, now: int, refs: seq<ResourceRef>, windows: seq<Interval>,
                      answer: AmendAnswer)
    requires m == Indexed(s, under, behind) && behind - {o.target.id} <= after <= behind
    requires AmendsAs(s, s', m, o, policy, now, refs, windows, answer)
    ensures AmendsAs(s, s', Indexed(s, under, after), o, policy, now, refs, windows, answer)
  {
    hide Indexed, LateObjection, BoundTo, Expanded, Verdict, AllCommittable, FirstShort, Enabled, Next, Without;
    WithoutBehind(s, under, behind, after, o.target.id);
  }

  lemma WithoutBehind(s: State, under: Ledgers, behind: set<Identity>, after: set<Identity>, id: Identity)
    requires behind - {id} <= after <= behind
    ensures Without(Indexed(s, under, behind), Reservation, id) == Without(Indexed(s, under, after), Reservation, id)
  {
    hide Indexed, Wanted;
    forall k: EntryKey | !(k.kind == Reservation && k.id == id)
      ensures k in Indexed(s, under, behind) <==> k in Indexed(s, under, after)
      ensures k in Indexed(s, under, behind) ==> Indexed(s, under, behind)[k] == Indexed(s, under, after)[k]
    {
      IndexedIs(s, under, behind, k);
      IndexedIs(s, under, after, k);
    }
  }

  lemma NotAmendedAs(s: State, m: Contents, o: Amendment, policy: Policy, now: int, refs: seq<ResourceRef>,
                     windows: seq<Interval>, failure: Failure)
    requires LateObjection(s, o, policy) == Some(failure)
    ensures AmendsAs(s, s, m, o, policy, now, refs, windows, NotAmended(failure))
  {
    hide AllLive, Objection;
  }

  lemma DeclinedAs(s: State, s': State, m: Contents, o: Amendment, policy: Policy, now: int, refs: seq<ResourceRef>,
                   windows: seq<Interval>, outcome: Outcome, failing: nat)
    requires o.target in s.records && LateObjection(s, o, policy) == None
    requires BoundTo(s.ledger, o.terms.resources, refs) && Expanded(o.terms.interval, o.terms.recurrence, windows)
    requires var measured := Without(m, Reservation, o.target.id);
             && failing < |windows| && outcome != Outcome.Committable
             && outcome == Verdict(s.ledger, s.overcommitted, measured, refs, windows[failing], o.terms.amount,
                                   policy, o.terms.headroom)
             && AllCommittable(s.ledger, s.overcommitted, measured, refs, windows[..failing], o.terms.amount, policy,
                               o.terms.headroom)
    requires if o.dryRun then s' == s
             else Enabled(s, Note(AmendRefusal(o, outcome))) && s' == Next(s, Note(AmendRefusal(o, outcome)))
    ensures AmendsAs(s, s', m, o, policy, now, refs, windows, Declined(outcome))
  {
    hide LateObjection, BoundTo, Expanded, Verdict, AllCommittable, Enabled, Next, Without;
  }

  lemma ForeshownAs(s: State, m: Contents, o: Amendment, policy: Policy, now: int, refs: seq<ResourceRef>,
                    windows: seq<Interval>)
    requires o.target in s.records && LateObjection(s, o, policy) == None && o.dryRun
    requires BoundTo(s.ledger, o.terms.resources, refs) && Expanded(o.terms.interval, o.terms.recurrence, windows)
    requires AllCommittable(s.ledger, s.overcommitted, Without(m, Reservation, o.target.id), refs, windows,
                            o.terms.amount, policy, o.terms.headroom)
    ensures AmendsAs(s, s, m, o, policy, now, refs, windows, Foreshown)
  {
    hide LateObjection, BoundTo, Expanded, AllCommittable, Without;
  }

  /** The first window of an expansion is the interval asked for. */
  lemma FirstWindow(o: Amendment, policy: Policy, windows: seq<Interval>)
    requires ValidTerms(o.terms) && Objection(o.terms.interval, o.terms.recurrence, policy.maxSeriesMembers) == None
    requires Expanded(o.terms.interval, o.terms.recurrence, windows)
    ensures windows != [] && windows[0] == o.terms.interval && forall i :: 0 <= i < |windows| ==>
      ValidInterval(windows[i])
  {
    ExpandedDisjoint(o.terms.interval, o.terms.recurrence, policy.maxSeriesMembers, windows);
  }

  lemma TermsParts(t: Terms)
    requires ValidTerms(t)
    ensures ValidInterval(t.interval) && 0 < t.amount <= MAX_BANDWIDTH_BPS && Distinct(t.resources) && 0 <= t.headroom
            && "" !in t.resources
  {
  }

  /** What closes without the predecessor is what the succession demands, and leaves a healthy state. */
  lemma PlanAmended(s: State, m: Contents, o: Amendment, policy: Policy, now: int, refs: seq<ResourceRef>,
                    windows: seq<Interval>)
    requires Healthy(s) && o.target in s.records && o.target.id in s.current
             && s.current[o.target.id] == o.target.generation
    requires ValidTerms(o.terms) && o.attempt !in s.attempts && LateObjection(s, o, policy) == None && !o.dryRun
    requires BoundTo(s.ledger, o.terms.resources, refs) && Expanded(o.terms.interval, o.terms.recurrence, windows)
    requires RoomToBind(s, o.terms.resources, o.terms.amount)
    requires AllCommittable(s.ledger, s.overcommitted, Without(m, Reservation, o.target.id), refs, windows,
                            o.terms.amount, policy, o.terms.headroom)
    ensures var d, measured := AmendmentRecord(s, o, refs, now), Without(m, Reservation, o.target.id);
            && d.ReservationMutation? && d.record.id == o.target.id && d.attempt.Some?
            && CanSupersede(s, d, measured, policy.Slack()) && Healthy(Succeeded(s, d))
  {
    hide Healthy, BoundTo, Verdict, CanSupersede, Succeeded, RoomToBind, NamesOf, Remembered, Without, ValidTerms,
         AllLive, Objection, Expanded;
    var measured := Without(m, Reservation, o.target.id);
    FirstWindow(o, policy, windows);
    TermsParts(o.terms);
    HealthyRecord(s, o.target);
    var attempt := Some(Attempt(o.attempt, o.Fingerprint(), Outcome.Committable,
                                AmendedRecord(s, o, refs, now).KeyOf()));
    assert Verdict(s.ledger, s.overcommitted, measured, refs, windows[0], o.terms.amount, policy, o.terms.headroom)
           == Outcome.Committable;
    CanSucceed(s, o.target, o.terms, refs, 0, now, attempt, measured, policy);
    var d := AmendmentRecord(s, o, refs, now);
    RoomOnBinding(s, o.terms.resources, refs, o.terms.amount);
    AmendHealthy(s, d, measured, policy.Slack());
  }

  /** The succession with its attempt remembered is the step, and the answer. */
  lemma AmendedAs(s: State, m: Contents, o: Amendment, policy: Policy, now: int, refs: seq<ResourceRef>,
                  windows: seq<Interval>, d: DurableRecord, measured: Contents, s': State)
    requires o.target in s.records && LateObjection(s, o, policy) == None && !o.dryRun
    requires BoundTo(s.ledger, o.terms.resources, refs) && Expanded(o.terms.interval, o.terms.recurrence, windows)
    requires d == AmendmentRecord(s, o, refs, now) && measured == Without(m, Reservation, o.target.id)
    requires AllCommittable(s.ledger, s.overcommitted, measured, refs, windows, o.terms.amount, policy,
                            o.terms.headroom)
    requires CanSupersede(s, d, measured, policy.Slack()) && s' == Remembered(Succeeded(s, d), d.attempt.value)
    ensures Enabled(s, Supersede(d, measured, policy.Slack())) && s' == Next(s, Supersede(d, measured, policy.Slack()))
    ensures AmendsAs(s, s', m, o, policy, now, refs, windows, Amended(AmendedRecord(s, o, refs, now)))
  {
    hide BoundTo, AllCommittable, CanSupersede, Succeeded, Remembered, Without, LateObjection, Expanded;
    SucceededIsWritten(s, d, measured, policy.Slack());
  }

  /** At rest the index without a record outweighs what the records call for once it is superseded. */
  lemma RestOutweighs(m: Contents, s: State, under: Ledgers, behind: set<Identity>, p: Key)
    requires Healthy(s) && InMix(m, s, under, behind) && Aligned(s.ledger, s.records, behind)
    requires p in s.records && p.id in s.current && s.current[p.id] == p.generation
    ensures Outweighs(Without(m, Reservation, p.id), Expected(WithState(s, p, Superseded)))
  {
    hide Modest, Inv, Expected, LoadOn, Without, WithState, Aligned, InMix;
    var low, high := Expected(WithState(s, p, Superseded)), Without(m, Reservation, p.id);
    MixRepresentable(s, m, under, behind);
    IndexedUnique(m, s, under, behind);
    forall k | k in low ensures k in high && high[k] == low[k] {
      RestCovers(m, s, under, behind, p, k);
    }
    Successions.KeyedWithout(m, p.id);
    forall resource, t ensures LoadOn(low, resource, Combined, t) <= LoadOn(high, resource, Combined, t) {
      OnKeyed(high, resource);
      PartWeighsLess(high, low, resource, t);
    }
  }

  lemma RestCovers(m: Contents, s: State, under: Ledgers, behind: set<Identity>, p: Key, k: EntryKey)
    requires m == Indexed(s, under, behind) && Aligned(s.ledger, s.records, behind)
    requires p in s.records && p.id in s.current && s.current[p.id] == p.generation
    requires k in Expected(WithState(s, p, Superseded))
    ensures k in Without(m, Reservation, p.id)
            && Without(m, Reservation, p.id)[k] == Expected(WithState(s, p, Superseded))[k]
  {
    hide Expected, Indexed, Aligned, Record.Window, AllCurrent;
    var after := WithState(s, p, Superseded);
    ExpectedIs(after, k);
    if k.kind == Reservation {
      ReleasedNone(s);
      WantedHere(s, {}, p, k);
    }
    ExpectedIs(s, k);
    IndexedCoversKey(s, under, behind, k);
  }

  lemma SucceededAligned(s: State, d: DurableRecord, measured: Contents, allowance: nat, behind: set<Identity>)
    requires Healthy(s) && CanSupersede(s, d, measured, allowance) && Aligned(s.ledger, s.records, behind)
             && behind <= s.current.Keys
    ensures d.ReservationMutation?
    ensures var s' := Succeeded(s, d);
            Aligned(s'.ledger, s'.records, behind - {d.record.id}) && behind - {d.record.id} <= s'.current.Keys
  {
    hide FitsIn, AllCurrent, Succeeded, Healthy;
    SucceededShape(s, d, measured, allowance);
  }

  /** The step an amendment comes to, within the run. */
  lemma AmendReaches(m: Contents, s: State, under: Ledgers, behind: set<Identity>, d: DurableRecord, measured: Contents,
                     policy: Policy)
    requires Healthy(s) && InMix(m, s, under, behind) && Aligned(s.ledger, s.records, behind)
    requires d.ReservationMutation? && CanSupersede(s, d, measured, policy.Slack())
             && measured == Without(m, Reservation, d.record.id)
    ensures Reaches(s, Next(s, Supersede(d, measured, policy.Slack())), policy.Slack() == 0)
  {
    hide Healthy, InMix, Aligned, Without, Reaches, Next, Outweighs, Expected, WithState;
    SupersedeParts(s, d, measured, policy.Slack());
    hide CanSupersede;
    RestOutweighs(m, s, under, behind, d.record.predecessor.value);
    ReachesByStep(s, Supersede(d, measured, policy.Slack()), policy.Slack() == 0);
  }

  /** The record is terminal after the passing of time exactly when time ended it. */
  ghost predicate EndedMeanwhile(settled: State, key: Key, s: State, now: int) {
    && key in s.records && key in settled.records
    && (IsTerminal(settled.records[key].state) <==> EndsBy(s.records[key], now))
  }

  /**
   Whether the target has ended is asked before time passes, so an amendment reaches a record that has
   ended exactly when time ends it before the amendment is weighed.
   */
  lemma ReachesEnded(s: State, o: Amendment, settled: State, now: int)
    requires o.target in s.records && !IsTerminal(s.records[o.target].state)
    requires TimePassed(ClaimantEnsured(s, o.terms.claimant, o.terms.claimantGeneration), settled, now)
    ensures EndedMeanwhile(settled, o.target, s, now)
  {
    EnsuredRecords(s, o.terms.claimant, o.terms.claimantGeneration);
    hide ClaimantEnsured, EndsBy, Reconciled, HoldsReleased;
    EndedExactly(s.records[o.target], now);
  }

  ghost predicate InForceAs(s: State, id: Identity, r: Record) {
    s.HasCurrent(id) && s.CurrentRecord(id) == r && r.Consumes()
  }

  /** An amendment that is granted is in force, whatever had become of its target. */
  lemma GrantedInForce(s: State, s': State, m: Contents, o: Amendment, policy: Policy, now: int,
                       refs: seq<ResourceRef>, windows: seq<Interval>, answer: AmendAnswer)
    requires Healthy(s) && o.target in s.records
    requires AmendsAs(s, s', m, o, policy, now, refs, windows, answer)
    ensures answer.Amended? ==> InForceAs(s', o.target.id, answer.successor)
  {
    hide LateObjection, BoundTo, Expanded, AllCommittable, Without, CanSupersede, Applied, Healthy, FirstShort;
    HealthyRecord(s, o.target);
    if answer.Amended? {
      var d := AmendmentRecord(s, o, refs, now);
      assert CanSupersede(s, d, Without(m, Reservation, o.target.id), policy.Slack());
      SupersedeShape(s, d, Without(m, Reservation, o.target.id), policy.Slack());
    }
  }

  /** The record asked for is still there and still the authority of its identity. */
  lemma TargetStays(s: State, claimant: Identity, generation: nat, s': State, now: int, key: Key)
    requires Healthy(s) && key in s.records && !IsTerminal(s.records[key].state)
    requires TimePassed(ClaimantEnsured(s, claimant, generation), s', now)
    ensures key in s'.records && key.id in s'.current && s'.current[key.id] == key.generation
            && s'.attempts == s.attempts
  {
    HealthyRecord(s, key);
    hide Healthy;
    EnsuredKeeps(s, claimant, generation);
    EnsuredRecords(s, claimant, generation);
    PassedKeys(ClaimantEnsured(s, claimant, generation), s', now);
  }
}

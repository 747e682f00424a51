/** Requests to create reservations, what they may be answered with, and when. */
module Orders {
  import opened Timeline
  import opened Claims
  import opened SegmentTree
  import opened Entries
  import opened ResourceStates
  import opened CapacityIndexing
  import opened Records
  import opened FabricState
  import opened Steps
  import opened Lineage
  import opened Closure
  import opened Runs
  import opened Bounds
  import opened Deadlines
  import opened Effects
  import opened Series
  import opened Admission
  import opened Commitments

  /** A request to create; identities the runtime derives are part of it. */
  datatype Order = Order(
    attempt: Identity, session: Identity, claimant: Identity, terms: Terms, id: Identity, seriesId: Identity,
    memberIds: seq<Identity>, consume: seq<Identity>, dryRun: bool)
  {
    function Fingerprint(): Fingerprint { CreateRequest(terms, id, consume) }

    /** The identities the commit will create. */
    function Ids(): seq<Identity> { if terms.recurrence.enabled then memberIds else [id] }

    function SeriesOf(): Option<Identity> { if terms.recurrence.enabled then Some(seriesId) else None }

    function Count(): nat { if terms.recurrence.enabled then terms.recurrence.count else 1 }

    /** Member identities are derived, one per member and all different; counts and periods are machine integers. */
    predicate Derived() {
      && (terms.recurrence.enabled ==> |memberIds| == terms.recurrence.count && Distinct(memberIds))
      && InInt64(terms.recurrence.period) && terms.recurrence.count < 0x1_0000_0000
    }
  }

  datatype CreateAnswer =
    | Created(members: seq<Record>, victims: seq<Key>)
    | Previewed(victims: seq<Key>)
    | TurnedAway(outcome: Outcome)
    | Repeated(attempt: Attempt)
    | NotCreated(failure: Failure)

  /** Limits set for the whole coordinator. */
  datatype Limits = Limits(maxLive: nat, scan: nat, preemption: bool)

  function LiveKeys(records: map<Key, Record>): set<Key> {
    set k | k in records && !IsTerminal(records[k].state)
  }

  /** Terms the policy turns away. */
  predicate PolicyForbidsTerms(terms: Terms, policy: Policy, now: int) {
    || (!policy.allowPastStart && terms.interval.start < now)
    || (policy.maxHorizon > 0 && terms.interval.start - now > policy.maxHorizon)
    || (policy.minimumAmount > 0 && terms.amount < policy.minimumAmount)
    || (policy.maxExtraHeadroom > 0 && terms.headroom > policy.maxExtraHeadroom)
    || (terms.recurrence.enabled && terms.recurrence.count > policy.maxSeriesMembers)
  }

  predicate AnyKnown(current: map<Identity, nat>, ids: seq<Identity>) {
    exists i :: 0 <= i < |ids| && ids[i] in current
  }

  /** Why an order is turned away once time has passed, in the order the reasons are looked for. */
  function OrderObjection(s: State, o: Order, policy: Policy, limits: Limits, now: int): Option<Failure> {
    if PolicyForbidsTerms(o.terms, policy, now) then Some(PolicyForbids)
    else if o.attempt in s.attempts then
      if s.attempts[o.attempt].fingerprint != o.Fingerprint() then Some(Contradiction) else None
    else if o.id in s.current then Some(Contradiction)
    else if o.terms.recurrence.enabled && AnyKnown(s.current, o.memberIds) then Some(Contradiction)
    else if !o.dryRun && |LiveKeys(s.records)| >= limits.maxLive then Some(Exhausted)
    else if !AllLive(s.ledger, o.terms.resources) then Some(StaleBindings)
    else if Objection(o.terms.interval, o.terms.recurrence, policy.maxSeriesMembers).Some? then Some(BadWindow)
    else HoldsObjection(s.holds, o.session, o.consume)
  }

  function TurnDown(o: Order, outcome: Outcome): DurableRecord {
    AttemptOutcome(Attempt(o.attempt, o.Fingerprint(), outcome, Key(o.id, 0)))
  }

  /** The durable record of a commit. */
  function CommitRecord(o: Order, members: seq<Record>, victims: seq<Key>): DurableRecord
    requires members != []
  {
    ReservationMutation(members[0], members[1..], false, victims, o.SeriesOf(),
                        Some(Attempt(o.attempt, o.Fingerprint(), Outcome.Committable, members[0].KeyOf())))
  }

  /** The request closes when the victims are revoked and the named holds consumed. */
  ghost predicate Closes(s: State, o: Order, refs: seq<ResourceRef>, windows: seq<Interval>, policy: Policy,
                         victims: seq<Key>, under: Ledgers, behind: set<Identity>)
    requires Known(s, victims)
  {
    AllCommittable(s.ledger, s.overcommitted, Indexed(Cleared(s, victims, SetOf(o.consume)), under, behind), refs,
                   windows, o.terms.amount,
                   policy, o.terms.headroom)
  }

  predicate MayDisplace(o: Order, policy: Policy, limits: Limits, now: int) {
    policy.allowPreemption && limits.preemption && !(o.terms.interval.start < now) && policy.maxVictims > 0
  }

  /** The window is the first that does not close with nobody displaced, and this is its verdict. */
  ghost predicate FailsAt(s: State, o: Order, refs: seq<ResourceRef>, windows: seq<Interval>, policy: Policy,
                          outcome: Outcome, i: nat, under: Ledgers, behind: set<Identity>)
  {
    var m := Indexed(HoldsReleased(s, SetOf(o.consume)), under, behind);
    && i < |windows| && outcome != Outcome.Committable
    && outcome == Verdict(s.ledger, s.overcommitted, m, refs, windows[i], o.terms.amount, policy, o.terms.headroom)
    && AllCommittable(s.ledger, s.overcommitted, m, refs, windows[..i], o.terms.amount, policy, o.terms.headroom)
  }

  // ---------------------------------------------------------------------------
  // How victims are looked for
  // ---------------------------------------------------------------------------

  function VictimKeys(es: seq<IndexEntry>): (keys: seq<Key>)
    ensures |keys| == |es|
  {
    seq(|es|, i requires 0 <= i < |es| => Key(es[i].id, es[i].generation))
  }

  /** No prefix of the victims of a length below `bound` lets the order close. */
  ghost predicate NoneCloses(s: State, o: Order, refs: seq<ResourceRef>, windows: seq<Interval>, policy: Policy,
                             victims: seq<Key>, bound: nat, under: Ledgers, behind: set<Identity>)
  {
    forall j :: 0 <= j < bound && j <= |victims| ==>
      Known(s, victims[..j]) && !Closes(s, o, refs, windows, policy, victims[..j], under, behind)
  }

  /** The victims of one resource: its first candidates, in order, with those in `before` set aside; or all of them. */
  ghost predicate Stretch(s: State, o: Order, policy: Policy, limits: Limits, window: Interval, resource: ResourceName,
                          before: seq<Key>, after: seq<Key>, whole: bool, under: Ledgers, behind: set<Identity>)
  {
    && Known(s, before)
    && exists cs ::
         && CandidateList(cs, Indexed(Cleared(s, before, SetOf(o.consume)), under, behind), resource, window,
                          o.terms.guarantee, policy, o.id, limits.scan)
         && Continues(before, after, VictimKeys(cs), whole)
  }

  ghost predicate Continues(before: seq<Key>, after: seq<Key>, more: seq<Key>, whole: bool) {
    && |before| <= |after| <= |before| + |more| && after == before + more[..|after| - |before|]
    && (whole ==> |after| == |before| + |more|)
  }

  /** Resource after resource, `cuts` telling where each begins; all but the last are used up, and it too if `whole`. */
  ghost predicate Stretches(s: State, o: Order, refs: seq<ResourceRef>, policy: Policy, limits: Limits,
                            window: Interval, victims: seq<Key>, cuts: seq<nat>, whole: bool, under: Ledgers,
                            behind: set<Identity>)
  {
    && 0 < |cuts| <= |refs| + 1 && cuts[0] == 0 && cuts[|cuts| - 1] == |victims|
    && forall i :: 0 <= i < |cuts| - 1 ==>
         StretchAt(s, o, refs, policy, limits, window, victims, cuts, i, whole, under, behind)
  }

  ghost predicate StretchAt(s: State, o: Order, refs: seq<ResourceRef>, policy: Policy, limits: Limits,
                            window: Interval, victims: seq<Key>, cuts: seq<nat>, i: nat, whole: bool, under: Ledgers,
                            behind: set<Identity>)
    requires i + 1 < |cuts| && i < |refs|
  {
    && cuts[i] <= cuts[i + 1] <= |victims|
    && Stretch(s, o, policy, limits, window, refs[i].resource, victims[..cuts[i]], victims[..cuts[i + 1]],
               i + 2 < |cuts| || whole, under, behind)
  }

  /**
   What a search came to: victims in the order of resources and candidates, none more than were needed. A search
   that fails has met the bound or used up the candidates of every resource.
   */
  ghost predicate Sought(s: State, o: Order, refs: seq<ResourceRef>, windows: seq<Interval>, policy: Policy,
                         limits: Limits, window: Interval, victims: seq<Key>, closed: bool, under: Ledgers,
                         behind: set<Identity>)
  {
    && |victims| <= policy.maxVictims && Known(s, victims)
    && NoneCloses(s, o, refs, windows, policy, victims, |victims|, under, behind)
    && (closed <==> Closes(s, o, refs, windows, policy, victims, under, behind))
    && exists cuts :: Searched(s, o, refs, policy, limits, window, victims, cuts, closed, under, behind)
  }

  ghost predicate Searched(s: State, o: Order, refs: seq<ResourceRef>, policy: Policy, limits: Limits,
                           window: Interval, victims: seq<Key>, cuts: seq<nat>, closed: bool, under: Ledgers,
                           behind: set<Identity>)
  {
    var whole := !closed && |victims| < policy.maxVictims;
    && Stretches(s, o, refs, policy, limits, window, victims, cuts, whole, under, behind)
    && (whole ==> |cuts| == |refs| + 1)
  }

  /**
   Victims are taken only where none are needed less: of lower class, because the order does not close without,
   and as the search finds them.
   */
  ghost predicate Entitled(s: State, o: Order, refs: seq<ResourceRef>, windows: seq<Interval>, policy: Policy,
                           limits: Limits, now: int, victims: seq<Key>, under: Ledgers, behind: set<Identity>)
  {
    && Victims(s, victims) && Known(s, victims) && Closes(s, o, refs, windows, policy, victims, under, behind)
    && (victims != [] ==>
          && MayDisplace(o, policy, limits, now)
          && exists i: nat, outcome ::
               && FailsAt(s, o, refs, windows, policy, outcome, i, under, behind)
               && Sought(s, o, refs, windows, policy, limits, windows[i], victims, true, under, behind))
    && forall i :: 0 <= i < |victims| ==> Outranked(s, victims[i], o.terms.guarantee, policy, o.id)
  }

  /** Some window does not close, and nobody may be displaced or displacing was tried and failed. */
  ghost predicate Fails(s: State, o: Order, refs: seq<ResourceRef>, windows: seq<Interval>, policy: Policy,
                        limits: Limits, now: int, outcome: Outcome, under: Ledgers, behind: set<Identity>)
  {
    exists i: nat ::
      && FailsAt(s, o, refs, windows, policy, outcome, i, under, behind)
      && (MayDisplace(o, policy, limits, now) ==>
            exists victims :: Sought(s, o, refs, windows, policy, limits, windows[i], victims, false, under, behind))
  }

  /** Every way an order can be answered, with the state it leaves. */
  ghost predicate CreatesAs(s: State, s': State, o: Order, policy: Policy, limits: Limits, now: int,
                            refs: seq<ResourceRef>, windows: seq<Interval>, answer: CreateAnswer, under: Ledgers,
                            behind: set<Identity>)
  {
    var objection := OrderObjection(s, o, policy, limits, now);
    if objection.Some? then answer == NotCreated(objection.value) && s' == s
    else if o.attempt in s.attempts then answer == Repeated(s.attempts[o.attempt]) && s' == s
    else
      && BoundTo(s.ledger, o.terms.resources, refs) && Expanded(o.terms.interval, o.terms.recurrence, windows)
      && |windows| == |o.Ids()|
      && match answer
         case NotCreated(_) => false
         case Repeated(_) => false
         case TurnedAway(outcome) =>
           && Fails(s, o, refs, windows, policy, limits, now, outcome, under, behind)
           && (if o.dryRun then s' == s
               else Enabled(s, Note(TurnDown(o, outcome))) && s' == Next(s, Note(TurnDown(o, outcome))))
         case Previewed(victims) => o.dryRun && s' == s
             && Entitled(s, o, refs, windows, policy, limits, now, victims, under, behind)
         case Created(members, victims) =>
           && !o.dryRun && Entitled(s, o, refs, windows, policy, limits, now, victims, under, behind)
           && members == MadeRecords(o.Ids(), o.terms, windows, refs, o.SeriesOf(), now) && members != []
           && var step := Admit(CommitRecord(o, members, victims), SetOf(o.consume), policy.Slack());
              Enabled(s, step) && s' == Next(s, step)
  }

  // ---------------------------------------------------------------------------
  // Lemmas
  // ---------------------------------------------------------------------------

  /** What closes is what an admission step demands. */
  lemma OrderAdmits(s: State, o: Order, refs: seq<ResourceRef>, windows: seq<Interval>, policy: Policy, limits: Limits,
                    now: int, members: seq<Record>, victims: seq<Key>, under: Ledgers, behind: set<Identity>)
    requires ValidTerms(o.terms) && o.Derived() && OrderObjection(s, o, policy, limits, now) == None
             && o.attempt !in s.attempts
    requires BoundTo(s.ledger, o.terms.resources, refs) && Expanded(o.terms.interval, o.terms.recurrence, windows)
    requires |windows| == |o.Ids()| && members == MadeRecords(o.Ids(), o.terms, windows, refs, o.SeriesOf(), now)
    requires Aligned(s.ledger, s.records, behind) && Sized(s)
    requires Victims(s, victims) && Known(s, victims) && Closes(s, o, refs, windows, policy, victims, under, behind)
    ensures members != [] && CanAdmit(s, CommitRecord(o, members, victims), SetOf(o.consume), policy.Slack())
    ensures Members(CommitRecord(o, members, victims)) == members
  {
    hide Verdict, Indexed, Expected, Aligned, Sized, Cleared, FitsIn, BoundTo, HoldsObjection, RevokedAll,
         MadeRecords, ValidTerms, Wellbound, Canonical, NameLess;
    TermsInterval(o.terms);
    ExpandedDisjoint(o.terms.interval, o.terms.recurrence, policy.maxSeriesMembers, windows);
    FreshIds(s, o, policy, limits, now);
    hide OrderObjection, Expanded, Disjoint;
    assert members[0] == MadeRecord(o.Ids()[0], o.terms, windows[0], refs, o.SeriesOf(), now);
    MadeFresh(s, o.Ids(), o.terms, windows, refs, o.SeriesOf(), now);
    assert [members[0]] + members[1..] == members;
    forall i | 0 <= i < |members|
      ensures FitsIn(s.ledger, Expected(Cleared(s, victims, SetOf(o.consume))), NamesOf(refs),
                     members[i].terms.interval,
                     o.terms.amount, policy.Slack())
    {
      assert members[i] == MadeRecord(o.Ids()[i], o.terms, windows[i], refs, o.SeriesOf(), now);
      CommittableFits(s.ledger, s.overcommitted, Indexed(Cleared(s, victims, SetOf(o.consume)), under, behind), refs,
                      windows[i],
                      o.terms.amount, policy, o.terms.headroom);
      FitsBesideIndex(s, victims, SetOf(o.consume), under, behind, NamesOf(refs), windows[i], o.terms.amount,
                      policy.Slack());
    }
  }

  lemma TermsInterval(t: Terms)
    requires ValidTerms(t)
    ensures ValidInterval(t.interval) && 0 <= t.headroom && Distinct(t.resources) && 0 < t.amount
  {
  }

  lemma FreshIds(s: State, o: Order, policy: Policy, limits: Limits, now: int)
    requires o.Derived() && OrderObjection(s, o, policy, limits, now) == None && o.attempt !in s.attempts
    ensures Distinct(o.Ids()) && forall i :: 0 <= i < |o.Ids()| ==> o.Ids()[i] !in s.current
    ensures Objection(o.terms.interval, o.terms.recurrence, policy.maxSeriesMembers) == None
    ensures AllLive(s.ledger, o.terms.resources) && HoldsObjection(s.holds, o.session, o.consume) == None
  {
    hide Objection, HoldsObjection, AllLive;
  }

  /** Binding less leaves at least as much room. */
  lemma RoomStays(s: State, s': State, names: seq<ResourceName>, names': seq<ResourceName>, total: int)
    requires Sized(s) && Sized(s') && RoomToBind(s, names, total)
    requires forall k, t :: StakeAt(s', k, t) <= StakeAt(s, k, t)
    requires forall i :: 0 <= i < |names'| ==> names'[i] in names
    ensures RoomToBind(s', names', total)
  {
    hide Sized, StakeAt, Demand, LoadOn;
    forall i, t | 0 <= i < |names'| && HORIZON.Contains(t)
      ensures LoadOn(Demand(s'), names'[i], Combined, t) + total <= SATURATION
    {
      var j :| 0 <= j < |names| && names[j] == names'[i];
      DemandFollows(s, s', names[j], t);
    }
  }

  /** The passing of time and a fresh claimant generation bind nothing more. */
  lemma SettlingBindsNoMore(s: State, claimant: Identity, generation: nat, s': State, now: int, k: EntryKey, t: int)
    requires Sized(s) && TimePassed(ClaimantEnsured(s, claimant, generation), s', now)
    ensures StakeAt(s', k, t) <= StakeAt(s, k, t)
  {
    var mid := ClaimantEnsured(s, claimant, generation);
    EnsuredKeeps(s, claimant, generation);
    PassedKeys(mid, s', now);
    PassedHolds(mid, s', now);
    forall key | key in s.records ensures Waned(s.records[key], s'.records[key]) {
      PassedWanes(mid, s', now, key);
    }
    hide TimePassed, ClaimantEnsured, Waned, StakeAt, Sized;
    WanedStake(s, s', k, t);
  }

  lemma EnsuredKeeps(s: State, claimant: Identity, generation: nat)
    ensures var mid := ClaimantEnsured(s, claimant, generation);
            && mid.records == s.records && mid.current == s.current && mid.holds.Keys == s.holds.Keys
            && forall h :: h in s.holds ==> mid.holds[h] == s.holds[h] || mid.holds[h] == s.holds[h].(released := true)
  {
    hide OlderHolds, HoldsReleased;
    var noted := s.(claimants := s.claimants[claimant := generation],
                    journal := s.journal + [ClaimantRegistration(claimant, generation)]);
    ReleasedShape(noted, OlderHolds(s, claimant, generation));
  }

  lemma PassedHolds(s: State, s': State, now: int)
    requires TimePassed(s, s', now)
    ensures s'.holds.Keys == s.holds.Keys
    ensures forall h :: h in s.holds ==> s'.holds[h] == s.holds[h] || s'.holds[h] == s.holds[h].(released := true)
  {
  }

  lemma PassedWanes(s: State, s': State, now: int, key: Key)
    requires TimePassed(s, s', now) && key in s.records
    ensures key in s'.records && Waned(s.records[key], s'.records[key])
  {
    hide Lapsed;
  }

  // ---------------------------------------------------------------------------
  // From what was computed to how it is answered
  // ---------------------------------------------------------------------------

  lemma FirstFailure(s: State, o: Order, refs: seq<ResourceRef>, windows: seq<Interval>, policy: Policy,
                     outcome: Outcome, i: nat, under: Ledgers, behind: set<Identity>)
    requires FailsAt(s, o, refs, windows, policy, outcome, i, under, behind)
    ensures NoneCloses(s, o, refs, windows, policy, [], 1, under, behind)
  {
    hide Verdict, Indexed, HoldsReleased, Cleared;
    NoVictims(s, SetOf(o.consume));
    var nobody: seq<Key> := [];
    assert Known(s, nobody) && nobody[..0] == nobody;
    assert !AllCommittable(s.ledger, s.overcommitted, Indexed(HoldsReleased(s, SetOf(o.consume)), under, behind), refs,
                           windows, o.terms.amount, policy, o.terms.headroom);
  }

  lemma FailureFails(s: State, o: Order, refs: seq<ResourceRef>, windows: seq<Interval>, policy: Policy,
                     limits: Limits, now: int, outcome: Outcome, i: nat, victims: seq<Key>, under: Ledgers,
                     behind: set<Identity>)
    requires FailsAt(s, o, refs, windows, policy, outcome, i, under, behind)
    requires MayDisplace(o, policy, limits, now) ==>
      Sought(s, o, refs, windows, policy, limits, windows[i], victims, false, under, behind)
    ensures Fails(s, o, refs, windows, policy, limits, now, outcome, under, behind)
  {
    hide FailsAt, Sought, MayDisplace;
    WindowFails(s, o, refs, windows, policy, outcome, i, under, behind);
  }

  lemma WindowFails(s: State, o: Order, refs: seq<ResourceRef>, windows: seq<Interval>, policy: Policy,
                    outcome: Outcome, i: nat, under: Ledgers, behind: set<Identity>)
    requires FailsAt(s, o, refs, windows, policy, outcome, i, under, behind)
    ensures i < |windows| && outcome != Outcome.Committable
  {
    hide Verdict, Indexed, HoldsReleased, AllCommittable;
  }

  lemma FailsThere(s: State, o: Order, refs: seq<ResourceRef>, windows: seq<Interval>, policy: Policy,
                   outcome: Outcome, i: nat, under: Ledgers, behind: set<Identity>)
    requires i < |windows| && outcome != Outcome.Committable
    requires var m := Indexed(HoldsReleased(s, SetOf(o.consume)), under, behind);
             && outcome == Verdict(s.ledger, s.overcommitted, m, refs, windows[i], o.terms.amount, policy,
                                   o.terms.headroom)
             && AllCommittable(s.ledger, s.overcommitted, m, refs, windows[..i], o.terms.amount, policy,
                               o.terms.headroom)
    ensures FailsAt(s, o, refs, windows, policy, outcome, i, under, behind)
  {
    hide Verdict, Indexed, HoldsReleased, AllCommittable;
  }

  lemma FailureIsOne(s: State, o: Order, refs: seq<ResourceRef>, windows: seq<Interval>, policy: Policy,
                     limits: Limits, now: int, outcome: Outcome, under: Ledgers, behind: set<Identity>)
    requires Fails(s, o, refs, windows, policy, limits, now, outcome, under, behind)
    ensures outcome != Outcome.Committable
  {
    hide Verdict, Indexed, HoldsReleased, AllCommittable, Sought, MayDisplace;
  }

  lemma ClosedBy(s: State, o: Order, refs: seq<ResourceRef>, windows: seq<Interval>, policy: Policy, limits: Limits,
                 now: int, victims: seq<Key>, under: Ledgers, behind: set<Identity>)
    requires Entitled(s, o, refs, windows, policy, limits, now, victims, under, behind)
    ensures Victims(s, victims) && Known(s, victims)
  {
    hide FailsAt, Sought, MayDisplace, Closes, Outranked, Victims, Known;
  }

  lemma DisplacingNeedsRoom(o: Order, policy: Policy, limits: Limits, now: int)
    requires MayDisplace(o, policy, limits, now)
    ensures 0 < policy.maxVictims
  {
  }

  lemma NobodyMore(sofar: seq<Key>, keys: seq<Key>)
    ensures sofar == sofar + keys[..0]
  {
  }

  /** The key of the candidate whose turn it is. */
  lemma NextKey(sofar: seq<Key>, candidates: seq<IndexEntry>, i: nat) returns (k: Key)
    requires i < |candidates|
    ensures k == Key(candidates[i].id, candidates[i].generation)
    ensures sofar + VictimKeys(candidates)[..i + 1] == sofar + VictimKeys(candidates)[..i] + [k]
    ensures |VictimKeys(candidates)| == |candidates|
  {
    k := VictimKeys(candidates)[i];
    assert VictimKeys(candidates)[..i + 1] == VictimKeys(candidates)[..i] + [k];
  }

  lemma NobodyYet(s: State, consumed: set<Identity>)
    ensures Victims(s, []) && Known(s, []) && Cleared(s, [], consumed) == HoldsReleased(s, consumed)
  {
    NoVictims(s, consumed);
  }

  /** One more victim that does not help leaves no prefix that closes. */
  lemma StillNoneCloses(s: State, o: Order, refs: seq<ResourceRef>, windows: seq<Interval>, policy: Policy,
                        victims: seq<Key>, k: Key, under: Ledgers, behind: set<Identity>)
    requires NoneCloses(s, o, refs, windows, policy, victims, |victims| + 1, under, behind)
    ensures NoneCloses(s, o, refs, windows, policy, victims + [k], |victims| + 1, under, behind)
    ensures Known(s, victims + [k]) && !Closes(s, o, refs, windows, policy, victims + [k], under, behind) ==>
      NoneCloses(s, o, refs, windows, policy, victims + [k], |victims| + 2, under, behind)
  {
    hide Closes, Known;
    var more := victims + [k];
    assert more[..|more|] == more;
    forall j | 0 <= j <= |victims| ensures more[..j] == victims[..j] {
    }
  }

  lemma NobodySought(s: State, o: Order, refs: seq<ResourceRef>, policy: Policy, limits: Limits, window: Interval,
                     under: Ledgers, behind: set<Identity>)
    ensures Stretches(s, o, refs, policy, limits, window, [], [0], true, under, behind)
  {
  }

  /** The victims of the next resource follow those of the ones before it, which are used up. */
  lemma StretchesMore(s: State, o: Order, refs: seq<ResourceRef>, policy: Policy, limits: Limits, window: Interval,
                      victims: seq<Key>, cuts: seq<nat>, after: seq<Key>, whole: bool, under: Ledgers,
                      behind: set<Identity>)
    requires Stretches(s, o, refs, policy, limits, window, victims, cuts, true, under, behind) && |cuts| <= |refs|
    requires Stretch(s, o, policy, limits, window, refs[|cuts| - 1].resource, victims, after, whole, under, behind)
    ensures Stretches(s, o, refs, policy, limits, window, after, cuts + [|after|], whole, under, behind)
  {
    StretchGrows(s, o, policy, limits, window, refs[|cuts| - 1].resource, victims, after, whole, under, behind);
    hide Stretch;
    var more := cuts + [|after|];
    assert after[..|victims|] == victims && after[..|after|] == after;
    forall i | 0 <= i < |more| - 1
      ensures StretchAt(s, o, refs, policy, limits, window, after, more, i, whole, under, behind)
    {
      if i + 1 < |cuts| {
        assert StretchAt(s, o, refs, policy, limits, window, victims, cuts, i, true, under, behind);
        assert after[..cuts[i]] == victims[..cuts[i]] && after[..cuts[i + 1]] == victims[..cuts[i + 1]];
      }
    }
  }

  lemma StretchGrows(s: State, o: Order, policy: Policy, limits: Limits, window: Interval, resource: ResourceName,
                     before: seq<Key>, after: seq<Key>, whole: bool, under: Ledgers, behind: set<Identity>)
    requires Stretch(s, o, policy, limits, window, resource, before, after, whole, under, behind)
    ensures before <= after
  {
    hide CandidateList, Known, Indexed, Cleared;
  }

  lemma StretchIs(s: State, o: Order, policy: Policy, limits: Limits, window: Interval, resource: ResourceName,
                  cs: seq<IndexEntry>, before: seq<Key>, n: nat, whole: bool, under: Ledgers, behind: set<Identity>)
    requires Known(s, before) && n <= |cs| && (whole ==> n == |cs|)
    requires CandidateList(cs, Indexed(Cleared(s, before, SetOf(o.consume)), under, behind), resource, window,
                           o.terms.guarantee, policy, o.id, limits.scan)
    ensures Stretch(s, o, policy, limits, window, resource, before, before + VictimKeys(cs)[..n], whole, under, behind)
  {
    hide CandidateList, Known, Indexed, Cleared;
    assert Continues(before, before + VictimKeys(cs)[..n], VictimKeys(cs), whole);
  }

  lemma SoughtSo(s: State, o: Order, refs: seq<ResourceRef>, windows: seq<Interval>, policy: Policy, limits: Limits,
                 window: Interval, victims: seq<Key>, closed: bool, cuts: seq<nat>, under: Ledgers,
                 behind: set<Identity>)
    requires |victims| <= policy.maxVictims && Known(s, victims)
    requires NoneCloses(s, o, refs, windows, policy, victims, |victims| + if closed then 0 else 1, under, behind)
    requires closed ==> Closes(s, o, refs, windows, policy, victims, under, behind)
    requires Stretches(s, o, refs, policy, limits, window, victims, cuts, !closed && |victims| < policy.maxVictims,
                       under, behind)
    requires !closed && |victims| < policy.maxVictims ==> |cuts| == |refs| + 1
    ensures Sought(s, o, refs, windows, policy, limits, window, victims, closed, under, behind)
  {
    hide Closes, Known, Stretches;
    assert victims[..|victims|] == victims;
    assert Searched(s, o, refs, policy, limits, window, victims, cuts, closed, under, behind);
  }

  lemma RefusalTame(s: State, s': State, policy: Policy)
    requires Reaches(s, s', true)
    ensures Reaches(s, s', policy.Slack() == 0)
  {
    hide Reaches;
    if policy.Slack() != 0 { ReachesLoosely(s, s'); }
  }

  /** The settled conditions under which an order is tried. */
  ghost predicate Tried(s: State, o: Order, policy: Policy, limits: Limits, now: int, refs: seq<ResourceRef>,
                        windows: seq<Interval>)
  {
    && OrderObjection(s, o, policy, limits, now) == None && o.attempt !in s.attempts
    && BoundTo(s.ledger, o.terms.resources, refs) && Expanded(o.terms.interval, o.terms.recurrence, windows)
    && |windows| == |o.Ids()|
  }

  lemma RejectedAs(s: State, s': State, o: Order, policy: Policy, limits: Limits, now: int, refs: seq<ResourceRef>,
                   windows: seq<Interval>, outcome: Outcome, under: Ledgers, behind: set<Identity>)
    requires Tried(s, o, policy, limits, now, refs, windows)
    requires Fails(s, o, refs, windows, policy, limits, now, outcome, under, behind)
    requires if o.dryRun then s' == s
             else Enabled(s, Note(TurnDown(o, outcome))) && s' == Next(s, Note(TurnDown(o, outcome)))
    ensures CreatesAs(s, s', o, policy, limits, now, refs, windows, TurnedAway(outcome), under, behind)
  {
    hide OrderObjection, BoundTo, Expanded, Fails, Enabled, Next;
  }

  lemma DirectlyEntitled(s: State, o: Order, refs: seq<ResourceRef>, windows: seq<Interval>, policy: Policy,
                         limits: Limits, now: int, under: Ledgers, behind: set<Identity>)
    requires AllCommittable(s.ledger, s.overcommitted, Indexed(HoldsReleased(s, SetOf(o.consume)), under, behind),
                            refs, windows, o.terms.amount,
                            policy, o.terms.headroom)
    ensures Entitled(s, o, refs, windows, policy, limits, now, [], under, behind)
  {
    hide AllCommittable, Indexed, HoldsReleased, Outranked;
    NoVictims(s, SetOf(o.consume));
  }

  lemma DisplacementEntitled(s: State, o: Order, refs: seq<ResourceRef>, windows: seq<Interval>, policy: Policy,
                             limits: Limits, now: int, victims: seq<Key>, outcome: Outcome, failing: nat,
                             under: Ledgers, behind: set<Identity>)
    requires Victims(s, victims) && MayDisplace(o, policy, limits, now)
    requires FailsAt(s, o, refs, windows, policy, outcome, failing, under, behind)
    requires failing < |windows|
    requires Sought(s, o, refs, windows, policy, limits, windows[failing], victims, true, under, behind)
    requires forall i :: 0 <= i < |victims| ==> Outranked(s, victims[i], o.terms.guarantee, policy, o.id)
    ensures Entitled(s, o, refs, windows, policy, limits, now, victims, under, behind)
  {
    hide FailsAt, Outranked, Searched, Closes, Victims, MayDisplace, NoneCloses, Known;
  }

  lemma TriedParts(s: State, o: Order, policy: Policy, limits: Limits, now: int, refs: seq<ResourceRef>,
                   windows: seq<Interval>)
    requires Tried(s, o, policy, limits, now, refs, windows)
    ensures o.attempt !in s.attempts && |windows| == |o.Ids()|
  {
    hide OrderObjection, BoundTo, Expanded;
  }

  /** Everything the commit demands, and what it will amount to. */
  lemma PlanCreated(s: State, o: Order, policy: Policy, limits: Limits, now: int, refs: seq<ResourceRef>,
                    windows: seq<Interval>, members: seq<Record>, victims: seq<Key>, under: Ledgers,
                    behind: set<Identity>)
    requires ValidTerms(o.terms) && o.Derived() && Tried(s, o, policy, limits, now, refs, windows) && !o.dryRun
    requires |windows| == |o.Ids()| && members == MadeRecords(o.Ids(), o.terms, windows, refs, o.SeriesOf(), now)
    requires Victims(s, victims) && Known(s, victims)
             && Entitled(s, o, refs, windows, policy, limits, now, victims, under, behind)
    requires RoomToBind(s, NamesOf(refs), |o.Ids()| * o.terms.amount) && Aligned(s.ledger, s.records, behind)
             && Sized(s)
    ensures members != []
    ensures var d := CommitRecord(o, members, victims);
            && d.ReservationMutation? && d.companions == victims
            && CanAdmit(s, d, SetOf(o.consume), policy.Slack())
            && RoomToBind(s, NamesOf(d.record.refs), |Members(d)| * d.record.terms.amount)
            && CreatesAs(s, Next(s, Admit(d, SetOf(o.consume), policy.Slack())), o, policy, limits, now, refs, windows,
                         Created(members, victims), under, behind)
            && Reaches(s, Next(s, Admit(d, SetOf(o.consume), policy.Slack())), policy.Slack() == 0)
  {
    assert Closes(s, o, refs, windows, policy, victims, under, behind);
    hide RoomToBind, Entitled, Closes, CanAdmit, Victims, Known, Reaches, Next, CreatesAs, OrderObjection, BoundTo,
         Expanded, MadeRecords;
    OrderAdmits(s, o, refs, windows, policy, limits, now, members, victims, under, behind);
    MembersBind(o, refs, windows, now, members);
    CreatedAs(s, o, policy, limits, now, refs, windows, members, victims, under, behind);
  }

  lemma PreviewedAs(s: State, o: Order, policy: Policy, limits: Limits, now: int, refs: seq<ResourceRef>,
                    windows: seq<Interval>, victims: seq<Key>, under: Ledgers, behind: set<Identity>)
    requires Tried(s, o, policy, limits, now, refs, windows) && o.dryRun
    requires Entitled(s, o, refs, windows, policy, limits, now, victims, under, behind)
    ensures CreatesAs(s, s, o, policy, limits, now, refs, windows, Previewed(victims), under, behind)
  {
    hide OrderObjection, BoundTo, Expanded, Entitled;
  }

  lemma CreatedAs(s: State, o: Order, policy: Policy, limits: Limits, now: int, refs: seq<ResourceRef>,
                  windows: seq<Interval>, members: seq<Record>, victims: seq<Key>, under: Ledgers,
                  behind: set<Identity>)
    requires Tried(s, o, policy, limits, now, refs, windows) && !o.dryRun && members != []
    requires Entitled(s, o, refs, windows, policy, limits, now, victims, under, behind)
    requires members == MadeRecords(o.Ids(), o.terms, windows, refs, o.SeriesOf(), now)
    requires CanAdmit(s, CommitRecord(o, members, victims), SetOf(o.consume), policy.Slack())
    ensures var step := Admit(CommitRecord(o, members, victims), SetOf(o.consume), policy.Slack());
            && Enabled(s, step)
            && CreatesAs(s, Next(s, step), o, policy, limits, now, refs, windows, Created(members, victims), under,
                         behind)
            && Reaches(s, Next(s, step), policy.Slack() == 0)
  {
    hide OrderObjection, BoundTo, Expanded, Entitled, CanAdmit, Next, Reaches, MadeRecords;
    ReachesByStep(s, Admit(CommitRecord(o, members, victims), SetOf(o.consume), policy.Slack()), policy.Slack() == 0);
  }

  lemma MembersBind(o: Order, refs: seq<ResourceRef>, windows: seq<Interval>, now: int, members: seq<Record>)
    requires |windows| == |o.Ids()| && members == MadeRecords(o.Ids(), o.terms, windows, refs, o.SeriesOf(), now)
             && members != []
    ensures members[0].refs == refs && members[0].terms.amount == o.terms.amount && |members| == |o.Ids()|
  {
    assert members[0] == MadeRecord(o.Ids()[0], o.terms, windows[0], refs, o.SeriesOf(), now);
  }

  /** Objections that need neither a binding nor an expansion; a repeated attempt raises none. */
  function EarlyReason(s: State, o: Order, policy: Policy, limits: Limits, now: int): Option<Failure> {
    if PolicyForbidsTerms(o.terms, policy, now) then Some(PolicyForbids)
    else if o.attempt in s.attempts then
      if s.attempts[o.attempt].fingerprint != o.Fingerprint() then Some(Contradiction) else None
    else if o.id in s.current then Some(Contradiction)
    else if o.terms.recurrence.enabled && AnyKnown(s.current, o.memberIds) then Some(Contradiction)
    else if !o.dryRun && |LiveKeys(s.records)| >= limits.maxLive then Some(Exhausted)
    else None
  }

  lemma EarlyDecides(s: State, o: Order, policy: Policy, limits: Limits, now: int)
    ensures EarlyReason(s, o, policy, limits, now).Some? ==>
      OrderObjection(s, o, policy, limits, now) == EarlyReason(s, o, policy, limits, now)
    ensures EarlyReason(s, o, policy, limits, now) == None && o.attempt in s.attempts ==>
      OrderObjection(s, o, policy, limits, now) == None
  {
    hide Objection, HoldsObjection, AllLive, PolicyForbidsTerms, AnyKnown, LiveKeys;
  }

  lemma LateDecides(s: State, o: Order, policy: Policy, limits: Limits, now: int, objection: Option<Failure>)
    requires EarlyReason(s, o, policy, limits, now) == None && o.attempt !in s.attempts
    requires objection ==
             if !AllLive(s.ledger, o.terms.resources) then Some(StaleBindings)
             else if Objection(o.terms.interval, o.terms.recurrence, policy.maxSeriesMembers).Some? then Some(BadWindow)
             else HoldsObjection(s.holds, o.session, o.consume)
    ensures OrderObjection(s, o, policy, limits, now) == objection
  {
    hide Objection, HoldsObjection, AllLive, PolicyForbidsTerms, AnyKnown, LiveKeys;
  }

  lemma NotCreatedAs(s: State, o: Order, policy: Policy, limits: Limits, now: int, refs: seq<ResourceRef>,
                     windows: seq<Interval>, failure: Failure, under: Ledgers, behind: set<Identity>)
    requires OrderObjection(s, o, policy, limits, now) == Some(failure)
    ensures CreatesAs(s, s, o, policy, limits, now, refs, windows, NotCreated(failure), under, behind)
  {
    hide OrderObjection;
  }

  lemma RepeatedAs(s: State, o: Order, policy: Policy, limits: Limits, now: int, refs: seq<ResourceRef>,
                   windows: seq<Interval>, under: Ledgers, behind: set<Identity>)
    requires OrderObjection(s, o, policy, limits, now) == None && o.attempt in s.attempts
    ensures CreatesAs(s, s, o, policy, limits, now, refs, windows, Repeated(s.attempts[o.attempt]), under, behind)
  {
    hide OrderObjection;
  }

  lemma IntervalInRange(i: Interval)
    requires ValidInterval(i)
    ensures InInt64(i.start) && InInt64(i.end)
  {
  }

  lemma ReadyToTry(s: State, o: Order, policy: Policy, limits: Limits, now: int, refs: seq<ResourceRef>,
                   windows: seq<Interval>)
    requires ValidTerms(o.terms) && o.Derived() && OrderObjection(s, o, policy, limits, now) == None
             && o.attempt !in s.attempts
    requires BoundTo(s.ledger, o.terms.resources, refs) && Expanded(o.terms.interval, o.terms.recurrence, windows)
    requires RoomToBind(s, o.terms.resources, o.Count() * o.terms.amount)
    ensures Tried(s, o, policy, limits, now, refs, windows) && Disjoint(windows)
    ensures RoomToBind(s, NamesOf(refs), |o.Ids()| * o.terms.amount)
  {
    hide OrderObjection, RoomToBind, BoundTo;
    TermsInterval(o.terms);
    FreshIds(s, o, policy, limits, now);
    hide ValidTerms, Objection;
    ExpandedDisjoint(o.terms.interval, o.terms.recurrence, policy.maxSeriesMembers, windows);
    hide Disjoint;
    RoomOnBinding(s, o.terms.resources, refs, |o.Ids()| * o.terms.amount);
  }

  lemma RoomOnBinding(s: State, names: seq<ResourceName>, refs: seq<ResourceRef>, total: int)
    requires RoomToBind(s, names, total) && BoundTo(s.ledger, names, refs)
    ensures RoomToBind(s, NamesOf(refs), total)
  {
    hide LoadOn, Demand, Canonical, AllCurrent;
    forall i, t | 0 <= i < |NamesOf(refs)| && HORIZON.Contains(t)
      ensures LoadOn(Demand(s), NamesOf(refs)[i], Combined, t) + total <= SATURATION
    {
      assert NamesOf(refs)[i] in NamesOf(refs);
      var j :| 0 <= j < |names| && names[j] == NamesOf(refs)[i];
    }
  }

  /** Why a request is turned away before time is reconciled. */
  function RequestObjection(s: State, o: Order): Option<Failure> {
    if !ValidTerms(o.terms) then Some(BadTerms)
    else if o.claimant != 0 && o.claimant != o.terms.claimant then Some(NotOwner)
    else if !ClaimantAccepted(s, o.terms.claimant, o.terms.claimantGeneration) then Some(FencedClaimant)
    else None
  }

  /** What is left to bind does not shrink while a claimant is registered and time passes. */
  lemma RoomStaysOpen(s: State, claimant: Identity, generation: nat, s': State, now: int, names: seq<ResourceName>,
                      total: int)
    requires Healthy(s) && Healthy(s') && TimePassed(ClaimantEnsured(s, claimant, generation), s', now)
             && RoomToBind(s, names, total)
    ensures RoomToBind(s', names, total)
  {
    InvSized(s);
    InvSized(s');
    hide Inv, Modest, RoomToBind, TimePassed, ClaimantEnsured, StakeAt, Sized;
    forall k, t ensures StakeAt(s', k, t) <= StakeAt(s, k, t) {
      SettlingBindsNoMore(s, claimant, generation, s', now, k, t);
    }
    RoomStays(s, s', names, names, total);
  }

  lemma DerivedRange(o: Order)
    requires o.Derived()
    ensures InInt64(o.terms.recurrence.period) && o.terms.recurrence.count < 0x1_0000_0000
  {
  }
}

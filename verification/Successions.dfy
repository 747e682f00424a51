/** Replacing a generation by its successor: amendment and revalidation. */
module Successions {
  import opened Timeline
  import opened Claims
  import opened SegmentTree
  import opened Entries
  import opened ResourceStates
  import opened CapacityIndexing
  import opened Suspending
  import opened Records
  import opened FabricState
  import opened Steps
  import opened Lineage
  import opened Closure
  import opened Runs
  import opened RecordIndexing
  import opened Bounds
  import opened Deadlines
  import opened Effects
  import opened Series
  import opened Admission
  import opened Commitments

  // ---------------------------------------------------------------------------
  // Setting the predecessor aside
  // ---------------------------------------------------------------------------

  /** Only the authoritative generation is indexed, so setting it aside clears the identity. */
  lemma PredecessorAside(m: Contents, s: State, before: Ledgers, pending: set<Identity>, key: Key)
    requires Healthy(s) && InMix(m, s, before, pending) && key in s.records && key.id in s.current
             && s.current[key.id] == key.generation
    ensures m - HeldKeys(m, Reservation, key.id, Some(key.generation)) == Without(m, Reservation, key.id)
  {
    hide Inv, Modest, Wanted;
    forall k | k in m && k.kind == Reservation && k.id == key.id ensures m[k].generation == key.generation {
      assert Answers(m, k, WantedIn(s, before, pending, k));
      WantedGeneration(s, before, pending, k);
    }
  }

  lemma WantedGeneration(s: State, before: Ledgers, pending: set<Identity>, k: EntryKey)
    requires Healthy(s) && k.kind == Reservation && WantedIn(s, before, pending, k).Some?
    ensures k.id in s.current && WantedIn(s, before, pending, k).value.generation == s.current[k.id]
  {
    hide Modest, Record.Window, AllCurrent;
    assert s.HasCurrent(k.id);
    FiledAt(s, Key(k.id, s.current[k.id]));
  }

  lemma WithoutMixed(m: Contents, s: State, before: Ledgers, pending: set<Identity>, id: Identity)
    requires InMix(m, s, before, pending)
    ensures MixedBut(Without(m, Reservation, id), s, before, pending, id)
    ensures Without(Without(m, Reservation, id), Reservation, id) == Without(m, Reservation, id)
  {
    forall k: EntryKey | !(k.kind == Reservation && k.id == id)
      ensures Answers(Without(m, Reservation, id), k, WantedIn(s, before, pending, k))
    {
      hide WantedIn;
      assert Answers(m, k, WantedIn(s, before, pending, k));
    }
  }

  // ---------------------------------------------------------------------------
  // The succession
  // ---------------------------------------------------------------------------

  /** The state once the successor is registered; its attempt, if any, comes later. */
  function Succeeded(s: State, d: DurableRecord): State
    requires d.ReservationMutation?
  {
    Registered(Predeceased(s, d), d.record).(journal := s.journal + [d])
  }

  lemma SucceededIsWritten(s: State, d: DurableRecord, measured: Contents, allowance: nat)
    requires CanSupersede(s, d, measured, allowance)
    ensures Applicable(s, d)
    ensures Written(s, d) == if d.attempt.Some? then Remembered(Succeeded(s, d), d.attempt.value) else Succeeded(s, d)
  {
    hide FitsIn, Remembered;
    var s1 := Registered(Predeceased(s, d), d.record);
    assert RegisteredAll(s1, []) == s1;
    if d.attempt.Some? { JournalIrrelevant(s1, d.attempt.value, s.journal + [d]); }
  }

  lemma SucceededShape(s: State, d: DurableRecord, measured: Contents, allowance: nat)
    requires CanSupersede(s, d, measured, allowance)
    ensures var s', p := Succeeded(s, d), d.record.predecessor.value;
            && s'.ledger == s.ledger && s'.holds == s.holds && s'.maxAttempts == s.maxAttempts
            && s'.attempts == s.attempts && s'.overcommitted == s.overcommitted
            && s'.current == s.current[d.record.id := d.record.generation]
            && s'.records == s.records[p := s.records[p].(state := Superseded)][d.record.KeyOf() := d.record]
  {
    hide FitsIn;
  }

  /** Outside the identity nothing is wanted differently. */
  lemma SucceededOthers(m: Contents, s: State, d: DurableRecord, measured: Contents, allowance: nat, before: Ledgers,
                        pending: set<Identity>)
    requires CanSupersede(s, d, measured, allowance) && MixedBut(m, s, before, pending, d.record.id)
    ensures MixedBut(m, Succeeded(s, d), before, pending, d.record.id)
  {
    hide Answers, WantedIn, FitsIn, MixedBut, Succeeded;
    var s' := Succeeded(s, d);
    forall k: EntryKey | !(k.kind == Reservation && k.id == d.record.id)
      ensures WantedIn(s', before, pending, k) == WantedIn(s, before, pending, k)
    {
      SucceededOther(s, d, measured, allowance, before, pending, k);
    }
    MixedTransfers(m, s, s', before, pending, d.record.id);
  }

  lemma SucceededOther(s: State, d: DurableRecord, measured: Contents, allowance: nat, before: Ledgers,
                       pending: set<Identity>, k: EntryKey)
    requires CanSupersede(s, d, measured, allowance) && !(k.kind == Reservation && k.id == d.record.id)
    ensures WantedIn(Succeeded(s, d), before, pending, k) == WantedIn(s, before, pending, k)
  {
    hide Wanted, FitsIn, Succeeded, Wellbound;
    SucceededShape(s, d, measured, allowance);
    var s' := Succeeded(s, d);
    SameWanted(s', s, k);
    SameWanted(s'.(ledger := before(k.id)), s.(ledger := before(k.id)), k);
  }

  /** The successor is the authority of its identity and indexable in its own right. */
  lemma SucceededRecord(s: State, d: DurableRecord, measured: Contents, allowance: nat)
    requires Healthy(s) && CanSupersede(s, d, measured, allowance)
    ensures var s' := Succeeded(s, d); s'.HasCurrent(d.record.id) && s'.CurrentRecord(d.record.id) == d.record
    ensures Distinct(NamesOf(d.record.refs)) && "" !in NamesOf(d.record.refs) && 0 < d.record.terms.amount
  {
    hide FitsIn, Inv, Modest;
    SucceededShape(s, d, measured, allowance);
  }

  /** An amendment binds at most the successor's amount on top of what was bound. */
  lemma AmendHealthy(s: State, d: DurableRecord, measured: Contents, allowance: nat)
    requires Healthy(s) && CanSupersede(s, d, measured, allowance)
    requires RoomToBind(s, NamesOf(d.record.refs), d.record.terms.amount)
    ensures Healthy(Succeeded(s, d))
  {
    hide Inv, Demand, LoadOn, Sized, FitsIn, StakeAt, NamesOf, CanSupersede, Succeeded, RoomToBind;
    SucceededInv(s, d, measured, allowance);
    var s' := Succeeded(s, d);
    InvSized(s);
    InvSized(s');
    forall r, t | HORIZON.Contains(t) ensures LoadOn(Demand(s'), r, Combined, t) <= SATURATION {
      AmendDemand(s, d, measured, allowance, r, t);
    }
  }

  lemma SucceededInv(s: State, d: DurableRecord, measured: Contents, allowance: nat)
    requires Inv(s) && CanSupersede(s, d, measured, allowance)
    ensures d.ReservationMutation? && Inv(Succeeded(s, d))
  {
    hide Inv, FitsIn, Succeeded;
    SupersedeKeepsInv(s, d, measured, allowance);
    SucceededIsWritten(s, d, measured, allowance);
    if d.attempt.Some? {
      RememberedKeeps(Succeeded(s, d), d.attempt.value);
      InvSame(Written(s, d), Succeeded(s, d));
    }
  }

  lemma InvSame(s: State, s': State)
    requires Inv(s) && s'.ledger == s.ledger && s'.records == s.records && s'.current == s.current
             && s'.holds == s.holds
    ensures Inv(s')
  {
  }

  lemma AmendDemand(s: State, d: DurableRecord, measured: Contents, allowance: nat, resource: ResourceName, t: int)
    requires Healthy(s) && CanSupersede(s, d, measured, allowance) && Sized(s) && d.ReservationMutation?
             && Sized(Succeeded(s, d))
    requires RoomToBind(s, NamesOf(d.record.refs), d.record.terms.amount) && HORIZON.Contains(t)
    ensures LoadOn(Demand(Succeeded(s, d)), resource, Combined, t) <= SATURATION
  {
    hide Inv, Demand, LoadOn, Sized, FitsIn, StakeAt, NamesOf, CanSupersede, Succeeded;
    var s', key := Succeeded(s, d), EntryKey(Reservation, d.record.id, resource);
    var own := if resource in NamesOf(d.record.refs) then d.record.terms.amount else 0;
    forall k: EntryKey | k.resource == resource && k != key ensures StakeAt(s', k, t) <= StakeAt(s, k, t) {
      SucceededStake(s, d, measured, allowance, k, t);
    }
    SucceededStake(s, d, measured, allowance, key, t);
    DemandFollowsButOne(s, s', key, own, t);
    ModestAt(s, resource, t);
  }

  lemma SucceededStake(s: State, d: DurableRecord, measured: Contents, allowance: nat, k: EntryKey, t: int)
    requires Healthy(s) && CanSupersede(s, d, measured, allowance) && d.ReservationMutation?
    ensures k != EntryKey(Reservation, d.record.id, k.resource) ==> StakeAt(Succeeded(s, d), k, t) == StakeAt(s, k, t)
    ensures k == EntryKey(Reservation, d.record.id, k.resource) ==>
      StakeAt(Succeeded(s, d), k, t) <= if k.resource in NamesOf(d.record.refs) then d.record.terms.amount else 0
    ensures 0 < d.record.terms.amount
  {
    hide FitsIn, Inv, Modest, Record.Binds, Record.Window, NamesOf, Succeeded, AllCurrent;
    SucceededShape(s, d, measured, allowance);
    if k.kind == Reservation && k.id == d.record.id && d.record.Binds(k.resource) { BoundName(d.record, k.resource); }
  }

  /** The successor asks for what a live predecessor already had. */
  lemma RevalidationHealthy(s: State, d: DurableRecord, measured: Contents, allowance: nat)
    requires Healthy(s) && CanSupersede(s, d, measured, allowance)
    requires d.record.terms == s.records[d.record.predecessor.value].terms
    requires !IsTerminal(s.records[d.record.predecessor.value].state)
    ensures Healthy(Succeeded(s, d))
  {
    hide Inv, Modest, FitsIn, StakeAt, CanSupersede, Succeeded;
    SucceededInv(s, d, measured, allowance);
    forall k, t ensures StakeAt(Succeeded(s, d), k, t) <= StakeAt(s, k, t) {
      RevalidationStake(s, d, measured, allowance, k, t);
    }
    ModestFollows(s, Succeeded(s, d));
  }

  lemma RevalidationStake(s: State, d: DurableRecord, measured: Contents, allowance: nat, k: EntryKey, t: int)
    requires Healthy(s) && CanSupersede(s, d, measured, allowance) && d.ReservationMutation?
    requires d.record.terms == s.records[d.record.predecessor.value].terms
    requires !IsTerminal(s.records[d.record.predecessor.value].state)
    ensures StakeAt(Succeeded(s, d), k, t) <= StakeAt(s, k, t)
  {
    hide FitsIn, Inv, Modest, Record.Binds, Record.Window, NamesOf, Succeeded, AllCurrent;
    SucceededShape(s, d, measured, allowance);
    var p := d.record.predecessor.value;
    HealthyRecord(s, p);
    RecordBound(s, p);
    if k.kind == Reservation && k.id == d.record.id {
      if d.record.Binds(k.resource) {
        BoundName(d.record, k.resource);
        NameBound(s.records[p], k.resource);
      }
    }
  }

  lemma RecordBound(s: State, p: Key)
    requires Healthy(s) && p in s.records
    ensures forall name :: name in s.records[p].terms.resources <==> name in NamesOf(s.records[p].refs)
  {
    hide Modest;
    assert SoundRecord(s.ledger, s.records[p]);
  }

  lemma NameBound(r: Record, resource: ResourceName)
    requires resource in NamesOf(r.refs)
    ensures r.Binds(resource)
  {
    var i :| 0 <= i < |r.refs| && NamesOf(r.refs)[i] == resource;
    assert r.refs[i].resource == resource;
  }

  // ---------------------------------------------------------------------------
  // Tameness
  // ---------------------------------------------------------------------------

  /** What the live index still holds outweighs what the records call for under the new ledger. */
  lemma MixOutweighs(m: Contents, s: State, fenced: set<Identity>, before: Ledgers, pending: set<Identity>, p: Key)
    requires Healthy(s) && InMix(m, s, before, pending)
    requires forall k :: k in s.records && k.id in pending ==>
      OnlyForward(before(k.id), s.ledger) && SoundRecord(before(k.id), s.records[k])
    requires p in s.records && p.id in s.current && s.current[p.id] == p.generation
    ensures Outweighs(Without(m, Reservation, p.id), Expected(WithState(HoldsReleased(s, fenced), p, Superseded)))
  {
    hide Modest, Inv, Expected, LoadOn, Without, HoldsReleased, OnlyForward, SoundRecord, WithState;
    ReleasedShape(s, fenced);
    var low, high := Expected(WithState(HoldsReleased(s, fenced), p, Superseded)), Without(m, Reservation, p.id);
    MixRepresentable(s, m, before, pending);
    forall k | k in low ensures k in high && high[k] == low[k] {
      MixCovers(m, s, fenced, before, pending, p, k);
    }
    KeyedWithout(m, p.id);
    forall resource, t ensures LoadOn(low, resource, Combined, t) <= LoadOn(high, resource, Combined, t) {
      OnKeyed(high, resource);
      PartWeighsLess(high, low, resource, t);
    }
  }

  lemma KeyedWithout(m: Contents, id: Identity)
    requires Keyed(m)
    ensures Keyed(Without(m, Reservation, id))
  {
  }

  lemma MixCovers(m: Contents, s: State, fenced: set<Identity>, before: Ledgers, pending: set<Identity>, p: Key,
                  k: EntryKey)
    requires Healthy(s) && InMix(m, s, before, pending)
    requires forall x :: x in s.records && x.id in pending ==>
      OnlyForward(before(x.id), s.ledger) && SoundRecord(before(x.id), s.records[x])
    requires p in s.records && p.id in s.current && s.current[p.id] == p.generation
    requires k in Expected(WithState(HoldsReleased(s, fenced), p, Superseded))
    ensures k in Without(m, Reservation, p.id)
    ensures Without(m, Reservation, p.id)[k] == Expected(WithState(HoldsReleased(s, fenced), p, Superseded))[k]
  {
    hide Modest, Inv, Expected, OnlyForward, Record.Window, SoundRecord;
    var after := WithState(HoldsReleased(s, fenced), p, Superseded);
    ExpectedIs(after, k);
    assert Answers(m, k, WantedIn(s, before, pending, k));
    if k.kind == Reservation {
      WantedHere(s, fenced, p, k);
      WantedCurrent(s, k);
      hide Wanted;
      if k.id in pending { WantedBefore(s, before(k.id), k); }
    }
  }

  lemma WantedHere(s: State, fenced: set<Identity>, p: Key, k: EntryKey)
    requires p in s.records && p.id in s.current && s.current[p.id] == p.generation && k.kind == Reservation
    requires Wanted(WithState(HoldsReleased(s, fenced), p, Superseded), k).Some?
    ensures k.id != p.id && Wanted(s, k) == Wanted(WithState(HoldsReleased(s, fenced), p, Superseded), k)
  {
    hide Record.Window, AllCurrent;
  }

  lemma WantedCurrent(s: State, k: EntryKey)
    requires k.kind == Reservation && Wanted(s, k).Some?
    ensures s.HasCurrent(k.id)
  {
  }

  lemma WantedBefore(s: State, before: Ledger, k: EntryKey)
    requires k.kind == Reservation && Wanted(s, k).Some? && OnlyForward(before, s.ledger)
    requires SoundRecord(before, s.CurrentRecord(k.id))
    ensures Wanted(s.(ledger := before), k) == Wanted(s, k)
  {
    hide OnlyForward, Record.Window;
    var r := s.CurrentRecord(k.id);
    CurrentBefore(before, s.ledger, r.refs);
  }

  // ---------------------------------------------------------------------------
  // The succession step by step
  // ---------------------------------------------------------------------------

  lemma SupersedeParts(s: State, d: DurableRecord, measured: Contents, allowance: nat)
    requires CanSupersede(s, d, measured, allowance)
    ensures d.ReservationMutation? && d.record.generation > 1 && d.supersedes
    ensures d.record.predecessor == Some(Key(d.record.id, d.record.generation - 1))
    ensures Key(d.record.id, d.record.generation - 1) in s.records && d.record.id in s.current
    ensures s.current[d.record.id] == d.record.generation - 1
  {
    hide FitsIn, Wellbound;
  }

  lemma PredecessorClean(s: State, d: DurableRecord, measured: Contents, allowance: nat, m: Contents, before: Ledgers,
                         pending: set<Identity>)
    requires Healthy(s) && CanSupersede(s, d, measured, allowance) && InMix(m, s, before, pending)
    ensures d.ReservationMutation?
    ensures var base := Without(m, Reservation, d.record.id);
            && Cleanly(s.records, Key(d.record.id, d.record.generation - 1), base)
            && MixedBut(base, Succeeded(s, d), before, pending, d.record.id)
            && Without(base, Reservation, d.record.id) == base
            && Arrives(Succeeded(s, d), d.record) && Succeeded(s, d).ledger == s.ledger
  {
    hide Healthy, Without, InMix, MixedBut, CanSupersede, Succeeded;
    SupersedeParts(s, d, measured, allowance);
    WithoutMixed(m, s, before, pending, d.record.id);
    SucceededOthers(Without(m, Reservation, d.record.id), s, d, measured, allowance, before, pending);
    SucceededRecord(s, d, measured, allowance);
    SucceededShape(s, d, measured, allowance);
    HealthyRecord(s, Key(d.record.id, d.record.generation - 1));
  }

  lemma SucceededSteps(s: State, d: DurableRecord, measured: Contents, allowance: nat)
    requires CanSupersede(s, d, measured, allowance)
    ensures d.ReservationMutation?
    ensures var p := Key(d.record.id, d.record.generation - 1);
            && p in s.records
            && Succeeded(s, d) == Registered(s.(records := s.records[p := s.records[p].(state := Superseded)],
                                                edges := s.edges + [(p, d.record.KeyOf())],
                                                    journal := s.journal + [d]), d.record)
  {
    hide FitsIn, Wellbound;
  }

  lemma NewcomerReady(m: Contents, ledger: Ledger, r: Record)
    requires Without(m, Reservation, r.id) == m
    ensures SyncReady(m, ledger, r)
  {
    WithoutTwice(m, r);
  }

  // ---------------------------------------------------------------------------
  // Records that no longer carry authority
  // ---------------------------------------------------------------------------

  /** Rewriting a superseded generation leaves the index and what is expected of it alone. */
  lemma RetiredSame(m: Contents, s: State, s': State, before: Ledgers, pending: set<Identity>, key: Key, r: Record)
    requires Healthy(s) && InMix(m, s, before, pending) && key in s.records
    requires key.id in s.current && key.generation < s.current[key.id]
    requires s'.records == s.records[key := r] && r.KeyOf() == key && IsTerminal(r.state)
    requires s'.ledger == s.ledger && s'.current == s.current && s'.holds == s.holds
    ensures InMix(m, s', before, pending) && Synced(m, s.ledger, r) == m
  {
    hide Healthy, Wanted, Indexable;
    forall k ensures Answers(m, k, WantedIn(s', before, pending, k)) {
      assert Answers(m, k, WantedIn(s, before, pending, k));
      RetiredWanted(s, s', key, r, k);
      RetiredWanted(s.(ledger := before(k.id)), s'.(ledger := before(k.id)), key, r, k);
    }
    forall k | k in m && k.kind == Reservation && k.id == key.id ensures m[k].generation != key.generation {
      assert Answers(m, k, WantedIn(s, before, pending, k));
      WantedGeneration(s, before, pending, k);
    }
    TerminalNotIndexable(s.ledger, r);
  }

  lemma TerminalNotIndexable(ledger: Ledger, r: Record)
    requires IsTerminal(r.state)
    ensures !Indexable(ledger, r)
  {
  }

  lemma RetiredWanted(s: State, s': State, key: Key, r: Record, k: EntryKey)
    requires key in s.records && key.id in s.current && key.generation < s.current[key.id]
    requires s'.records == s.records[key := r]
    requires s'.ledger == s.ledger && s'.current == s.current && s'.holds == s.holds
    ensures Wanted(s', k) == Wanted(s, k)
  {
    hide Wanted;
    SameWanted(s', s, k);
  }

  // ---------------------------------------------------------------------------
  // Revalidation
  // ---------------------------------------------------------------------------

  /** The next generation of a record, bound anew. */
  function Successor(r: Record, terms: Terms, refs: seq<ResourceRef>, recallAt: int, now: int): Record {
    r.(generation := r.generation + 1, terms := terms, refs := refs, state := InitialState(terms.interval, now),
       applicability := Current,
       reason := NoReason, recallAt := recallAt, predecessor := Some(r.KeyOf()))
  }

  /** The durable record of a succession. */
  function SuccessionRecord(r: Record, attempt: Option<Attempt>): DurableRecord {
    ReservationMutation(r, [], true, [], None, attempt)
  }

  lemma SuccessorWellbound(s: State, key: Key, terms: Terms, refs: seq<ResourceRef>, recallAt: int, now: int)
    requires key in s.records && 0 <= recallAt && BoundTo(s.ledger, terms.resources, refs)
    requires ValidInterval(terms.interval) && 0 < terms.amount <= MAX_BANDWIDTH_BPS && Distinct(terms.resources)
             && 0 <= terms.headroom
    requires "" !in terms.resources
    ensures Wellbound(s.ledger, Successor(s.records[key], terms, refs, recallAt, now))
  {
    CanonicalDistinct(refs);
    hide NameLess, Canonical;
  }

  /** A committable verdict without the predecessor is what a succession step demands. */
  lemma CanSucceed(s: State, key: Key, terms: Terms, refs: seq<ResourceRef>, recallAt: int, now: int,
                   attempt: Option<Attempt>, measured: Contents, policy: Policy)
    requires Healthy(s) && key in s.records && key.id in s.current && s.current[key.id] == key.generation
    requires attempt.Some? ==> attempt.value.id !in s.attempts
    requires 0 <= recallAt && BoundTo(s.ledger, terms.resources, refs)
    requires ValidInterval(terms.interval) && 0 < terms.amount <= MAX_BANDWIDTH_BPS && Distinct(terms.resources)
             && 0 <= terms.headroom
    requires "" !in terms.resources
    requires Verdict(s.ledger, s.overcommitted, measured, refs, terms.interval, terms.amount, policy, terms.headroom)
             == Outcome.Committable
    ensures CanSupersede(s, SuccessionRecord(Successor(s.records[key], terms, refs, recallAt, now), attempt),
                         measured, policy.Slack())
  {
    hide Healthy, FitsIn, Verdict, BoundTo, Wellbound, NameLess, Canonical;
    HealthyRecord(s, key);
    SuccessorWellbound(s, key, terms, refs, recallAt, now);
    CommittableFits(s.ledger, s.overcommitted, measured, refs, terms.interval, terms.amount, policy, terms.headroom);
  }

  lemma RecordTerms(s: State, key: Key)
    requires Healthy(s) && key in s.records
    ensures var t := s.records[key].terms;
            && ValidInterval(t.interval) && 0 < t.amount <= MAX_BANDWIDTH_BPS && Distinct(t.resources)
            && 0 <= t.headroom
            && "" !in t.resources && 0 <= s.records[key].recallAt
  {
    hide Modest;
    assert SoundRecord(s.ledger, s.records[key]);
    assert "" !in NamesOf(s.records[key].refs);
  }

  /** Steps on records commute with setting holds aside. */
  lemma ReleasedCommutes(s: State, s': State, fenced: set<Identity>)
    requires s'.holds == s.holds
    ensures HoldsReleased(s', fenced) == s'.(holds := HoldsReleased(s, fenced).holds)
  {
  }

  /** How a revalidation attempt ends: in a succession measured without the predecessor, or not at all. */
  ghost predicate Revalidates(s: State, s': State, key: Key, policy: Policy, now: int, measured: Contents,
                              refs: seq<ResourceRef>, done: bool)
  {
    && key in s.records
    && var r := s.records[key];
       var d := RevalidationRecord(r, refs, now);
       if done then
         && BoundTo(s.ledger, r.terms.resources, refs) && CanSupersede(s, d, measured, policy.Slack())
         && s' == Succeeded(s, d)
         && Verdict(s.ledger, s.overcommitted, measured, refs, r.terms.interval, r.terms.amount, policy,
                    r.terms.headroom) == Outcome.Committable
       else
         && s' == s
         && (AllLive(s.ledger, r.terms.resources) ==>
               BoundTo(s.ledger, r.terms.resources, refs)
               && Verdict(s.ledger, s.overcommitted, measured, refs, r.terms.interval, r.terms.amount, policy,
                          r.terms.headroom) != Outcome.Committable)
  }

  function RevalidationRecord(r: Record, refs: seq<ResourceRef>, now: int): DurableRecord {
    SuccessionRecord(Successor(r, r.terms, refs, r.recallAt, now), None)
  }

  lemma PlanRevalidation(s: State, key: Key, refs: seq<ResourceRef>, now: int, measured: Contents, policy: Policy)
    requires Healthy(s) && key in s.records && key.id in s.current && s.current[key.id] == key.generation
    requires !IsTerminal(s.records[key].state)
    requires var r := s.records[key];
             && BoundTo(s.ledger, r.terms.resources, refs)
             && Verdict(s.ledger, s.overcommitted, measured, refs, r.terms.interval, r.terms.amount, policy,
                        r.terms.headroom) == Outcome.Committable
    ensures var d := RevalidationRecord(s.records[key], refs, now);
            && d.ReservationMutation? && d.record.id == key.id && CanSupersede(s, d, measured, policy.Slack())
            && Healthy(Succeeded(s, d)) && Revalidates(s, Succeeded(s, d), key, policy, now, measured, refs, true)
  {
    hide Healthy, Verdict, BoundTo, CanSupersede, Succeeded;
    HealthyRecord(s, key);
    RecordTerms(s, key);
    CanSucceed(s, key, s.records[key].terms, refs, s.records[key].recallAt, now, None, measured, policy);
    RevalidationHealthy(s, RevalidationRecord(s.records[key], refs, now), measured, policy.Slack());
  }

  lemma NotBound(s: State, key: Key, policy: Policy, now: int, measured: Contents, refs: seq<ResourceRef>)
    requires key in s.records && !AllLive(s.ledger, s.records[key].terms.resources)
    ensures Revalidates(s, s, key, policy, now, measured, refs, false)
  {
    hide AllLive;
  }

  lemma NotClosed(s: State, key: Key, policy: Policy, now: int, measured: Contents, refs: seq<ResourceRef>)
    requires key in s.records && BoundTo(s.ledger, s.records[key].terms.resources, refs)
    requires var t := s.records[key].terms;
             Verdict(s.ledger, s.overcommitted, measured, refs, t.interval, t.amount, policy,
                     t.headroom) != Outcome.Committable
    ensures Revalidates(s, s, key, policy, now, measured, refs, false)
  {
    hide Verdict, BoundTo;
  }
}

/** Provisional holds: what a session may set aside, and for how long. */
module Holding {
  import opened Timeline
  import opened Claims
  import opened SegmentTree
  import opened Entries
  import opened ResourceStates
  import opened CapacityIndexing
  import opened Suspending
  import opened Records
  import opened FabricState
  import opened Steps
  import opened Lineage
  import opened Closure
  import opened Runs
  import opened RecordIndexing
  import opened Bounds
  import opened Effects
  import opened Admission
  import opened Commitments
  import opened Orders

  /** A request for a hold; each attempt has a hold identity of its own. */
  datatype HoldRequest = HoldRequest(id: Identity, session: Identity, terms: Terms, expiresAt: int)

  datatype HoldAnswer = Held(hold: Hold) | HoldDeclined(outcome: Outcome) | NotHeld(failure: Failure)

  function HoldOf(o: HoldRequest, refs: seq<ResourceRef>): Hold {
    Hold.Hold(o.id, o.terms.claimant, o.terms.claimantGeneration, o.session, NamesOf(refs), o.terms.interval,
              o.terms.amount,
         o.terms.guarantee, o.expiresAt, false)
  }

  /** One entry per resource. */
  function HoldSeq(h: Hold): (es: seq<IndexEntry>)
    ensures |es| == |h.resources| && forall i :: 0 <= i < |es| ==> es[i] == h.Entry(h.resources[i])
  {
    seq(|h.resources|, i requires 0 <= i < |h.resources| => h.Entry(h.resources[i]))
  }

  // ---------------------------------------------------------------------------
  // Limits of a session
  // ---------------------------------------------------------------------------

  /** The session's open holds. */
  function SessionHolds(holds: map<Identity, Hold>, session: Identity): set<Identity> {
    set h | h in holds && !holds[h].released && holds[h].session == session
  }

  ghost function Bandwidth(holds: map<Identity, Hold>, ids: set<Identity>): int {
    if ids == {} then 0
    else
      var id :| id in ids;
      (if id in holds then holds[id].amount else 0) + Bandwidth(holds, ids - {id})
  }

  /** The order of summation does not matter. */
  lemma {:induction false} BandwidthWithout(holds: map<Identity, Hold>, ids: set<Identity>, id: Identity)
    requires id in ids && id in holds
    ensures Bandwidth(holds, ids) == holds[id].amount + Bandwidth(holds, ids - {id})
    decreases |ids|
  {
    var x :| x in ids && Bandwidth(holds, ids) == (if x in holds then holds[x].amount else 0)
        + Bandwidth(holds, ids - {x});
    if x != id {
      BandwidthWithout(holds, ids - {x}, id);
      BandwidthPick(holds, ids - {id}, x);
      assert ids - {x} - {id} == ids - {id} - {x};
    }
  }

  lemma {:induction false} BandwidthPick(holds: map<Identity, Hold>, ids: set<Identity>, x: Identity)
    requires x in ids
    ensures Bandwidth(holds, ids) == (if x in holds then holds[x].amount else 0) + Bandwidth(holds, ids - {x})
    decreases |ids|
  {
    var y :| y in ids && Bandwidth(holds, ids) == (if y in holds then holds[y].amount else 0)
        + Bandwidth(holds, ids - {y});
    if y != x {
      BandwidthPick(holds, ids - {y}, x);
      BandwidthPick(holds, ids - {x}, y);
      assert ids - {x} - {y} == ids - {y} - {x};
    }
  }

  lemma NoBandwidth(holds: map<Identity, Hold>)
    ensures Bandwidth(holds, {}) == 0
  {
  }

  /** Counts the session's open holds and what they keep aside. */
  method MeasureSession(holds: map<Identity, Hold>, session: Identity) returns (count: nat, bandwidth: int)
    ensures count == |SessionHolds(holds, session)| && bandwidth == Bandwidth(holds, SessionHolds(holds, session))
  {
    hide SessionHolds, Bandwidth;
    count, bandwidth := 0, 0;
    NoBandwidth(holds);
    var todo := holds.Keys;
    ghost var seen: set<Identity> := {};
    SeenAll(holds, session, todo);
    while todo != {}
      invariant todo <= holds.Keys && seen == SessionHolds(holds, session) - todo
      invariant count == |seen| && bandwidth == Bandwidth(holds, seen)
      decreases todo
    {
      var id :| id in todo;
      SeenNext(holds, session, todo, id, seen);
      if !holds[id].released && holds[id].session == session {
        BandwidthWithout(holds, seen + {id}, id);
        count, bandwidth := count + 1, bandwidth + holds[id].amount;
        seen := seen + {id};
      }
      todo := todo - {id};
    }
  }

  lemma SeenAll(holds: map<Identity, Hold>, session: Identity, todo: set<Identity>)
    requires todo == holds.Keys
    ensures SessionHolds(holds, session) - todo == {}
            && SessionHolds(holds, session) - {} == SessionHolds(holds, session)
  {
  }

  lemma SeenNext(holds: map<Identity, Hold>, session: Identity, todo: set<Identity>, id: Identity, seen: set<Identity>)
    requires id in todo && todo <= holds.Keys && seen == SessionHolds(holds, session) - todo
    ensures SessionHolds(holds, session) - (todo - {id})
            == if !holds[id].released && holds[id].session == session then seen + {id} else seen
    ensures seen + {id} - {id} == seen && |seen + {id}| == |seen| + 1
  {
  }

  /** What the policy has against it: how long it would last, and what the session already keeps aside. */
  ghost function SessionLimit(holds: map<Identity, Hold>, o: HoldRequest, policy: Policy, now: int): Option<Failure> {
    var mine := SessionHolds(holds, o.session);
    if policy.maxHoldTtl > 0 && o.expiresAt - now > policy.maxHoldTtl then Some(PolicyForbids)
    else if !(now < o.expiresAt) then Some(BadWindow)
    else if policy.maxHolds != 0 && |mine| >= policy.maxHolds then Some(Exhausted)
    else if policy.maxHoldBandwidth > 0 && Bandwidth(holds, mine) + o.terms.amount > policy.maxHoldBandwidth
        then Some(Exhausted)
    else None
  }

  /** Why a settled request is turned away, in the order the reasons are looked for. */
  ghost function HoldLimit(s: State, o: HoldRequest, policy: Policy, now: int): Option<Failure> {
    if SessionLimit(s.holds, o, policy, now).Some? then SessionLimit(s.holds, o, policy, now)
    else if !AllLive(s.ledger, o.terms.resources) then Some(StaleBindings)
    else None
  }

  lemma LimitDecides(s: State, m: Contents, o: HoldRequest, policy: Policy, now: int, refs: seq<ResourceRef>,
                     failure: Option<Failure>)
    requires failure == if SessionLimit(s.holds, o, policy, now).Some? then SessionLimit(s.holds, o, policy, now)
                        else if !AllLive(s.ledger, o.terms.resources) then Some(StaleBindings) else None
    ensures HoldLimit(s, o, policy, now) == failure
    ensures failure.Some? ==> HoldsAs(s, s, m, o, policy, now, refs, NotHeld(failure.value))
  {
    hide SessionLimit, AllLive;
  }

  /** Every way a settled request can be answered, with the state it leaves; `m` is the index before it. */
  ghost predicate HoldsAs(s: State, s': State, m: Contents, o: HoldRequest, policy: Policy, now: int,
                          refs: seq<ResourceRef>, answer: HoldAnswer)
  {
    var objection := HoldLimit(s, o, policy, now);
    if objection.Some? then answer == NotHeld(objection.value) && s' == s
    else
      && BoundTo(s.ledger, o.terms.resources, refs)
      && var outcome := Verdict(s.ledger, s.overcommitted, m, refs, o.terms.interval, o.terms.amount, policy,
                                o.terms.headroom);
         match answer
         case NotHeld(_) => false
         case HoldDeclined(verdict) => verdict == outcome && outcome != Outcome.Committable && s' == s
         case Held(h) =>
           && outcome == Outcome.Committable && h == HoldOf(o, refs)
           && Enabled(s, TakeHold(h, policy.Slack())) && s' == Next(s, TakeHold(h, policy.Slack()))
  }

  lemma HoldDecides(s: State, s': State, m: Contents, o: HoldRequest, policy: Policy, now: int, refs: seq<ResourceRef>,
                    answer: HoldAnswer)
    requires HoldLimit(s, o, policy, now) == None && BoundTo(s.ledger, o.terms.resources, refs)
    requires var outcome := Verdict(s.ledger, s.overcommitted, m, refs, o.terms.interval, o.terms.amount, policy,
                                    o.terms.headroom);
             || (answer == HoldDeclined(outcome) && outcome != Outcome.Committable && s' == s)
             || (answer == Held(HoldOf(o, refs)) && outcome == Outcome.Committable
                 && Enabled(s, TakeHold(HoldOf(o, refs), policy.Slack()))
                 && s' == Next(s, TakeHold(HoldOf(o, refs), policy.Slack())))
    ensures HoldsAs(s, s', m, o, policy, now, refs, answer)
  {
    hide HoldLimit, BoundTo, Verdict, Enabled, Next;
  }

  // ---------------------------------------------------------------------------
  // Taking a hold
  // ---------------------------------------------------------------------------

  function WithHold(s: State, h: Hold): State { s.(holds := s.holds[h.id := h]) }

  /** A committable verdict on valid terms is what the step demands. */
  lemma PlanHold(s: State, o: HoldRequest, policy: Policy, refs: seq<ResourceRef>, under: Ledgers,
                 behind: set<Identity>)
    requires Healthy(s) && Aligned(s.ledger, s.records, behind) && ValidTerms(o.terms) && o.id !in s.holds
    requires BoundTo(s.ledger, o.terms.resources, refs)
    requires Verdict(s.ledger, s.overcommitted, Indexed(s, under, behind), refs, o.terms.interval, o.terms.amount,
                     policy, o.terms.headroom)
             == Outcome.Committable
    ensures CanTakeHold(s, HoldOf(o, refs), policy.Slack())
    ensures Next(s, TakeHold(HoldOf(o, refs), policy.Slack())) == WithHold(s, HoldOf(o, refs))
  {
    hide Verdict, Indexed, Expected, FitsIn, Inv, Modest, Canonical, Aligned;
    InvSized(s);
    hide Sized;
    CommittableFits(s.ledger, s.overcommitted, Indexed(s, under, behind), refs, o.terms.interval, o.terms.amount,
                    policy, o.terms.headroom);
    NoVictims(s, {});
    ReleasedNone(s);
    FitsBesideIndex(s, [], {}, under, behind, NamesOf(refs), o.terms.interval, o.terms.amount, policy.Slack());
    CanonicalDistinct(refs);
    BoundNames(s.ledger, o.terms.resources, refs);
  }

  lemma BoundNames(ledger: Ledger, names: seq<ResourceName>, refs: seq<ResourceRef>)
    requires BoundTo(ledger, names, refs)
    ensures forall i :: 0 <= i < |NamesOf(refs)| ==> Live(ledger, NamesOf(refs)[i])
    ensures "" !in names ==> "" !in NamesOf(refs)
  {
    hide Canonical;
    forall i | 0 <= i < |NamesOf(refs)| ensures Live(ledger, NamesOf(refs)[i]) {
      assert IsCurrent(ledger, refs[i]);
    }
  }

  /** The hold's entries are all that is missing from the index it leads to. */
  lemma HoldCompletes(m: Contents, s: State, h: Hold, under: Ledgers, behind: set<Identity>)
    requires InMix(m, s, under, behind) && h.id !in s.holds && !h.released && Distinct(h.resources)
    ensures Completes(m, HoldSeq(h), Indexed(WithHold(s, h), under, behind))
  {
    hide InMix, Indexed;
    var s', whole := WithHold(s, h), Indexed(WithHold(s, h), under, behind);
    IndexedUnique(m, s, under, behind);
    forall k ensures k in m ==> k in whole && whole[k] == m[k]
             ensures k in whole ==> k in m || k in KeysOf(HoldSeq(h)) {
      IndexedIs(s, under, behind, k);
      IndexedIs(s', under, behind, k);
      HoldWanted(s, h, under, behind, k);
    }
    forall i | 0 <= i < |HoldSeq(h)|
      ensures HoldSeq(h)[i].Key() !in m && HoldSeq(h)[i].Key() in whole && whole[HoldSeq(h)[i].Key()] == HoldSeq(h)[i]
    {
      var k := HoldSeq(h)[i].Key();
      IndexedIs(s, under, behind, k);
      IndexedIs(s', under, behind, k);
      HoldWanted(s, h, under, behind, k);
    }
  }

  lemma HoldWanted(s: State, h: Hold, under: Ledgers, behind: set<Identity>, k: EntryKey)
    requires h.id !in s.holds && !h.released
    ensures WantedIn(WithHold(s, h), under, behind, k) ==
            if k.kind == HolderKind.Hold && k.id == h.id
               then (if k.resource in h.resources then Some(h.Entry(k.resource)) else None)
            else WantedIn(s, under, behind, k)
    ensures k.kind == HolderKind.Hold && k.id == h.id ==> WantedIn(s, under, behind, k) == None
    ensures k.kind == HolderKind.Hold && k.id == h.id && k.resource in h.resources ==> k in KeysOf(HoldSeq(h))
  {
    hide Wanted;
    var ledger := if k.kind == Reservation && k.id in behind then under(k.id) else s.ledger;
    assert WithHold(s, h).(ledger := ledger) == WithHold(s.(ledger := ledger), h);
    assert s.(ledger := s.ledger) == s && WithHold(s, h).(ledger := s.ledger) == WithHold(s, h);
    HoldWantedAt(s.(ledger := ledger), h, k);
    if k.kind == HolderKind.Hold && k.id == h.id && k.resource in h.resources {
      var i :| 0 <= i < |h.resources| && h.resources[i] == k.resource;
      assert HoldSeq(h)[i].Key() == k;
    }
  }

  lemma HoldWantedAt(s: State, h: Hold, k: EntryKey)
    requires h.id !in s.holds && !h.released
    ensures Wanted(WithHold(s, h), k) ==
            if k.kind == HolderKind.Hold && k.id == h.id
               then (if k.resource in h.resources then Some(h.Entry(k.resource)) else None)
            else Wanted(s, k)
    ensures k.kind == HolderKind.Hold && k.id == h.id ==> Wanted(s, k) == None
  {
    hide Indexable, Record.Entry, Record.Binds;
  }

  lemma HoldDistinct(h: Hold)
    requires Distinct(h.resources) && "" !in h.resources && 0 < h.amount && ValidInterval(h.interval)
    ensures Distinctly(HoldSeq(h))
  {
    forall i | 0 <= i < |h.resources| ensures h.resources[i] != "" {
    }
  }

  lemma HoldHealthy(s: State, h: Hold, allowance: nat)
    requires Healthy(s) && CanTakeHold(s, h, allowance) && RoomToBind(s, h.resources, h.amount)
    ensures Healthy(WithHold(s, h))
  {
    hide Inv, Demand, LoadOn, Sized, StakeAt, RoomToBind, FitsIn;
    TakeHoldKeepsInv(s, h, allowance);
    var s' := WithHold(s, h);
    InvSized(s);
    InvSized(s');
    forall r, t | HORIZON.Contains(t) ensures LoadOn(Demand(s'), r, Combined, t) <= SATURATION {
      HoldDemand(s, h, r, t);
    }
  }

  lemma HoldDemand(s: State, h: Hold, resource: ResourceName, t: int)
    requires Modest(s) && Sized(s) && Sized(WithHold(s, h)) && h.id !in s.holds && 0 < h.amount && HORIZON.Contains(t)
    requires RoomToBind(s, h.resources, h.amount)
    ensures LoadOn(Demand(WithHold(s, h)), resource, Combined, t) <= SATURATION
  {
    hide Demand, LoadOn, Sized, StakeAt;
    var s', key := WithHold(s, h), EntryKey(HolderKind.Hold, h.id, resource);
    var own := if resource in h.resources then h.amount else 0;
    forall k: EntryKey | k.resource == resource && k != key ensures StakeAt(s', k, t) <= StakeAt(s, k, t) {
      HoldStake(s, h, k, t);
    }
    HoldStake(s, h, key, t);
    DemandFollowsButOne(s, s', key, own, t);
    ModestAt(s, resource, t);
  }

  lemma HoldStake(s: State, h: Hold, k: EntryKey, t: int)
    requires h.id !in s.holds && 0 < h.amount
    ensures !(k.kind == HolderKind.Hold && k.id == h.id) ==> StakeAt(WithHold(s, h), k, t) == StakeAt(s, k, t)
    ensures k.kind == HolderKind.Hold && k.id == h.id ==>
      StakeAt(WithHold(s, h), k, t) <= if k.resource in h.resources then h.amount else 0
  {
    hide Record.Binds, Record.Window;
  }

  lemma HoldReaches(s: State, h: Hold, policy: Policy)
    requires CanTakeHold(s, h, policy.Slack())
    ensures Reaches(s, WithHold(s, h), policy.Slack() == 0)
  {
    hide CanTakeHold, Reaches;
    ReachesByStep(s, TakeHold(h, policy.Slack()), policy.Slack() == 0);
  }

  lemma TakenParts(s: State, h: Hold, allowance: nat)
    requires CanTakeHold(s, h, allowance)
    ensures h.id !in s.holds && !h.released && Distinct(h.resources) && "" !in h.resources && 0 < h.amount
            && ValidInterval(h.interval)
  {
    hide FitsIn;
  }

  lemma EntryRoom(m: Contents, es: seq<IndexEntry>, whole: Contents)
    requires Completes(m, es, whole) && Distinctly(es) && es != [] && Keyed(whole) && Representable(whole)
    ensures Room(On(m, es[0].resource), es[0].interval, es[0].amount)
  {
    hide Room, Representable, Keyed;
    RoomWithin(whole, m, es[0]);
  }

  lemma CompletesEnds(m: Contents, whole: Contents)
    requires Completes(m, [], whole)
    ensures m == whole
  {
    assert KeysOf([]) == {};
  }

  /** Passing time releases holds but files no new ones. */
  lemma HoldsStay(s: State, claimant: Identity, generation: nat, s': State, now: int)
    requires TimePassed(ClaimantEnsured(s, claimant, generation), s', now)
    ensures s'.holds.Keys == s.holds.Keys
  {
    EnsuredKeeps(s, claimant, generation);
    PassedHolds(ClaimantEnsured(s, claimant, generation), s', now);
  }
}

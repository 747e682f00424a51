/** Working a ledger change through the records: who is still current, who is re-derived, who is left behind. */
module Refreshing {
  import opened Timeline
  import opened Claims
  import opened Entries
  import opened CapacityIndexing
  import opened Records
  import opened FabricState
  import opened Steps
  import opened Lineage
  import opened Closure
  import opened Runs
  import opened RecordIndexing
  import opened Bounds
  import opened Deadlines
  import opened Effects
  import opened Admission
  import opened Commitments
  import opened Orders
  import opened Successions

  /** Why a binding no longer holds: the first reference the ledger does not bear out decides. */
  function Staleness(ledger: Ledger, refs: seq<ResourceRef>): Option<Reason>
    decreases |refs|
  {
    if refs == [] then None
    else if !Live(ledger, refs[0].resource) then Some(ResourceWithdrawn)
    else if ledger[refs[0].resource].capacity.generation != refs[0].generation then Some(ResourceGenerationChanged)
    else Staleness(ledger, refs[1..])
  }

  lemma {:induction false} StalenessDecides(ledger: Ledger, refs: seq<ResourceRef>)
    ensures Staleness(ledger, refs) == None <==> AllCurrent(ledger, refs)
    decreases |refs|
  {
    if refs != [] {
      StalenessDecides(ledger, refs[1..]);
      assert AllCurrent(ledger, refs) <==> IsCurrent(ledger, refs[0]) && AllCurrent(ledger, refs[1..]) by {
        if IsCurrent(ledger, refs[0]) && AllCurrent(ledger, refs[1..]) {
          forall i | 0 <= i < |refs| ensures IsCurrent(ledger, refs[i]) {
            if i > 0 { assert refs[i] == refs[1..][i - 1]; }
          }
        }
        if AllCurrent(ledger, refs) {
          forall i | 0 <= i < |refs[1..]| ensures IsCurrent(ledger, refs[1..][i]) {
            assert refs[1..][i] == refs[i + 1];
          }
        }
      }
    }
  }

  /** An identity whose bindings stand the same under both ledgers is no longer pending. */
  lemma DropPending(m: Contents, s: State, before: Ledgers, pending: set<Identity>, id: Identity)
    requires InMix(m, s, before, pending)
    requires s.HasCurrent(id) && s.CurrentRecord(id).Consumes() && !s.CurrentRecord(id).Window().Empty() ==>
      (AllCurrent(before(id), s.CurrentRecord(id).refs) <==> AllCurrent(s.ledger, s.CurrentRecord(id).refs))
    ensures InMix(m, s, before, pending - {id})
  {
    hide Answers;
    forall k ensures WantedIn(s, before, pending - {id}, k) == WantedIn(s, before, pending, k) {
      hide AllCurrent, Record.Window;
    }
  }

  /** The identities of a set of keys. */
  function IdSet(keys: set<Key>): set<Identity> { set k | k in keys :: k.id }

  /** The ledger each identity was last brought in step with. */
  function Merged(under: Ledgers, behind: set<Identity>, ledger: Ledger): Ledgers {
    id => if id in behind then under(id) else ledger
  }

  /** At the start of a ledger change every live record is pending, as it was indexed until then. */
  lemma AllPending(m: Contents, s: State, s': State, under: Ledgers, behind: set<Identity>)
    requires Healthy(s') && InMix(m, s, under, behind)
    requires s'.records == s.records && s'.current == s.current && s'.holds == s.holds
    ensures InMix(m, s', Merged(under, behind, s.ledger), IdSet(LiveKeys(s'.records)))
  {
    hide Healthy, Merged;
    forall k ensures Answers(m, k, WantedIn(s', Merged(under, behind, s.ledger), IdSet(LiveKeys(s'.records)), k)) {
      assert Answers(m, k, WantedIn(s, under, behind, k));
      PendingSame(s, s', under, behind, k);
    }
  }

  lemma PendingSame(s: State, s': State, under: Ledgers, behind: set<Identity>, k: EntryKey)
    requires Healthy(s') && s'.records == s.records && s'.current == s.current && s'.holds == s.holds
    ensures WantedIn(s', Merged(under, behind, s.ledger), IdSet(LiveKeys(s'.records)), k)
            == WantedIn(s, under, behind, k)
  {
    hide Wanted, Healthy;
    var ledger := if k.kind == Reservation && k.id in behind then under(k.id) else s.ledger;
    assert s.(ledger := s.ledger) == s && s'.(ledger := s'.ledger) == s';
    WantedAlike(s'.(ledger := ledger), s.(ledger := ledger), k);
    if k.kind == HolderKind.Hold {
      WantedAlike(s', s'.(ledger := ledger), k);
    } else if s.HasCurrent(k.id) && !IsTerminal(s.CurrentRecord(k.id).state) {
      assert Key(k.id, s.current[k.id]) in LiveKeys(s.records);
    } else {
      NotLive(s', k.id);
      UnwantedAnyway(s', ledger, k);
      UnwantedAnyway(s', s'.ledger, k);
    }
  }

  /** What is wanted depends on the ledger only for reservations. */
  lemma WantedAlike(a: State, b: State, k: EntryKey)
    requires a.records == b.records && a.current == b.current && a.holds == b.holds
    requires k.kind == Reservation ==> a.ledger == b.ledger
    ensures Wanted(a, k) == Wanted(b, k)
  {
    hide Indexable;
  }

  lemma NotLive(s: State, id: Identity)
    requires Healthy(s) && (s.HasCurrent(id) ==> IsTerminal(s.CurrentRecord(id).state))
    ensures id !in IdSet(LiveKeys(s.records))
  {
    forall k | k in LiveKeys(s.records) ensures k.id != id {
      HealthyRecord(s, k);
      OnlyCurrentLives(s, k);
    }
  }

  lemma OnlyCurrentLives(s: State, k: Key)
    requires Healthy(s) && k in LiveKeys(s.records)
    ensures s.HasCurrent(k.id) && s.current[k.id] == k.generation
  {
    hide Modest;
    assert Complete(s.records, k.id, s.current[k.id]);
  }

  lemma UnwantedAnyway(s: State, ledger: Ledger, k: EntryKey)
    requires k.kind == Reservation && (s.HasCurrent(k.id) ==> IsTerminal(s.CurrentRecord(k.id).state))
    ensures Wanted(s.(ledger := ledger), k) == None
  {
    hide AllCurrent, Record.Window;
  }

  /** Everything outside one identity is as it was. */
  ghost predicate Untouched(s: State, s': State, id: Identity) {
    && s'.ledger == s.ledger && s'.holds == s.holds && s'.overcommitted == s.overcommitted
    && s'.maxAttempts == s.maxAttempts
    && (forall k: Key :: k.id != id ==> (k in s.records <==> k in s'.records))
    && (forall k: Key :: k.id != id && k in s.records ==> s'.records[k] == s.records[k])
    && (forall i :: i != id ==> (i in s.current <==> i in s'.current))
    && (forall i :: i != id && i in s.current ==> s'.current[i] == s.current[i])
  }

  /** The records of one identity agree with the ledger. */
  ghost predicate AttunedAt(s: State, id: Identity) {
    forall k :: k in s.records && k.id == id && !IsTerminal(s.records[k].state) ==>
      (s.records[k].applicability == Current <==> AllCurrent(s.ledger, s.records[k].refs))
  }

  /**
   The one way a record is left behind: revalidation was tried and came to nothing,
   and the record is still marked current although its bindings have moved.
   */
  ghost predicate LeftBehind(s: State, key: Key) {
    && key in s.records && !IsTerminal(s.records[key].state)
    && s.records[key].applicability == Current && !AllCurrent(s.ledger, s.records[key].refs)
  }

  /** Conditions under which working the change through widens nothing. */
  ghost predicate Forward(s: State, before: Ledgers, pending: set<Identity>) {
    && (forall k :: k in s.records && k.id in pending ==>
          OnlyForward(before(k.id), s.ledger) && SoundRecord(before(k.id), s.records[k]))
    && (forall k :: k in s.records && !IsTerminal(s.records[k].state) && s.records[k].applicability == StaleBinding ==>
          !AllCurrent(s.ledger, s.records[k].refs))
  }

  // ---------------------------------------------------------------------------
  // Steps seen with the affected holds already gone
  // ---------------------------------------------------------------------------

  /** A run from one state to the other, both without some holds. */
  ghost predicate ReachesAside(s: State, s': State, fenced: set<Identity>, tame: bool) {
    Reaches(HoldsReleased(s, fenced), HoldsReleased(s', fenced), tame)
  }

  /** A change of mark widens nothing unless it brings back a stale record whose bindings hold. */
  ghost predicate NarrowMark(s: State, key: Key, applicability: Applicability)
    requires key in s.records
  {
    s.records[key].applicability == StaleBinding && applicability != StaleBinding ==>
        !AllCurrent(s.ledger, s.records[key].refs)
  }

  lemma MarkAside(s: State, key: Key, applicability: Applicability, reason: Reason, fenced: set<Identity>)
    requires key in s.records
    ensures ReachesAside(s, Transitioned(s, ApplicabilityMutation(key, applicability, reason)), fenced,
                         NarrowMark(s, key, applicability))
  {
    var d := ApplicabilityMutation(key, applicability, reason);
    hide HoldsReleased, Reaches, AllCurrent;
    var v := HoldsReleased(s, fenced);
    ReleasedShape(s, fenced);
    ReleasedCommutes(s, Transitioned(s, d), fenced);
    TransitionedIsWritten(v, d);
    ReachesByStep(v, Note(d), NarrowMark(s, key, applicability));
  }

  /** The succession measured against the live index, where nothing was widened. */
  lemma SucceedAside(s: State, d: DurableRecord, m: Contents, policy: Policy, before: Ledgers, pending: set<Identity>,
                     fenced: set<Identity>)
    requires Healthy(s) && InMix(m, s, before, pending) && d.ReservationMutation? && d.attempt == None
    requires CanSupersede(s, d, Without(m, Reservation, d.record.id), policy.Slack())
    ensures ReachesAside(s, Succeeded(s, d), fenced, policy.Slack() == 0 && Forward(s, before, pending))
  {
    hide Inv, Modest, FitsIn, Wellbound, Without, InMix, Succeeded, Forward, HoldsReleased, Outweighs, Expected,
         Applied, Reaches;
    var v, measured := HoldsReleased(s, fenced), Without(m, Reservation, d.record.id);
    var step := Supersede(d, measured, policy.Slack());
    SupersedeParts(s, d, measured, policy.Slack());
    ReleasedShape(s, fenced);
    assert CanSupersede(v, d, measured, policy.Slack());
    SucceededIsWritten(v, d, measured, policy.Slack());
    SucceededAside(s, d, fenced);
    if policy.Slack() == 0 && Forward(s, before, pending) {
      ForwardOutweighs(m, s, fenced, before, pending, d.record.predecessor.value);
    }
    ReachesByStep(v, step, policy.Slack() == 0 && Forward(s, before, pending));
  }

  lemma SucceededAside(s: State, d: DurableRecord, fenced: set<Identity>)
    requires d.ReservationMutation?
    ensures Succeeded(HoldsReleased(s, fenced), d) == HoldsReleased(Succeeded(s, d), fenced)
  {
    hide HoldsReleased, Succeeded;
    ReleasedShape(s, fenced);
    SucceededHolds(s, d, HoldsReleased(s, fenced).holds);
    ReleasedCommutes(s, Succeeded(s, d), fenced);
  }

  lemma SucceededHolds(s: State, d: DurableRecord, holds: map<Identity, Hold>)
    requires d.ReservationMutation?
    ensures Succeeded(s.(holds := holds), d) == Succeeded(s, d).(holds := holds) && Succeeded(s, d).holds == s.holds
  {
    PredeceasedHolds(s, d, holds);
    hide Predeceased;
  }

  lemma PredeceasedHolds(s: State, d: DurableRecord, holds: map<Identity, Hold>)
    requires d.ReservationMutation?
    ensures Predeceased(s.(holds := holds), d) == Predeceased(s, d).(holds := holds)
    ensures Predeceased(s, d).holds == s.holds && Predeceased(s, d).journal == s.journal
  {
    if d.supersedes && d.record.predecessor.Some? && d.record.predecessor.value in s.records {
      StateHolds(s, d.record.predecessor.value, holds);
      hide WithState;
    }
  }

  lemma StateHolds(s: State, p: Key, holds: map<Identity, Hold>)
    requires p in s.records
    ensures WithState(s.(holds := holds), p, Superseded) == WithState(s, p, Superseded).(holds := holds)
    ensures var s' := WithState(s, p, Superseded); s'.holds == s.holds && s'.journal == s.journal && s'.edges == s.edges
  {
  }

  lemma ForwardOutweighs(m: Contents, s: State, fenced: set<Identity>, before: Ledgers, pending: set<Identity>, p: Key)
    requires Healthy(s) && InMix(m, s, before, pending) && Forward(s, before, pending)
    requires p in s.records && p.id in s.current && s.current[p.id] == p.generation
    ensures Outweighs(Without(m, Reservation, p.id), Expected(WithState(HoldsReleased(s, fenced), p, Superseded)))
  {
    hide Modest, Inv, InMix, Outweighs, Expected;
    MixOutweighs(m, s, fenced, before, pending, p);
  }

  // ---------------------------------------------------------------------------
  // One record worked through
  // ---------------------------------------------------------------------------

  /** The identity is done with: its live record is marked as the ledger has it, and no longer stale by decree. */
  ghost predicate WorkedThrough(s: State, id: Identity) {
    AttunedAt(s, id) && forall k :: k in s.records && k.id == id && !IsTerminal(s.records[k].state) ==>
        s.records[k].applicability != StaleBinding
  }

  /** Before its turn, the live record of an identity is marked current if its old ledger bore its bindings out. */
  ghost predicate Waiting(s: State, before: Ledgers, key: Key) {
    && key in s.records && !IsTerminal(s.records[key].state) && key.id in s.current
    && s.current[key.id] == key.generation
    && (AllCurrent(before(key.id), s.records[key].refs) ==> s.records[key].applicability == Current)
  }

  /**
   The record takes an interval, is marked current and its bindings stand, but they did not when it was
   last indexed: nothing is written at its turn, so nothing puts its entries back.
   */
  ghost predicate Returns(s: State, before: Ledgers, key: Key) {
    && key in s.records && s.records[key].Consumes() && !s.records[key].Window().Empty()
    && s.records[key].applicability == Current
    && AllCurrent(s.ledger, s.records[key].refs) && !AllCurrent(before(key.id), s.records[key].refs)
  }

  lemma OnlyOneLive(s: State, key: Key, k: Key)
    requires Healthy(s) && key in s.records && key.id in s.current && s.current[key.id] == key.generation
    requires k in s.records && k.id == key.id && !IsTerminal(s.records[k].state)
    ensures k == key
  {
    hide Healthy;
    HealthyRecord(s, k);
  }

  lemma MarkedThrough(s: State, key: Key, applicability: Applicability, reason: Reason)
    requires Healthy(s) && key in s.records && key.id in s.current && s.current[key.id] == key.generation
    requires if AllCurrent(s.ledger, s.records[key].refs) then applicability == Current
             else applicability == RevalidationRequired
    ensures var s' := Transitioned(s, ApplicabilityMutation(key, applicability, reason));
            WorkedThrough(s', key.id) && Untouched(s, s', key.id)
    ensures s.records[key].applicability == applicability ==> WorkedThrough(s, key.id)
  {
    hide Healthy, AllCurrent;
    forall k | k in s.records && k.id == key.id && !IsTerminal(s.records[k].state) ensures k == key {
      OnlyOneLive(s, key, k);
    }
  }

  lemma RetiredThrough(s: State, key: Key, applicability: Applicability, reason: Reason)
    requires WorkedThrough(s, key.id) && key in s.records && IsTerminal(s.records[key].state)
    ensures var s' := Transitioned(s, ApplicabilityMutation(key, applicability, reason));
            WorkedThrough(s', key.id) && Untouched(s, s', key.id)
  {
    hide AllCurrent;
  }

  lemma SucceededThrough(s: State, key: Key, policy: Policy, now: int, measured: Contents, refs: seq<ResourceRef>,
                         s': State)
    requires Healthy(s) && key in s.records && key.id in s.current && s.current[key.id] == key.generation
    requires Revalidates(s, s', key, policy, now, measured, refs, true)
    ensures WorkedThrough(s', key.id) && Untouched(s, s', key.id)
    ensures key in s'.records && s'.records[key] == s.records[key].(state := Superseded)
    ensures key.id in s'.current && s'.current[key.id] != key.generation
  {
    hide Healthy, FitsIn, Verdict, Canonical, Bound, Succeeded, NamesOf;
    var d := RevalidationRecord(s.records[key], refs, now);
    SucceededShape(s, d, measured, policy.Slack());
    HealthyRecord(s, key);
    forall k | k in s.records && k.id == key.id && !IsTerminal(s.records[k].state) ensures k == key {
      OnlyOneLive(s, key, k);
    }
  }

  lemma UntouchedJoin(s: State, mid: State, s': State, id: Identity)
    requires Untouched(s, mid, id) && Untouched(mid, s', id)
    ensures Untouched(s, s', id)
  {
  }

  lemma UntouchedItself(s: State, id: Identity)
    ensures Untouched(s, s, id)
  {
  }

  lemma AsideItself(s: State, fenced: set<Identity>, tame: bool)
    ensures ReachesAside(s, s, fenced, tame)
  {
    hide Reaches, HoldsReleased;
    ReachesItself(HoldsReleased(s, fenced), tame);
  }

  lemma AsideJoin(s: State, mid: State, s': State, fenced: set<Identity>, a: bool, b: bool, tame: bool)
    requires ReachesAside(s, mid, fenced, a) && ReachesAside(mid, s', fenced, b) && (tame ==> a && b)
    ensures ReachesAside(s, s', fenced, tame)
  {
    AsideWeaker(s, mid, fenced, a, tame);
    AsideWeaker(mid, s', fenced, b, tame);
    hide Reaches, HoldsReleased;
    ReachesJoin(HoldsReleased(s, fenced), HoldsReleased(mid, fenced), HoldsReleased(s', fenced), tame);
  }

  lemma AsideWeaker(s: State, s': State, fenced: set<Identity>, a: bool, tame: bool)
    requires ReachesAside(s, s', fenced, a) && (tame ==> a)
    ensures ReachesAside(s, s', fenced, tame)
  {
    hide Reaches, HoldsReleased;
    if a && !tame { ReachesLoosely(HoldsReleased(s, fenced), HoldsReleased(s', fenced)); }
  }

  /** Working one identity through keeps the conditions for the rest. */
  lemma ForwardKept(s: State, s': State, before: Ledgers, pending: set<Identity>, id: Identity)
    requires Forward(s, before, pending) && Untouched(s, s', id) && WorkedThrough(s', id)
    ensures Forward(s', before, pending - {id})
  {
    hide AllCurrent, OnlyForward, SoundRecord;
  }

  /** A record marked as the ledger has it that does not return was never pending in earnest. */
  lemma NeverPending(m: Contents, s: State, before: Ledgers, pending: set<Identity>, key: Key)
    requires Healthy(s) && InMix(m, s, before, pending) && Waiting(s, before, key) && WorkedThrough(s, key.id)
    requires !Returns(s, before, key)
    ensures InMix(m, s, before, pending - {key.id})
  {
    hide Healthy, InMix, AllCurrent, Record.Window;
    DropPending(m, s, before, pending, key.id);
  }

  lemma ForwardNarrows(s: State, key: Key, before: Ledgers, pending: set<Identity>)
    requires key in s.records && !IsTerminal(s.records[key].state)
    ensures Forward(s, before, pending) ==> NarrowMark(s, key, Current) && NarrowMark(s, key, RevalidationRequired)
    ensures !AllCurrent(s.ledger, s.records[key].refs) ==> NarrowMark(s, key, RevalidationRequired)
  {
    hide AllCurrent, OnlyForward, SoundRecord;
  }

  /** What a revalidation attempt leaves: a succession within the run, or nothing at all. */
  lemma RefreshStaleOutcome(s: State, s': State, key: Key, policy: Policy, now: int, m: Contents,
                            refs: seq<ResourceRef>, done: bool, before: Ledgers, pending: set<Identity>,
                            fenced: set<Identity>)
    requires Healthy(s) && InMix(m, s, before, pending) && Waiting(s, before, key)
             && !AllCurrent(s.ledger, s.records[key].refs)
    requires Revalidates(s, s', key, policy, now, Without(m, Reservation, key.id), refs, done)
    ensures Untouched(s, s', key.id) && s'.ledger == s.ledger
    ensures ReachesAside(s, s', fenced, Forward(s, before, pending) && policy.Slack() == 0)
    ensures !done ==> s' == s && (s.records[key].applicability == Current ==> LeftBehind(s, key))
    ensures done ==>
      WorkedThrough(s', key.id) && key in s'.records && s'.records[key] == s.records[key].(state := Superseded)
    ensures done ==> key.id in s'.current && s'.current[key.id] != key.generation
  {
    hide Healthy, InMix, AllCurrent, Untouched, ReachesAside, Forward, WorkedThrough, Without, CanSupersede,
         Succeeded, Verdict, BoundTo, AllLive;
    if done {
      SucceededThrough(s, key, policy, now, Without(m, Reservation, key.id), refs, s');
      SameIdentity(s, key, refs, now);
      UntouchedLedger(s, s', key.id);
      SucceedAside(s, RevalidationRecord(s.records[key], refs, now), m, policy, before, pending, fenced);
    } else {
      UntouchedItself(s, key.id);
      AsideItself(s, fenced, Forward(s, before, pending) && policy.Slack() == 0);
    }
  }

  lemma UntouchedLedger(s: State, s': State, id: Identity)
    requires Untouched(s, s', id)
    ensures s'.ledger == s.ledger
  {
  }

  lemma SameIdentity(s: State, key: Key, refs: seq<ResourceRef>, now: int)
    requires Healthy(s) && key in s.records
    ensures var d := RevalidationRecord(s.records[key], refs, now);
            d.ReservationMutation? && d.attempt == None && d.record.id == key.id
  {
    hide Healthy;
    HealthyRecord(s, key);
  }

  lemma RetiredNarrows(s: State, s': State, key: Key)
    requires key in s.records && key in s'.records && s'.records[key] == s.records[key].(state := Superseded)
             && s'.ledger == s.ledger
    requires !AllCurrent(s.ledger, s.records[key].refs)
    ensures NarrowMark(s', key, RevalidationRequired)
  {
    hide AllCurrent;
  }

  lemma RefreshStaleJoin(s: State, mid: State, s': State, key: Key, fenced: set<Identity>, tame: bool, marked: bool)
    requires Untouched(s, mid, key.id) && WorkedThrough(mid, key.id) && key in mid.records
             && NarrowMark(mid, key, RevalidationRequired)
    requires ReachesAside(s, mid, fenced, tame)
    requires !marked ==> s' == mid
    requires marked ==> WorkedThrough(s', key.id) && Untouched(mid, s', key.id)
                        && ReachesAside(mid, s', fenced, NarrowMark(mid, key, RevalidationRequired))
    ensures Untouched(s, s', key.id) && WorkedThrough(s', key.id) && ReachesAside(s, s', fenced, tame)
  {
    hide Untouched, WorkedThrough, ReachesAside, NarrowMark;
    if marked {
      UntouchedJoin(s, mid, s', key.id);
      AsideJoin(s, mid, s', fenced, tame, NarrowMark(mid, key, RevalidationRequired), tame);
    }
  }

  // ---------------------------------------------------------------------------
  // All records worked through
  // ---------------------------------------------------------------------------

  function IdsOfKeys(keys: seq<Key>): set<Identity> { set i | 0 <= i < |keys| :: keys[i].id }

  /** Identities still indexed as the old ledger had them. */
  function PendingOf(rest: seq<Key>, left: set<Key>): set<Identity> { IdsOfKeys(rest) + IdSet(left) }

  ghost predicate DistinctOwners(keys: seq<Key>) {
    forall i, j :: 0 <= i < j < |keys| ==> keys[i].id != keys[j].id
  }

  /** `rest` waits its turn, `left` was left behind, `back` returned; all but `left` are marked as the ledger has it. */
  ghost predicate Midway(s: State, before: Ledgers, rest: seq<Key>, left: set<Key>, back: set<Key>) {
    && DistinctOwners(rest) && (forall i :: 0 <= i < |rest| ==> Waiting(s, before, rest[i]))
    && (forall k :: k in left ==> LeftBehind(s, k) && Waiting(s, before, k) && k.id !in IdsOfKeys(rest))
    && (forall k :: k in back ==> Returns(s, before, k) && Waiting(s, before, k) && k.id !in IdsOfKeys(rest))
    && (forall k :: k in s.records && !IsTerminal(s.records[k].state) && k !in left && k.id !in IdsOfKeys(rest) ==>
          (s.records[k].applicability == Current <==> AllCurrent(s.ledger, s.records[k].refs)))
  }

  lemma IdsOfNext(keys: seq<Key>)
    requires keys != [] && DistinctOwners(keys)
    ensures IdsOfKeys(keys) == {keys[0].id} + IdsOfKeys(keys[1..]) && keys[0].id !in IdsOfKeys(keys[1..])
    ensures DistinctOwners(keys[1..])
  {
    forall id ensures id in IdsOfKeys(keys) <==> id == keys[0].id || id in IdsOfKeys(keys[1..]) {
      if id in IdsOfKeys(keys) {
        var i :| 0 <= i < |keys| && keys[i].id == id;
        if i > 0 { assert keys[1..][i - 1].id == id; }
      }
      if id in IdsOfKeys(keys[1..]) {
        var i :| 0 <= i < |keys[1..]| && keys[1..][i].id == id;
        assert keys[i + 1].id == id;
      }
      if id == keys[0].id { assert keys[0].id == id; }
    }
  }

  lemma PendingNext(rest: seq<Key>, left: set<Key>)
    requires rest != [] && DistinctOwners(rest) && forall k :: k in left ==> k.id !in IdsOfKeys(rest)
    ensures PendingOf(rest, left) - {rest[0].id} == PendingOf(rest[1..], left)
    ensures PendingOf(rest, left) == PendingOf(rest[1..], left + {rest[0]})
  {
    IdsOfNext(rest);
    hide IdsOfKeys, DistinctOwners;
    assert IdSet(left + {rest[0]}) == IdSet(left) + {rest[0].id} by {
      forall id | id in IdSet(left) + {rest[0].id} ensures id in IdSet(left + {rest[0]}) {
        if id in IdSet(left) {
          var k :| k in left && k.id == id;
          assert k in left + {rest[0]};
        } else {
          assert rest[0] in left + {rest[0]};
        }
      }
    }
    NotOwned(left, rest[0].id);
  }

  lemma NotOwned(keys: set<Key>, id: Identity)
    requires forall k :: k in keys ==> k.id != id
    ensures id !in IdSet(keys)
  {
  }

  lemma LeftMidway(s: State, before: Ledgers, rest: seq<Key>, left: set<Key>, back: set<Key>)
    requires Healthy(s) && Midway(s, before, rest, left, back) && rest != [] && LeftBehind(s, rest[0])
    ensures Midway(s, before, rest[1..], left + {rest[0]}, back)
  {
    hide IdsOfKeys, LeftBehind, Returns, AllCurrent, Healthy, Waiting, DistinctOwners;
    IdsOfNext(rest);
    assert Waiting(s, before, rest[0]);
    WaitingIsCurrent(s, before, rest[0]);
    RestWaits(s, before, rest, left, back);
    forall k | k in s.records && !IsTerminal(s.records[k].state) && k !in left + {rest[0]}
               && k.id !in IdsOfKeys(rest[1..])
      ensures s.records[k].applicability == Current <==> AllCurrent(s.ledger, s.records[k].refs)
    {
      if k.id == rest[0].id { OnlyOneLive(s, rest[0], k); }
    }
  }

  /** With the first of them gone, the others still wait, and who has been worked through is still not among them. */
  lemma RestWaits(s: State, before: Ledgers, rest: seq<Key>, left: set<Key>, back: set<Key>)
    requires Midway(s, before, rest, left, back) && rest != []
    ensures forall i :: 0 <= i < |rest[1..]| ==> Waiting(s, before, rest[1..][i])
    ensures forall k :: k in left + back ==> k.id !in IdsOfKeys(rest[1..])
  {
    IdsOfNext(rest);
    hide IdsOfKeys, LeftBehind, Returns, AllCurrent, Waiting;
    forall i | 0 <= i < |rest[1..]| ensures Waiting(s, before, rest[1..][i]) {
      assert rest[1..][i] == rest[i + 1];
    }
  }

  lemma BackMidway(s: State, before: Ledgers, rest: seq<Key>, left: set<Key>, back: set<Key>)
    requires Midway(s, before, rest, left, back) && rest != [] && WorkedThrough(s, rest[0].id)
             && Returns(s, before, rest[0])
    ensures Midway(s, before, rest[1..], left, back + {rest[0]})
  {
    IdsOfNext(rest);
    hide IdsOfKeys, LeftBehind, Returns, AllCurrent, Waiting;
    assert Waiting(s, before, rest[0]);
    forall i | 0 <= i < |rest[1..]| ensures Waiting(s, before, rest[1..][i]) {
      assert rest[1..][i] == rest[i + 1];
    }
  }

  lemma WaitingIsCurrent(s: State, before: Ledgers, key: Key)
    requires Waiting(s, before, key)
    ensures key in s.records && key.id in s.current && s.current[key.id] == key.generation
  {
  }

  lemma WorkedMidway(s: State, s': State, before: Ledgers, rest: seq<Key>, left: set<Key>, back: set<Key>)
    requires Midway(s, before, rest, left, back) && rest != [] && Untouched(s, s', rest[0].id)
             && WorkedThrough(s', rest[0].id)
    ensures Midway(s', before, rest[1..], left, back)
  {
    IdsOfNext(rest);
    hide IdsOfKeys, AllCurrent, Record.Window;
    forall i | 0 <= i < |rest[1..]| ensures Waiting(s', before, rest[1..][i]) {
      assert rest[1..][i] == rest[i + 1] && Waiting(s, before, rest[i + 1]);
      assert rest[i + 1].id != rest[0].id;
    }
    forall k | k in left ensures LeftBehind(s', k) && Waiting(s', before, k) && k.id !in IdsOfKeys(rest[1..]) {
      assert LeftBehind(s, k) && Waiting(s, before, k) && k.id != rest[0].id;
    }
    forall k | k in back ensures Returns(s', before, k) && Waiting(s', before, k) && k.id !in IdsOfKeys(rest[1..]) {
      assert Returns(s, before, k) && Waiting(s, before, k) && k.id != rest[0].id;
    }
  }

  lemma AllMidway(s: State, before: Ledgers, work: seq<Key>)
    requires Healthy(s) && Ascending(work) && forall k :: k in work <==> k in LiveKeys(s.records)
    requires forall k :: k in LiveKeys(s.records) ==> Waiting(s, before, k)
    ensures Midway(s, before, work, {}, {}) && PendingOf(work, {}) == IdSet(LiveKeys(s.records))
  {
    hide Healthy, AllCurrent;
    forall i, j | 0 <= i < j < |work| ensures work[i].id != work[j].id {
      assert work[i] in work && work[j] in work;
      assert Waiting(s, before, work[i]) && Waiting(s, before, work[j]);
    }
    forall id ensures id in PendingOf(work, {}) <==> id in IdSet(LiveKeys(s.records)) {
      if id in IdsOfKeys(work) {
        var i :| 0 <= i < |work| && work[i].id == id;
        assert work[i] in LiveKeys(s.records);
      }
      if id in IdSet(LiveKeys(s.records)) {
        var k :| k in LiveKeys(s.records) && k.id == id;
        var i :| 0 <= i < |work| && work[i] == k;
      }
    }
    forall k | k in s.records && !IsTerminal(s.records[k].state) ensures k.id in IdsOfKeys(work) {
      assert k in LiveKeys(s.records);
      var i :| 0 <= i < |work| && work[i] == k;
    }
  }

  /** Every policy that revalidates on its own does so without slack. */
  ghost predicate Strict(policyOf: Record -> Policy) {
    forall r :: policyOf(r).autoRevalidate ==> policyOf(r).Slack() == 0
  }

  /** What stays the same while records are worked through. */
  ghost predicate SameGround(s: State, s': State) {
    s'.ledger == s.ledger && s'.holds == s.holds && s'.overcommitted == s.overcommitted
        && s'.maxAttempts == s.maxAttempts
  }

  lemma MidwayEnds(s: State, before: Ledgers, left: set<Key>, back: set<Key>)
    requires Midway(s, before, [], left, back)
    ensures PendingOf([], left + back) == IdSet(left + back) && LeftOver(s, before, left, back)
  {
    assert IdsOfKeys([]) == {};
    hide AllCurrent, Record.Window;
  }

  lemma GroundItself(s: State)
    ensures SameGround(s, s)
  {
  }

  lemma GroundJoin(s: State, mid: State, s': State, id: Identity)
    requires SameGround(s, mid) && Untouched(mid, s', id)
    ensures SameGround(s, s')
  {
  }

  lemma MidwayOwners(s: State, before: Ledgers, rest: seq<Key>, left: set<Key>, back: set<Key>)
    requires Midway(s, before, rest, left, back)
    ensures DistinctOwners(rest) && forall k :: k in left + back ==> k.id !in IdsOfKeys(rest)
  {
    hide Waiting, LeftBehind, Returns, AllCurrent;
  }

  // ---------------------------------------------------------------------------
  // Ingestion
  // ---------------------------------------------------------------------------

  /** The open holds that use one of the resources. */
  function HoldsOn(holds: map<Identity, Hold>, names: set<ResourceName>): set<Identity> {
    set h | h in holds && !holds[h].released
        && (exists i :: 0 <= i < |holds[h].resources| && holds[h].resources[i] in names)
  }

  /** Every statement that changed its resource's entry is listed. */
  ghost predicate Advanced(before: Ledger, after: Ledger, names: set<ResourceName>) {
    before.Keys <= after.Keys && forall r :: r in after && r !in names ==> r in before && after[r] == before[r]
  }

  lemma IngestFences(s: State, d: DurableRecord, names: set<ResourceName>)
    requires d.CapacitySnapshot? && Applicable(s, d) && Advanced(s.ledger, Stated(s.ledger, d.resources).value, names)
    requires forall r :: r in d.withdrawals ==> r in names
    ensures CanIngest(s, d, HoldsOn(s.holds, names))
  {
    var stated := Stated(s.ledger, d.resources).value;
    WithdrawnKeeps(stated, d.withdrawals);
    hide Stated, WithdrawnAll;
    var fenced, after := HoldsOn(s.holds, names), Applied(s, d).ledger;
    forall h, r | h in s.holds && !s.holds[h].released && r in s.holds[h].resources && Moved(s.ledger, after, d, r)
      ensures h in fenced
    {
      assert r in names;
      var i :| 0 <= i < |s.holds[h].resources| && s.holds[h].resources[i] == r;
    }
  }

  lemma StatedHealthy(s: State, d: DurableRecord)
    requires Healthy(s) && d.CapacitySnapshot? && Applicable(s, d)
    ensures Healthy(Written(s, d)) && SoundRecords(s.ledger, s.records)
  {
    hide Modest, Stated, WithdrawnAll;
    StatedKeepsInv(s, d);
    var s' := Written(s, d);
    forall k ensures Stake(s', k) == Stake(s, k) {
    }
    hide Inv;
    ModestSame(s, s');
  }

  /** Where every live record stood in step with its ledger, each waits its turn under the new one. */
  lemma ReadyToRefresh(m: Contents, s: State, s': State, under: Ledgers, behind: set<Identity>)
    requires Healthy(s) && Healthy(s') && InMix(m, s, under, behind) && Aligned(s.ledger, s.records, behind)
    requires s'.records == s.records && s'.current == s.current && s'.holds == s.holds
    ensures var before := Merged(under, behind, s.ledger);
            InMix(m, s', before, IdSet(LiveKeys(s'.records))) && forall k :: k in LiveKeys(s'.records) ==>
                Waiting(s', before, k)
  {
    hide Healthy, AllCurrent, InMix;
    AllPending(m, s, s', under, behind);
    forall k | k in LiveKeys(s'.records) ensures Waiting(s', Merged(under, behind, s.ledger), k) {
      HealthyRecord(s', k);
    }
  }

  /** What an ingestion needs to widen nothing. */
  ghost predicate Narrowing(s: State, after: Ledger, policyOf: Record -> Policy, under: Ledgers,
                            behind: set<Identity>)
  {
    && BelowCap(after) && OnlyForward(s.ledger, after) && Strict(policyOf)
    && (forall k :: k in s.records && k.id in behind ==>
          OnlyForward(under(k.id), after) && SoundRecord(under(k.id), s.records[k]))
    && forall k :: k in s.records && !IsTerminal(s.records[k].state) && s.records[k].applicability == StaleBinding ==>
         !AllCurrent(after, s.records[k].refs)
  }

  lemma NarrowingForward(s: State, s': State, policyOf: Record -> Policy, under: Ledgers, behind: set<Identity>,
                         pending: set<Identity>)
    requires Narrowing(s, s'.ledger, policyOf, under, behind) && SoundRecords(s.ledger, s.records)
             && s'.records == s.records
    ensures Forward(s', Merged(under, behind, s.ledger), pending) && Strict(policyOf)
  {
    hide AllCurrent, OnlyForward, SoundRecord, Strict, BelowCap;
  }

  /** The ingestion itself, with the affected holds gone at once, and then the records. */
  lemma IngestReaches(s: State, d: DurableRecord, fenced: set<Identity>, s': State, policyOf: Record -> Policy,
                      under: Ledgers, behind: set<Identity>)
    requires CanIngest(s, d, fenced)
    requires ReachesAside(Written(s, d), s', fenced, Narrowing(s, Written(s, d).ledger, policyOf, under, behind))
    ensures Reaches(s, HoldsReleased(s', fenced), Narrowing(s, Written(s, d).ledger, policyOf, under, behind))
  {
    hide Stated, WithdrawnAll, Reaches, HoldsReleased, OnlyForward, BelowCap, Strict;
    var tame := Narrowing(s, Written(s, d).ledger, policyOf, under, behind);
    ReachesByStep(s, Ingest(d, fenced), tame);
    ReachesJoin(s, HoldsReleased(Written(s, d), fenced), HoldsReleased(s', fenced), tame);
  }

  /** The record takes an interval on something, and one ledger bears its bindings out while the other does not. */
  ghost predicate Astray(s: State, before: Ledgers, k: Key)
    requires k in s.records
  {
    var r := s.records[k];
    && r.Consumes() && !r.Window().Empty() && r.refs != []
    && (AllCurrent(before(k.id), r.refs) <==> !AllCurrent(s.ledger, r.refs))
  }

  /** The index is what the records call for exactly when nobody pending is astray. */
  lemma PendingIndexed(m: Contents, s: State, before: Ledgers, pending: set<Identity>)
    requires Healthy(s) && InMix(m, s, before, pending)
    ensures m == Expected(s) <==>
            forall k :: k in s.records && k.id in pending && !IsTerminal(s.records[k].state) ==> !Astray(s, before, k)
  {
    hide Healthy, Expected, Wanted, Astray, AllCurrent;
    if k :| k in s.records && k.id in pending && !IsTerminal(s.records[k].state) && Astray(s, before, k) {
      AstrayEntry(s, before, k);
      var e := EntryKey(Reservation, k.id, s.records[k].refs[0].resource);
      ExpectedIs(s, e);
      assert Answers(m, e, WantedIn(s, before, pending, e));
      assert e in m <==> e !in Expected(s);
    } else {
      forall e ensures Answers(m, e, WantedIn(s, before, {}, e)) {
        assert Answers(m, e, WantedIn(s, before, pending, e));
        if e.kind == Reservation && e.id in pending { NobodyAstray(s, before, pending, e); }
      }
      MixNone(m, s, before);
    }
  }

  lemma NobodyAstray(s: State, before: Ledgers, pending: set<Identity>, e: EntryKey)
    requires Healthy(s) && e.kind == Reservation && e.id in pending
    requires forall k :: k in s.records && k.id in pending && !IsTerminal(s.records[k].state) ==> !Astray(s, before, k)
    ensures Wanted(s, e) == Wanted(s.(ledger := before(e.id)), e)
  {
    hide Healthy, AllCurrent, Record.Window, Astray;
    if s.HasCurrent(e.id) && !IsTerminal(s.CurrentRecord(e.id).state) {
      SameEither(s, before, Key(e.id, s.current[e.id]), e);
    }
  }

  lemma AstrayEntry(s: State, before: Ledgers, k: Key)
    requires Healthy(s) && k in s.records && !IsTerminal(s.records[k].state) && Astray(s, before, k)
    ensures s.records[k].refs != []
    ensures var e := EntryKey(Reservation, k.id, s.records[k].refs[0].resource);
            Wanted(s, e).Some? <==> Wanted(s.(ledger := before(k.id)), e).None?
  {
    hide Healthy, Record.Window, AllCurrent;
    HealthyRecord(s, k);
    assert s.records[k].Binds(s.records[k].refs[0].resource);
  }

  lemma SameEither(s: State, before: Ledgers, k: Key, e: EntryKey)
    requires k in s.records && k.id in s.current && s.current[k.id] == k.generation && e.kind == Reservation
             && e.id == k.id
    requires !Astray(s, before, k)
    ensures Wanted(s, e) == Wanted(s.(ledger := before(k.id)), e)
  {
    hide Record.Window, AllCurrent;
    if s.records[k].Binds(e.resource) {
      var i :| 0 <= i < |s.records[k].refs| && s.records[k].refs[i].resource == e.resource;
    }
  }

  /**
   What a pass over the live records leaves: `left` passed over, `back` returned without entries, and everybody not left
   marked as the ledger has it.
   */
  ghost predicate LeftOver(s: State, before: Ledgers, left: set<Key>, back: set<Key>) {
    && (forall k :: k in left ==> LeftBehind(s, k) && Waiting(s, before, k))
    && (forall k :: k in back ==> Returns(s, before, k) && Waiting(s, before, k))
    && (forall k :: k in s.records && !IsTerminal(s.records[k].state) && k !in left ==>
          (s.records[k].applicability == Current <==> AllCurrent(s.ledger, s.records[k].refs)))
  }

  lemma LeftOverExactly(s: State, before: Ledgers, left: set<Key>, back: set<Key>)
    requires LeftOver(s, before, left, back)
    ensures forall k :: k in s.records ==> (LeftBehind(s, k) <==> k in left)
    ensures left == {} ==> Attuned(s.ledger, s.records)
  {
    hide AllCurrent, Waiting, Returns;
  }

  /** The identities left over are the ones behind from now on, and nobody returned if and only if they all are. */
  lemma LeftOverAligned(s: State, before: Ledgers, left: set<Key>, back: set<Key>)
    requires Healthy(s) && LeftOver(s, before, left, back)
    ensures IdSet(left + back) <= s.current.Keys
    ensures Aligned(s.ledger, s.records, IdSet(left + back)) <==> back == {}
  {
    hide Healthy, AllCurrent, Record.Window;
    if k :| k in back {
      assert Returns(s, before, k) && Waiting(s, before, k) && k in left + back;
      assert k.id in IdSet(left + back);
    } else {
      assert left + back == left;
      forall k | k in s.records && !IsTerminal(s.records[k].state) && k.id in IdSet(left) ensures k in left {
        var x :| x in left && x.id == k.id;
        assert Waiting(s, before, x);
        OnlyOneLive(s, x, k);
      }
    }
  }

  lemma LeftOverSame(s: State, s': State, before: Ledgers, left: set<Key>, back: set<Key>)
    requires LeftOver(s, before, left, back)
    requires s'.records == s.records && s'.ledger == s.ledger && s'.current == s.current
    ensures LeftOver(s', before, left, back)
  {
    hide AllCurrent, Record.Window;
  }

  lemma LeftOverReleased(s: State, before: Ledgers, left: set<Key>, back: set<Key>, ids: set<Identity>)
    requires LeftOver(s, before, left, back)
    ensures LeftOver(HoldsReleased(s, ids), before, left, back) && HoldsReleased(s, ids).ledger == s.ledger
  {
    hide LeftOver;
    LeftOverSame(s, HoldsReleased(s, ids), before, left, back);
  }

  lemma GroundParts(s: State, s': State)
    requires SameGround(s, s')
    ensures s'.ledger == s.ledger && s'.holds == s.holds && s'.overcommitted == s.overcommitted
  {
  }

  lemma SameReleased(s: State, s': State, ids: set<Identity>)
    requires s'.holds == s.holds
    ensures HoldsReleased(s', ids).holds == HoldsReleased(s, ids).holds
    ensures HoldsReleased(s', ids).overcommitted == s'.overcommitted
  {
  }

  lemma ReachesOn(s: State, mid: State, s': State, tame: bool)
    requires Reaches(s, mid, tame) && Reaches(mid, s', true)
    ensures Reaches(s, s', tame)
  {
    hide Reaches;
    if !tame { ReachesLoosely(mid, s'); }
    ReachesJoin(s, mid, s', tame);
  }

  lemma WorkedReaches(s: State, d: DurableRecord, fenced: set<Identity>, s1: State, s2: State,
                      policyOf: Record -> Policy, under: Ledgers, behind: set<Identity>)
    requires CanIngest(s, d, fenced) && s1 == Written(s, d) && SoundRecords(s.ledger, s1.records)
             && s2.ledger == s1.ledger
    requires ReachesAside(s1, s2, fenced, Forward(s1, Merged(under, behind, s.ledger), IdSet(LiveKeys(s1.records)))
                          && Strict(policyOf))
    ensures Reaches(s, HoldsReleased(s2, fenced), Narrowing(s, s2.ledger, policyOf, under, behind))
  {
    hide Stated, WithdrawnAll, Reaches, HoldsReleased, OnlyForward, BelowCap, ReachesAside, Forward, Narrowing,
         SoundRecords, IdSet, LiveKeys, Merged;
    var a := Forward(s1, Merged(under, behind, s.ledger), IdSet(LiveKeys(s1.records))) && Strict(policyOf);
    if Narrowing(s, s1.ledger, policyOf, under, behind) {
      NarrowingForward(s, s1, policyOf, under, behind, IdSet(LiveKeys(s1.records)));
    }
    AsideWeaker(s1, s2, fenced, a, Narrowing(s, s1.ledger, policyOf, under, behind));
    IngestReaches(s, d, fenced, s2, policyOf, under, behind);
  }

  function NameSet(names: seq<ResourceName>): set<ResourceName> { set r | r in names }

  function NamesIn(resources: seq<Capacity>): seq<ResourceName> {
    seq(|resources|, i requires 0 <= i < |resources| => resources[i].resource)
  }

  /** The names the ledger knows, in order. */
  function KnownNames(ledger: Ledger, names: seq<ResourceName>): seq<ResourceName>
    decreases |names|
  {
    if names == [] then []
    else (if names[0] in ledger then [names[0]] else []) + KnownNames(ledger, names[1..])
  }

  /** The ledger after a snapshot: every statement, then every withdrawal of a known resource. */
  function Ingested(ledger: Ledger, resources: seq<Capacity>, withdrawals: seq<ResourceName>): Ledger
    requires Stated(ledger, resources).Some?
  {
    WithdrawnAll(Stated(ledger, resources).value, withdrawals)
  }

  /** The ledger after the statements that come before the first refused one. */
  function StatedUntil(ledger: Ledger, cs: seq<Capacity>): Ledger
    decreases |cs|
  {
    if cs == [] then ledger
    else
      match LedgerApply(ledger, cs[0])
      case Refused => ledger
      case Unchanged => StatedUntil(ledger, cs[1..])
      case Changed(next) => StatedUntil(next, cs[1..])
  }

  /** The names whose entry a statement changes, in order, up to the first statement that is refused. */
  function AdvancedNames(ledger: Ledger, cs: seq<Capacity>): seq<ResourceName>
    decreases |cs|
  {
    if cs == [] then []
    else
      match LedgerApply(ledger, cs[0])
      case Refused => []
      case Unchanged => AdvancedNames(ledger, cs[1..])
      case Changed(next) => [cs[0].resource] + AdvancedNames(next, cs[1..])
  }

  /** Everything a snapshot moves: the entries it changes, then the known resources it withdraws. */
  function MovedNames(ledger: Ledger, resources: seq<Capacity>, withdrawals: seq<ResourceName>): seq<ResourceName>
    requires Stated(ledger, resources).Some?
  {
    AdvancedNames(ledger, resources) + KnownNames(Stated(ledger, resources).value, withdrawals)
  }

  lemma NameSets(a: seq<ResourceName>, b: seq<ResourceName>)
    ensures NameSet(a + b) == NameSet(a) + NameSet(b)
  {
  }

  lemma SameLedger(s: State)
    ensures s.(ledger := s.ledger) == s
  {
  }

  /** The durable record of a snapshot: every statement, and the withdrawals of known resources. */
  function Statement(ledger: Ledger, resources: seq<Capacity>, withdrawals: seq<ResourceName>): DurableRecord
    requires Stated(ledger, resources).Some?
  {
    CapacitySnapshot(resources, KnownNames(Stated(ledger, resources).value, withdrawals))
  }

  /** Withdrawing a name the ledger does not know changes nothing. */
  lemma {:induction false} KnownSuffice(ledger: Ledger, names: seq<ResourceName>)
    ensures WithdrawnAll(ledger, KnownNames(ledger, names)) == WithdrawnAll(ledger, names)
    ensures KnownNames(ledger, names) == [] ==> WithdrawnAll(ledger, names) == ledger
    decreases |names|
  {
    if names != [] {
      var next := LedgerWithdraw(ledger, names[0]);
      KnownSame(ledger, next, names[1..]);
      KnownSuffice(next, names[1..]);
      if names[0] in ledger {
        assert KnownNames(ledger, names)[1..] == KnownNames(ledger, names[1..]);
      } else {
        assert KnownNames(ledger, names) == KnownNames(ledger, names[1..]);
      }
    }
  }

  lemma {:induction false} KnownSame(a: Ledger, b: Ledger, names: seq<ResourceName>)
    requires a.Keys == b.Keys
    ensures KnownNames(a, names) == KnownNames(b, names)
    decreases |names|
  {
    if names != [] { KnownSame(a, b, names[1..]); }
  }

  lemma {:induction false} WithdrawnNext(ledger: Ledger, names: seq<ResourceName>, name: ResourceName)
    ensures WithdrawnAll(ledger, names + [name]) == LedgerWithdraw(WithdrawnAll(ledger, names), name)
    decreases |names|
  {
    if names == [] {
      assert [name][1..] == [];
    } else {
      assert (names + [name])[1..] == names[1..] + [name];
      WithdrawnNext(LedgerWithdraw(ledger, names[0]), names[1..], name);
    }
  }

  lemma AdvancedBoth(a: Ledger, b: Ledger, c: Ledger, first: set<ResourceName>, second: set<ResourceName>)
    requires Advanced(a, b, first) && Advanced(b, c, second)
    ensures Advanced(a, b, first + second) && Advanced(a, c, first + second)
  {
  }

  lemma AdvancedNothing(a: Ledger, b: Ledger, names: set<ResourceName>)
    requires Advanced(a, b, names) && names == {}
    ensures a == b
  {
  }

  lemma StatementIs(s: State, resources: seq<Capacity>, withdrawn: seq<ResourceName>)
    requires Stated(s.ledger, resources).Some?
    ensures var d := CapacitySnapshot(resources, withdrawn);
            && Applicable(s, d)
            && Written(s, d) == s.(ledger := WithdrawnAll(Stated(s.ledger, resources).value, withdrawn), journal :=
                                   s.journal + [d])
  {
    hide Stated, WithdrawnAll;
  }

  /**
   An accepted statement, journaled: the holds on what moved are to be fenced, and every live record waits its turn.
   */
  lemma StatementTaken(s: State, resources: seq<Capacity>, withdrawn: seq<ResourceName>, s': State,
                       advanced: set<ResourceName>, m: Contents, under: Ledgers, behind: set<Identity>)
    requires Healthy(s) && InMix(m, s, under, behind) && Aligned(s.ledger, s.records, behind)
    requires Stated(s.ledger, resources).Some?
             && Advanced(s.ledger, Stated(s.ledger, resources).value, advanced + NameSet(withdrawn))
    requires s' == s.(ledger := WithdrawnAll(Stated(s.ledger, resources).value, withdrawn),
                      journal := s.journal + [CapacitySnapshot(resources, withdrawn)])
    ensures var d := CapacitySnapshot(resources, withdrawn);
            CanIngest(s, d, HoldsOn(s.holds, advanced + NameSet(withdrawn))) && s' == Written(s, d)
    ensures Healthy(s') && SoundRecords(s.ledger, s.records)
    ensures var before := Merged(under, behind, s.ledger);
            InMix(m, s', before, IdSet(LiveKeys(s'.records))) && forall k :: k in LiveKeys(s'.records) ==>
                Waiting(s', before, k)
  {
    hide Healthy, InMix, Aligned, Merged, Stated, WithdrawnAll, IdSet, LiveKeys, Waiting, SoundRecords,
         Applicable, Written, CanIngest, Advanced, HoldsOn;
    var d := CapacitySnapshot(resources, withdrawn);
    StatementIs(s, resources, withdrawn);
    IngestFences(s, d, advanced + NameSet(withdrawn));
    StatedHealthy(s, d);
    ReadyToRefresh(m, s, s', under, behind);
  }

  lemma IngestedKnown(ledger: Ledger, resources: seq<Capacity>, withdrawals: seq<ResourceName>,
                      withdrawn: seq<ResourceName>)
    requires Stated(ledger, resources).Some? && withdrawn == KnownNames(Stated(ledger, resources).value, withdrawals)
    ensures WithdrawnAll(Stated(ledger, resources).value, withdrawn) == Ingested(ledger, resources, withdrawals)
    ensures withdrawn == [] ==> Ingested(ledger, resources, withdrawals) == Stated(ledger, resources).value
  {
    KnownSuffice(Stated(ledger, resources).value, withdrawals);
  }
}

/**
 The coordinator: records, ledger, holds and attempts updated in place, with the
 capacity index and the deadline queues kept in step by every operation.
 */
module Coordination {
  import opened Timeline
  import opened Claims
  import opened Entries
  import opened SegmentTree
  import opened ResourceStates
  import opened CapacityIndexing
  import opened Suspending
  import opened Records
  import opened FabricState
  import opened Steps
  import opened Lineage
  import opened Closure
  import opened Runs
  import opened RecordIndexing
  import opened Bounds
  import opened Deadlines
  import opened Effects
  import opened Series
  import opened Admission
  import opened Commitments
  import opened Orders
  import opened Successions
  import opened Refreshing
  import opened Overcommitment
  import opened Turns
  import opened Amendments
  import opened Holding
  import opened Resolution
  import opened Auditing

  class Coordinator {
    const maxAttempts: nat
    const index: CapacityIndex
    const queues: DeadlineQueues
    var ledger: Ledger
    var records: map<Key, Record>
    var current: map<Identity, nat>
    var series: map<Identity, seq<Identity>>
    var edges: seq<(Key, Key)>
    var claimants: map<Identity, nat>
    var attempts: map<Identity, Attempt>
    var attemptOrder: seq<Identity>
    var overcommitted: set<ResourceName>
    var holds: map<Identity, Hold>
    var journal: seq<DurableRecord>
    /** Identities still indexed as an earlier ledger had them, and that ledger. */
    ghost var behind: set<Identity>
    ghost var under: Ledgers

    ghost function S(): State
      reads `ledger, `records, `current, `series, `edges, `claimants, `attempts, `attemptOrder, `overcommitted,
            `holds, `journal
    {
      State(maxAttempts, ledger, records, current, series, edges, claimants, attempts, attemptOrder,
            overcommitted, holds, journal)
    }

    /** The index shares no object with the coordinator or its queues. */
    ghost predicate Detached()
      reads index
    {
      this !in index.Repr && queues !in index.Repr
    }

    /** Everything but agreement with the ledger: pending identities are indexed as it stood before. */
    ghost predicate Consistent(before: Ledgers, pending: set<Identity>)
      reads `ledger, `records, `current, `series, `edges, `claimants, `attempts, `attemptOrder, `overcommitted,
            `holds, `journal
      reads queues, index, index.Repr
    {
      && Detached() && index.Valid()
      && Healthy(S())
      && InMix(index.contents, S(), before, pending)
      && queues.Exact(records)
    }

    ghost predicate AlignedNow()
      reads this
    {
      Aligned(ledger, records, behind) && behind <= current.Keys
    }

    ghost predicate Valid()
      reads this, queues, index, index.Repr
    {
      Consistent(under, behind) && AlignedNow()
    }

    constructor (maxAttempts: nat)
      ensures Valid() && S() == Initial(maxAttempts)
      ensures fresh(index.Repr) && fresh(queues)
    {
      this.maxAttempts := maxAttempts;
      index := new CapacityIndex();
      queues := new DeadlineQueues();
      ledger, records, current, series, edges := map[], map[], map[], map[], [];
      claimants, attempts, attemptOrder, overcommitted, holds, journal := map[], map[], [], {}, map[], [];
      behind, under := {}, _ => map[];
      new;
      hide CapacityIndex.Valid, DeadlineQueues.Exact, Valid, Consistent;
      BeginsValid();
    }

    /** With nothing recorded and nothing indexed everything is in step. */
    lemma BeginsValid()
      requires Detached() && index.Valid() && index.contents == map[] && queues.Exact(records)
      requires S() == Initial(maxAttempts) && behind == {}
      ensures Valid()
    {
      hide CapacityIndex.Valid, Healthy, DeadlineQueues.Exact, InMix;
      InitialHealthy(maxAttempts);
      InitialMix(maxAttempts, under);
    }

    /** Brings index and queues back in step after one record was rewritten. */
    method Settle(key: Key, rewrite: bool, ghost was: Record, ghost against: Ledger, ghost before: Ledgers,
                  ghost pending: set<Identity>)
      requires Detached() && index.Valid() && Healthy(S()) && queues.ExactBut(records, key)
      requires key in records && key.id in current && current[key.id] == key.generation
      requires MixedBut(index.contents, S(), before, pending, key.id)
      requires Settled(index.contents, against, was) == index.contents
      requires was.KeyOf() == key && was.refs == records[key].refs && was.terms == records[key].terms
      requires rewrite || SameEntries(was, records[key])
      modifies queues, index.Repr
      ensures Consistent(before, pending - {key.id}) && fresh(index.Repr - old(index.Repr))
    {
      hide CapacityIndex.Valid, Healthy, DeadlineQueues.ExactBut, DeadlineQueues.Exact, MixedBut, InMix, Settled,
           SyncReady, HeldAt, Without;
      var r := records[key];
      HealthyRecord(S(), key);
      MixSettles(S(), index.contents, before, pending, key.id);
      MixRepresentable(S(), Settled(index.contents, ledger, r), before, pending - {key.id});
      hide Keyed, Representable;
      if rewrite {
        SettledReady(index.contents, against, was, was, ledger);
        var updated := UpdateIndex(index, ledger, r);
      } else {
        SettledReady(index.contents, against, was, r, ledger);
        var synced := SettleIndex(index, ledger, r);
      }
      queues.Sync(r, records);
    }

    /** The authoritative record of an identity is rewritten; its entries and deadlines follow in `Settle`. */
    method Rewrite(key: Key, r: Record, entries: seq<DurableRecord>)
      requires Valid() && key in records && !IsTerminal(records[key].state)
      requires r.KeyOf() == key && r.refs == records[key].refs && r.applicability == records[key].applicability
      requires Healthy(S().(records := records[key := r], journal := journal + entries))
      modifies `records, `journal
      ensures S() == old(S()).(records := old(records)[key := r], journal := old(journal) + entries)
      ensures Detached() && index.Valid() && Healthy(S()) && queues.ExactBut(records, key)
      ensures key.id in current && current[key.id] == key.generation
      ensures MixedBut(index.contents, S(), under, behind, key.id)
      ensures Settled(index.contents, if key.id in behind then under(key.id) else ledger, old(records[key]))
              == index.contents
      ensures Aligned(ledger, records, behind - {key.id}) && behind <= current.Keys
    {
      hide CapacityIndex.Valid, Healthy, DeadlineQueues.Exact, DeadlineQueues.ExactBut, MixedBut, InMix, Settled,
           Aligned;
      ghost var s0 := S();
      HealthyRecord(s0, key);
      MixSettled(s0, index.contents, under, behind, key.id);
      AlignedKept(ledger, records, key, r, behind);
      journal := journal + entries;
      records := records[key := r];
      OthersMixed(index.contents, s0, S(), under, behind, key);
      StillScheduled(s0.records, key, r);
    }

    /** A state change of the authoritative generation: journal, record, index, queues. */
    method Transition(key: Key, to: ReservationState, recallAt: int, attempt: Option<Attempt>)
      requires Valid() && CanMove(S(), key, to, recallAt) && key.id in current && current[key.id] == key.generation
      modifies this, queues, index.Repr
      ensures Valid() && fresh(index.Repr - old(index.Repr))
      ensures S() == Transitioned(old(S()), StateMutation(key, to, recallAt, attempt))
      ensures under == old(under) && behind == old(behind) - {key.id}
    {
      hide Consistent, AlignedNow, CapacityIndex.Valid, Healthy, DeadlineQueues.Exact, DeadlineQueues.ExactBut,
           MixedBut, Settled, Aligned, CanMove, Transitioned, SameEntries, S;
      RecordsOfState();
      ghost var s0, against := S(), if key.id in behind then under(key.id) else ledger;
      ValidHealthy();
      MoveRewrites(s0, key, to, recallAt, attempt);
      ghost var was := records[key];
      var r := records[key];
      if recallAt > 0 {
        r := r.(recallAt := recallAt);
      }
      r := r.(state := to);
      Rewrite(key, r, [StateMutation(key, to, recallAt, attempt)]);
      RecordsOfState();
      Settle(key, to == RecallPending, was, against, under, behind);
      RecordsOfState();
      behind := behind - {key.id};
      StaysAligned();
    }

    lemma StaysAligned()
      requires Aligned(ledger, records, behind) && behind <= current.Keys
      ensures AlignedNow()
    {
    }

    /** Applicability of a record; nothing is written when it does not change. */
    method MarkApplicability(key: Key, applicability: Applicability, reason: Reason, ghost before: Ledgers,
                             ghost pending: set<Identity>)
      returns (marked: bool)
      requires Consistent(before, pending) && key in records
      modifies this, queues, index.Repr
      ensures fresh(index.Repr - old(index.Repr))
      ensures marked <==> !(old(records[key]).applicability == applicability && old(records[key]).reason == reason)
      ensures Consistent(before, if marked && old(key.id in current && current[key.id] == key.generation)
                         then pending - {key.id} else pending)
      ensures S() == if marked then Transitioned(old(S()), ApplicabilityMutation(key, applicability, reason))
              else old(S())
    {
      hide CapacityIndex.Valid, Healthy, DeadlineQueues.Exact, MixedBut, InMix, Settled, Synced;
      var r := records[key];
      if r.applicability == applicability && r.reason == reason { return false; }
      ghost var s0 := S();
      MarkHealthy(s0, key, applicability, reason);
      HealthyRecord(s0, key);
      journal := journal + [ApplicabilityMutation(key, applicability, reason)];
      records := records[key := r.(applicability := applicability, reason := reason)];
      StillScheduled(s0.records, key, records[key]);
      if current[key.id] == key.generation {
        MixSettled(s0, index.contents, before, pending, key.id);
        OthersMixed(index.contents, s0, S(), before, pending, key);
        Settle(key, false, r, if key.id in pending then before(key.id) else ledger, before, pending);
      } else {
        RetiredSame(index.contents, s0, S(), before, pending, key, records[key]);
        SettleRetired(key, before, pending);
      }
      return true;
    }

    /** A superseded record is in no queue and has no entry of its own. */
    method SettleRetired(key: Key, ghost before: Ledgers, ghost pending: set<Identity>)
      requires Detached() && index.Valid() && Healthy(S()) && queues.ExactBut(records, key) && key in records
      requires InMix(index.contents, S(), before, pending)
               && Synced(index.contents, ledger, records[key]) == index.contents
      modifies queues, index.Repr
      ensures Consistent(before, pending) && fresh(index.Repr - old(index.Repr))
    {
      hide CapacityIndex.Valid, Healthy, DeadlineQueues.ExactBut, DeadlineQueues.Exact, InMix, Synced, Keyed,
           Representable;
      HealthyRecord(S(), key);
      MixRepresentable(S(), index.contents, before, pending);
      queues.Sync(records[key], records);
      var synced := SyncIndex(index, ledger, records[key]);
    }

    method NoteAttempt(a: Attempt)
      modifies `attempts, `attemptOrder
      ensures S() == Remembered(old(S()), a)
    {
      hide Evicted;
      if a.id !in attempts {
        attemptOrder := attemptOrder + [a.id];
      }
      attempts := attempts[a.id := a];
      ghost var listed := S();
      while |attemptOrder| > maxAttempts && attemptOrder != []
        invariant S() == listed.(attempts := attempts, attemptOrder := attemptOrder)
        invariant Evicted(S()) == Evicted(listed)
        decreases |attemptOrder|
      {
        EvictedNext(S());
        var oldest := attemptOrder[0];
        attemptOrder := attemptOrder[1..];
        attempts := attempts - {oldest};
      }
      EvictedNext(S());
    }

    /** Notes an attempt and forgets the oldest beyond the bound. */
    method Remember(a: Attempt)
      requires Valid()
      modifies `attempts, `attemptOrder
      ensures Valid() && S() == Remembered(old(S()), a)
    {
      hide CapacityIndex.Valid, Healthy, DeadlineQueues.Exact, InMix, Aligned, Remembered;
      ghost var s0 := S();
      NoteAttempt(a);
      RememberedKeeps(s0, a);
      MixSame(index.contents, s0, S(), under, behind);
      HealthySame(s0, S());
    }

    /** Releases a hold and returns what it kept to the index. */
    method ReleaseHold(id: Identity, ghost before: Ledgers, ghost pending: set<Identity>) returns (status: Status)
      requires Consistent(before, pending)
      modifies `holds, index.Repr
      ensures Consistent(before, pending) && fresh(index.Repr - old(index.Repr))
      ensures status == if id in old(holds) then Ok else Error(NotFound)
      ensures S() == HoldsReleased(old(S()), {id})
    {
      hide CapacityIndex.Valid, Healthy, DeadlineQueues.Exact, InMix, HolderKeys, Without;
      ghost var s0, m0 := S(), index.contents;
      HealthyReleased(s0, {id});
      ReleasedNothing(s0, id);
      if id !in holds { return Error(NotFound); }
      if holds[id].released { return Ok; }
      holds := holds[id := holds[id].(released := true)];
      assert S() == HoldsReleased(s0, {id});
      if index.Owns(HolderKind.Hold, id) {
        var erased := index.EraseAll(HolderKind.Hold, id);
      } else {
        HolderGone(m0, HolderKind.Hold, id);
      }
      MixReleased(m0, s0, id, before, pending);
      return Ok;
    }

    method ReleaseEach(ids: set<Identity>, ghost before: Ledgers, ghost pending: set<Identity>)
      requires Consistent(before, pending)
      modifies `holds, index.Repr
      ensures Consistent(before, pending) && fresh(index.Repr - old(index.Repr))
      ensures S() == HoldsReleased(old(S()), ids)
    {
      hide *;
      ghost var s0 := S();
      var todo := ids;
      ReleasedNone(s0);
      assert ids - todo == {};
      while todo != {}
        invariant todo <= ids && Consistent(before, pending) && fresh(index.Repr - old(index.Repr))
        invariant S() == HoldsReleased(s0, ids - todo)
        decreases todo
      {
        var id :| id in todo;
        ReleasedMore(s0, ids - todo, {id});
        assert ids - todo + {id} == ids - (todo - {id});
        var released := ReleaseHold(id, before, pending);
        todo := todo - {id};
      }
      assert ids - todo == ids;
    }

    method ReleaseHolds(ids: set<Identity>)
      requires Valid()
      modifies `holds, index.Repr
      ensures Valid() && fresh(index.Repr - old(index.Repr))
      ensures under == old(under) && behind == old(behind)
      ensures S() == HoldsReleased(old(S()), ids)
    {
      hide CapacityIndex.Valid, Healthy, DeadlineQueues.Exact, InMix, Aligned, HoldsReleased;
      ReleaseEach(ids, under, behind);
    }

    method RegisterClaimant(claimant: Identity, generation: nat)
      requires Valid() && (claimant in claimants ==> generation > claimants[claimant])
      modifies `journal, `claimants
      ensures Valid()
      ensures S() == old(S()).(claimants := old(claimants)[claimant := generation],
                               journal := old(journal) + [ClaimantRegistration(claimant, generation)])
    {
      hide CapacityIndex.Valid, Healthy, DeadlineQueues.Exact, InMix, Aligned;
      ghost var s0 := S();
      journal := journal + [ClaimantRegistration(claimant, generation)];
      claimants := claimants[claimant := generation];
      MixSame(index.contents, s0, S(), under, behind);
      HealthySame(s0, S());
    }

    /** Registers a claimant generation; an advance fences the claimant's older holds. */
    method EnsureClaimant(claimant: Identity, generation: nat) returns (ok: bool)
      requires Valid()
      modifies this, index.Repr
      ensures Valid() && fresh(index.Repr - old(index.Repr))
      ensures under == old(under) && behind <= old(behind)
      ensures ok <==> ClaimantAccepted(old(S()), claimant, generation)
      ensures S() == if ok then ClaimantEnsured(old(S()), claimant, generation) else old(S())
      ensures Reaches(old(S()), S(), true)
    {
      hide Valid, Reaches, HoldsReleased;
      ghost var s0 := S();
      ReachesItself(s0, true);
      if claimant == 0 { return false; }
      if claimant !in claimants {
        RegisterClaimant(claimant, generation);
        RegisterReaches(s0, claimant, generation);
        return true;
      }
      if generation < claimants[claimant] { return false; }
      if generation > claimants[claimant] {
        RegisterClaimant(claimant, generation);
        RegisterReaches(s0, claimant, generation);
        ghost var s1 := S();
        var victims := set h | h in holds && !holds[h].released && holds[h].claimant == claimant
            && holds[h].claimantGeneration < generation;
        ReleaseHolds(victims);
        ReachesFurther(s0, s1, DropHolds(victims), true);
      }
      return true;
    }

    /** A move of the clock's own, without a caller's attempt. */
    method Tick(key: Key, to: ReservationState)
      requires Valid() && CanMove(S(), key, to, 0) && to != RecallPending
      modifies this, queues, index.Repr
      ensures Valid() && fresh(index.Repr - old(index.Repr))
      ensures OnlyRecords(old(S()), S()) && records == old(records)[key := old(records[key]).(state := to)]
      ensures Reaches(old(S()), S(), true)
      ensures under == old(under) && behind == old(behind) - {key.id}
    {
      ghost var s0 := S();
      hide Valid, Reaches, CanMove, OnlyRecords, Transitioned;
      CurrentWhileLive(key, to);
      Transition(key, to, 0, None);
      TickReaches(s0, S(), key, to);
    }

    lemma CurrentWhileLive(key: Key, to: ReservationState)
      requires Valid() && CanMove(S(), key, to, 0)
      ensures key.id in current && current[key.id] == key.generation
    {
      hide Healthy, CapacityIndex.Valid, InMix, DeadlineQueues.Exact;
      HealthyRecord(S(), key);
    }

    /** One visit of the work list. */
    method Visit(key: Key, now: int)
      requires Valid() && key in records && Due(records[key], now)
      modifies this, queues, index.Repr
      ensures Valid() && fresh(index.Repr - old(index.Repr))
      ensures under == old(under) && behind <= old(behind)
      ensures OnlyRecords(old(S()), S()) && records == old(records)[key := Visited(old(records[key]), now)]
      ensures Reaches(old(S()), S(), true)
    {
      hide Valid, Reaches;
      ghost var s0, r0 := S(), records[key];
      ReachesItself(s0, true);
      if EffectReached(records[key], now) {
        Tick(key, Revoked);
        return;
      }
      if Opens(records[key], now) {
        Tick(key, Active);
      }
      ghost var s1 := S();
      assert records[key] == Opened(r0, now);
      Close(key, now);
      ReachesJoin(s0, s1, S(), true);
    }

    /** Ends a record whose window is over. */
    method Close(key: Key, now: int)
      requires Valid() && key in records
      modifies this, queues, index.Repr
      ensures Valid() && fresh(index.Repr - old(index.Repr)) && Reaches(old(S()), S(), true)
      ensures under == old(under) && behind <= old(behind)
      ensures OnlyRecords(old(S()), S())
      ensures var r := old(records[key]);
              records == old(records)[key := if Elapsed(r, now) then r.(state := Closing(r)) else r]
    {
      hide Valid, Reaches;
      ReachesItself(S(), true);
      if records[key].Consumes() {
        var window := records[key].Window();
        if window.Empty() || window.end <= now {
          var target := if records[key].state == RecallPending then Revoked else Expired;
          Tick(key, target);
        }
      }
    }

    /** Brings every record and hold up to `now`, in the order of the work list. */
    method Reconcile(now: int)
      requires Valid()
      modifies this, queues, index.Repr
      ensures Valid() && fresh(index.Repr - old(index.Repr))
      ensures under == old(under) && behind <= old(behind)
      ensures TimePassed(old(S()), S(), now)
      ensures Reaches(old(S()), S(), true)
    {
      hide Valid, Reaches, HoldsReleased, DueVisited, Lapsed, TimePassed;
      ghost var s0 := S();
      VisitDue(now);
      ghost var s1 := S();
      var expired := Lapsed(holds, now);
      ReleaseHolds(expired);
      PassTime(s0, s1, expired, now);
      DropReaches(s0, s1, expired);
    }

    method VisitDue(now: int)
      requires Valid()
      modifies this, queues, index.Repr
      ensures Valid() && fresh(index.Repr - old(index.Repr))
      ensures under == old(under) && behind <= old(behind)
      ensures DueVisited(old(S()), S(), now) && Reaches(old(S()), S(), true)
    {
      hide Valid, Reaches, WorkOf, PartlyReconciled, OnlyRecords, DueVisited;
      ghost var s0 := S();
      var work := Worklist(now);
      VisitAll(work, now);
      VisitedAll(s0, S(), work, now);
    }

    method VisitAll(work: seq<Key>, now: int)
      requires Valid() && WorkOf(work, records, now)
      modifies this, queues, index.Repr
      ensures Valid() && fresh(index.Repr - old(index.Repr))
      ensures under == old(under) && behind <= old(behind)
      ensures OnlyRecords(old(S()), S()) && PartlyReconciled(old(records), records, work, now)
      ensures work == [] ==> S() == old(S())
      ensures Reaches(old(S()), S(), true)
    {
      hide Valid, Reaches, Due, Visited, PartlyReconciled, OnlyRecords, Ascending;
      ghost var s0 := S();
      ReachesItself(s0, true);
      NoneVisited(s0, now);
      assert work[..0] == [];
      var i := 0;
      while i < |work|
        invariant i <= |work| && Valid() && fresh(index.Repr - old(index.Repr))
        invariant under == old(under) && behind <= old(behind)
        invariant OnlyRecords(s0, S()) && PartlyReconciled(s0.records, records, work[..i], now)
        invariant Reaches(s0, S(), true) && (work == [] ==> S() == s0)
      {
        assert work[i] in work;
        VisitedOne(s0.records, records, work, i, Reconciled(s0.records[work[i]], now), now);
        ghost var s1 := S();
        Visit(work[i], now);
        OnlyRecordsJoin(s0, s1, S());
        ReachesJoin(s0, s1, S(), true);
        i := i + 1;
      }
      assert work[..i] == work;
    }

    method Worklist(now: int) returns (work: seq<Key>)
      requires Valid()
      ensures WorkOf(work, records, now)
    {
      work := queues.WorkList(now, records);
    }

    // -------------------------------------------------------------------------
    // Lifecycle requests
    // -------------------------------------------------------------------------

    /** A requested end of a live record, remembered under its attempt. */
    method Conclude(key: Key, to: ReservationState, attempt: Identity)
      requires Valid() && CanMove(S(), key, to, 0) && to != RecallPending
      modifies this, queues, index.Repr
      ensures Valid() && fresh(index.Repr - old(index.Repr))
      ensures under == old(under) && behind <= old(behind)
      ensures S() == Remembered(Transitioned(old(S()), Requested(attempt, key, to, 0)),
                                TransitionAttempt(attempt, key, to))
    {
      hide Valid, S, CanMove, Transitioned, Remembered;
      CurrentWhileLive(key, to);
      Transition(key, to, 0, Some(TransitionAttempt(attempt, key, to)));
      Remember(TransitionAttempt(attempt, key, to));
    }

    /** A live record ends; the run that leads there is tame. */
    method End(key: Key, to: ReservationState, attempt: Identity, ghost tame: bool)
      requires Valid() && CanMove(S(), key, to, 0) && (to == Released || to == Revoked)
      modifies this, queues, index.Repr
      ensures Valid() && fresh(index.Repr - old(index.Repr)) && Reaches(old(S()), S(), tame)
      ensures under == old(under) && behind <= old(behind)
      ensures Applicable(old(S()), Requested(attempt, key, to, 0))
      ensures S() == Written(old(S()), Requested(attempt, key, to, 0))
      ensures key in old(records) && key in records && records[key] == old(records[key]).(state := to)
    {
      hide Valid, Reaches, Written, Applicable;
      ghost var s0 := S();
      ConcludeReaches(s0, key, to, attempt);
      if !tame { ReachesLoosely(s0, Written(s0, Requested(attempt, key, to, 0))); }
      Conclude(key, to, attempt);
      ConcludedRecord(s0, Requested(attempt, key, to, 0));
    }

    method Release(attempt: Identity, claimant: Identity, generation: nat, key: Key, now: int)
      returns (answer: Answer, ghost settled: State)
      requires Valid()
      modifies this, queues, index.Repr
      ensures Valid() && fresh(index.Repr - old(index.Repr)) && Reaches(old(S()), S(), true)
      ensures under == old(under) && behind <= old(behind)
      ensures var objection := ReleaseObjection(old(S()), key, claimant, generation);
              if objection.Some? then answer == Denied(objection.value) && S() == old(S())
              else
                && TimePassed(if claimant == 0 then old(S()) else ClaimantEnsured(old(S()), claimant, generation),
                              settled, now)
                && EndsAs(settled, S(), key, Released, attempt, answer)
    {
      hide Valid, Reaches, TimePassed, ClaimantEnsured, Written, Applicable;
      ghost var s0 := S();
      settled := s0;
      ReachesItself(s0, true);
      if key !in records { return Denied(UnknownRecord), settled; }
      if claimant != 0 && claimant != records[key].terms.claimant { return Denied(NotOwner), settled; }
      if claimant != 0 {
        var ok := EnsureClaimant(claimant, generation);
        if !ok { return Denied(FencedClaimant), settled; }
        EnsuredRecords(s0, claimant, generation);
      }
      ghost var s1 := S();
      Reconcile(now);
      settled := S();
      PassedKeys(s1, settled, now);
      ReachesJoin(s0, s1, settled, true);
      answer := ReleaseSettled(attempt, key);
      ReachesJoin(s0, settled, S(), true);
    }

    method ReleaseSettled(attempt: Identity, key: Key) returns (answer: Answer)
      requires Valid() && key in records
      modifies this, queues, index.Repr
      ensures Valid() && fresh(index.Repr - old(index.Repr)) && Reaches(old(S()), S(), true)
      ensures under == old(under) && behind <= old(behind)
      ensures EndsAs(old(S()), S(), key, Released, attempt, answer)
    {
      hide Valid, Reaches, Written, Applicable;
      ReachesItself(S(), true);
      if records[key].state == Released { return Done(records[key], true); }
      if IsTerminal(records[key].state) { return Denied(IllegalTransition); }
      End(key, Released, attempt, true);
      answer := Done(records[key], false);
    }

    method Revoke(attempt: Identity, key: Key, now: int) returns (answer: Answer, ghost settled: State)
      requires Valid()
      modifies this, queues, index.Repr
      ensures Valid() && fresh(index.Repr - old(index.Repr)) && Reaches(old(S()), S(), true)
      ensures under == old(under) && behind <= old(behind)
      ensures if key !in old(records) then answer == Denied(UnknownRecord) && S() == old(S())
              else TimePassed(old(S()), settled, now) && RevokesAs(settled, S(), key, attempt, answer)
    {
      hide Valid, Reaches, TimePassed, Written, Applicable;
      ghost var s0 := S();
      settled := s0;
      ReachesItself(s0, true);
      if key !in records { return Denied(UnknownRecord), settled; }
      Reconcile(now);
      settled := S();
      PassedKeys(s0, settled, now);
      answer := RevokeSettled(attempt, key);
      ReachesJoin(s0, settled, S(), true);
    }

    method RevokeSettled(attempt: Identity, key: Key) returns (answer: Answer)
      requires Valid() && key in records
      modifies this, queues, index.Repr
      ensures Valid() && fresh(index.Repr - old(index.Repr)) && Reaches(old(S()), S(), true)
      ensures under == old(under) && behind <= old(behind)
      ensures RevokesAs(old(S()), S(), key, attempt, answer)
    {
      hide Valid, Reaches, Written, Applicable;
      ReachesItself(S(), true);
      if attempt in attempts { return Done(records[key], true); }
      if records[key].state == Revoked { return Done(records[key], true); }
      if !records[key].Consumes() { return Denied(IllegalTransition); }
      End(key, Revoked, attempt, true);
      answer := Done(records[key], false);
    }

    /** The grace becomes part of the record and of its index entries. */
    method SetGrace(key: Key, grace: int)
      requires Valid() && key in records && !IsTerminal(records[key].state)
      modifies this, queues, index.Repr
      ensures Valid() && fresh(index.Repr - old(index.Repr))
      ensures under == old(under) && behind <= old(behind)
      ensures S() == WithGrace(old(S()), key, grace)
    {
      hide Consistent, AlignedNow, CapacityIndex.Valid, Healthy, DeadlineQueues.Exact, DeadlineQueues.ExactBut,
           MixedBut, Settled, Aligned, WithGrace, SameEntries, S;
      RecordsOfState();
      ghost var s0, was, against := S(), records[key], if key.id in behind then under(key.id) else ledger;
      ValidHealthy();
      GraceRewrites(s0, key, grace);
      Rewrite(key, records[key].(grace := grace), []);
      RecordsOfState();
      Settle(key, true, was, against, under, behind);
      RecordsOfState();
      behind := behind - {key.id};
      StaysAligned();
    }

    method Pend(key: Key, effect: int, grace: int, attempt: Identity)
      requires Valid() && CanMove(S(), key, RecallPending, effect)
      modifies this, queues, index.Repr
      ensures Valid() && fresh(index.Repr - old(index.Repr))
      ensures under == old(under) && behind <= old(behind)
      ensures var d := Requested(attempt, key, RecallPending, effect);
              S() == Remembered(WithGrace(Transitioned(old(S()), d), key, grace), d.attempt.value)
    {
      hide Valid, CanMove, Remembered, WithGrace;
      CurrentWhilePending(key, effect);
      Transition(key, RecallPending, effect, Some(TransitionAttempt(attempt, key, RecallPending)));
      SetGrace(key, grace);
      Remember(TransitionAttempt(attempt, key, RecallPending));
    }

    lemma CurrentWhilePending(key: Key, effect: int)
      requires Valid() && CanMove(S(), key, RecallPending, effect)
      ensures key.id in current && current[key.id] == key.generation && key in records
    {
      hide Healthy, CapacityIndex.Valid, InMix, DeadlineQueues.Exact;
      HealthyRecord(S(), key);
    }

    method Recall(attempt: Identity, key: Key, effectiveAt: int, grace: int, force: bool, policy: Policy, now: int)
      returns (answer: Answer, ghost settled: State)
      requires Valid() && 0 <= now
      modifies this, queues, index.Repr
      ensures Valid() && fresh(index.Repr - old(index.Repr))
      ensures under == old(under) && behind <= old(behind)
      ensures var asked := AskedEffect(effectiveAt, force, now);
              if key !in old(records) then answer == Denied(UnknownRecord) && S() == old(S())
              else if attempt in old(attempts) then answer == Done(old(records[key]), true) && S() == old(S())
              else
                && TimePassed(old(S()), settled, now)
                && RecallsAs(settled, S(), key, policy, asked, grace, attempt, now, answer)
                && Reaches(old(S()), settled, true)
                && Reaches(settled, S(), key in settled.records &&
                           Shortens(settled, key, HeldEffect(settled.records[key], asked),
                                    EffectiveGrace(grace, policy)))
    {
      hide Valid, Reaches, TimePassed, Written, Applicable, Shortens, Next, Enabled, CanMove;
      ghost var s0 := S();
      settled := s0;
      if key !in records { return Denied(UnknownRecord), settled; }
      if attempt in attempts { return Done(records[key], true), settled; }
      Reconcile(now);
      settled := S();
      PassedKeys(s0, settled, now);
      answer := RecallSettled(attempt, key, AskedEffect(effectiveAt, force, now), EffectiveGrace(grace, policy),
                              grace, policy, now);
    }

    method RecallSettled(attempt: Identity, key: Key, asked: int, effectiveGrace: int, ghost grace: int, policy: Policy,
                         now: int)
      returns (answer: Answer)
      requires Valid() && 0 <= now && key in records && effectiveGrace == EffectiveGrace(grace, policy)
      modifies this, queues, index.Repr
      ensures Valid() && fresh(index.Repr - old(index.Repr))
      ensures under == old(under) && behind <= old(behind)
      ensures RecallsAs(old(S()), S(), key, policy, asked, grace, attempt, now, answer)
      ensures Reaches(old(S()), S(), Shortens(old(S()), key, HeldEffect(old(records[key]), asked), effectiveGrace))
    {
      hide Valid, Reaches, Written, Applicable, Shortens, Next, Enabled;
      ghost var s0 := S();
      ghost var tame := Shortens(s0, key, HeldEffect(records[key], asked), effectiveGrace);
      ReachesItself(s0, tame);
      var r := records[key];
      if !r.Consumes() { return Denied(IllegalTransition); }
      if !policy.PermitsRecall(r.terms) { return Denied(PolicyForbids); }
      if asked < now { return Denied(BadWindow); }
      var effect := asked;
      if r.terms.interval.end < effect {
        effect := r.terms.interval.end;
      }
      if r.state == RecallPending && r.recallAt == effect { return Done(r, true); }
      RecallTo(attempt, key, effect, effectiveGrace, grace, policy, now, tame);
      return Done(records[key], false);
    }

    /** Revokes at once when the effect has come, and otherwise leaves the record under recall. */
    method RecallTo(attempt: Identity, key: Key, effect: int, effectiveGrace: int, ghost grace: int, policy: Policy,
                    now: int, ghost tame: bool)
      requires Valid() && 0 <= now && key in records && records[key].Consumes()
      requires effect <= records[key].terms.interval.end && effectiveGrace == EffectiveGrace(grace, policy)
      requires tame ==> Shortens(S(), key, effect, effectiveGrace)
      modifies this, queues, index.Repr
      ensures Valid() && fresh(index.Repr - old(index.Repr)) && Reaches(old(S()), S(), tame) && key in old(records)
      ensures under == old(under) && behind <= old(behind)
      ensures key in records && records[key] == if effect <= now then old(records[key]).(state := Revoked)
                else old(records[key]).(state := RecallPending, recallAt := effect, grace := effectiveGrace)
      ensures effect <= now ==>
        && Applicable(old(S()), Requested(attempt, key, Revoked, 0))
        && S() == Written(old(S()), Requested(attempt, key, Revoked, 0))
      ensures now < effect ==>
        && Enabled(old(S()), RecallStep(key, effect, grace, policy, attempt))
        && S() == Next(old(S()), RecallStep(key, effect, grace, policy, attempt))
    {
      hide Valid, Reaches, Written, Applicable, Shortens, Next, Enabled;
      ghost var s0 := S();
      if !(now < effect) {
        End(key, Revoked, attempt, tame);
        return;
      }
      RecallComes(s0, key, effect, grace, policy, attempt);
      RecalledTo(s0, key, effect, grace, policy, attempt);
      ghost var s1 := Next(s0, RecallStep(key, effect, grace, policy, attempt));
      if !tame && Shortens(s0, key, effect, effectiveGrace) { ReachesLoosely(s0, s1); }
      Pend(key, effect, effectiveGrace, attempt);
    }

    // -------------------------------------------------------------------------
    // Admission
    // -------------------------------------------------------------------------

    /** An evaluation in progress: nothing changed but what was set aside in the index. */
    ghost predicate Trying(trial: Suspension)
      reads this, queues, index, index.Repr, trial
    {
      && Detached() && trial.index == index && trial.Valid() && !trial.kept
      && trial.original == Indexed(S(), under, behind)
      && Healthy(S()) && queues.Exact(records) && AlignedNow()
    }

    lemma TryingParts(trial: Suspension)
      requires Trying(trial)
      ensures index.Valid() && Healthy(S()) && Inv(S()) && Detached() && AlignedNow() && queues.Exact(records)
      ensures trial !in index.Repr
    {
    }

    method BeginTrial() returns (trial: Suspension)
      requires Valid()
      ensures fresh(trial) && Trying(trial) && index.contents == Indexed(S(), under, behind)
    {
      hide CapacityIndex.Valid, Healthy, DeadlineQueues.Exact, InMix, Aligned, Suspension.Valid, Indexed;
      IndexedUnique(index.contents, S(), under, behind);
      trial := new Suspension(index);
    }

    /** Whatever was set aside comes back. */
    method EndTrial(trial: Suspension)
      requires Trying(trial)
      modifies trial, index.Repr
      ensures unchanged(this)
      ensures Valid() && fresh(index.Repr - old(index.Repr)) && S() == old(S())
    {
      hide CapacityIndex.Valid, Healthy, DeadlineQueues.Exact, InMix, Aligned, Suspension.Valid, Indexed;
      trial.Leave();
      IndexedUnique(index.contents, S(), under, behind);
    }

    method SetHoldAside(trial: Suspension, id: Identity, ghost aside: set<Identity>)
      requires Trying(trial) && index.contents == Indexed(HoldsReleased(S(), aside), under, behind)
      modifies trial, index.Repr
      ensures unchanged(this)
      ensures Trying(trial) && fresh(index.Repr - old(index.Repr)) && S() == old(S())
      ensures index.contents == Indexed(HoldsReleased(S(), aside + {id}), under, behind)
    {
      hide CapacityIndex.Valid, Healthy, DeadlineQueues.Exact, Aligned, Suspension.Valid, Indexed, HoldsReleased,
           HeldKeys;
      HoldSetAside(S(), aside, id, under, behind);
      trial.Suspend(HolderKind.Hold, id, None);
    }

    /** Sets the named holds aside, or says why one of them cannot be consumed. */
    method SetHoldsAside(trial: Suspension, session: Identity, consume: seq<Identity>)
      returns (objection: Option<Failure>)
      requires Trying(trial) && index.contents == Indexed(S(), under, behind)
      modifies trial, index.Repr
      ensures unchanged(this)
      ensures Trying(trial) && fresh(index.Repr - old(index.Repr)) && S() == old(S())
      ensures objection == HoldsObjection(holds, session, consume)
      ensures objection == None ==> index.contents == Indexed(HoldsReleased(S(), SetOf(consume)), under, behind)
    {
      hide Trying, Indexed, HoldsReleased;
      ghost var s0 := S();
      ReleasedNone(s0);
      var i := 0;
      assert SetOf(consume[..0]) == {};
      while i < |consume|
        invariant i <= |consume| && Trying(trial) && fresh(index.Repr - old(index.Repr)) && S() == s0 && unchanged(this)
        invariant HoldsObjection(holds, session, consume) == HoldsObjection(holds, session, consume[i..])
        invariant index.contents == Indexed(HoldsReleased(s0, SetOf(consume[..i])), under, behind)
      {
        assert consume[i..][0] == consume[i] && consume[i..][1..] == consume[i + 1..];
        if consume[i] !in holds || holds[consume[i]].released { return Some(UnknownRecord); }
        if holds[consume[i]].session != session { return Some(NotOwner); }
        SetOfNext(consume, i);
        SetHoldAside(trial, consume[i], SetOf(consume[..i]));
        i := i + 1;
      }
      assert consume[..i] == consume && consume[i..] == [];
      return None;
    }

    method SetVictimAside(trial: Suspension, key: Key, ghost victims: seq<Key>, ghost consumed: set<Identity>)
      requires Trying(trial) && Victims(S(), victims) && Victims(S(), victims + [key])
      requires index.contents == Indexed(Cleared(S(), victims, consumed), under, behind)
      modifies trial, index.Repr
      ensures unchanged(this)
      ensures Trying(trial) && fresh(index.Repr - old(index.Repr)) && S() == old(S())
      ensures index.contents == old(index.contents) - HeldKeys(old(index.contents), Reservation, key.id,
                                                               Some(key.generation))
      ensures index.contents == Indexed(Cleared(S(), victims + [key], consumed), under, behind)
    {
      hide CapacityIndex.Valid, Healthy, DeadlineQueues.Exact, Aligned, Suspension.Valid, Indexed, Cleared, HeldKeys;
      VictimIs(S(), victims, key, consumed, under, behind);
      trial.Suspend(Reservation, key.id, Some(key.generation));
    }

    /** Sets one more candidate aside and assesses every window again. */
    method TryVictim(trial: Suspension, o: Order, e: IndexEntry, refs: seq<ResourceRef>, windows: seq<Interval>,
                     policy: Policy, victims: seq<Key>)
      returns (closed: bool)
      requires Trying(trial) && Victims(S(), victims) && Known(S(), victims)
      requires forall i :: 0 <= i < |windows| ==> ValidInterval(windows[i])
      requires index.contents == Indexed(Cleared(S(), victims, SetOf(o.consume)), under, behind)
      requires e.Key() in index.contents && index.contents[e.Key()] == e
               && Displaceable(e, o.terms.guarantee, policy, o.id)
      modifies trial, index.Repr
      ensures unchanged(this)
      ensures Trying(trial) && fresh(index.Repr - old(index.Repr)) && S() == old(S())
      ensures var more := victims + [Key(e.id, e.generation)];
              && Victims(S(), more) && Known(S(), more)
              && Outranked(S(), Key(e.id, e.generation), o.terms.guarantee, policy, o.id)
              && index.contents == Indexed(Cleared(S(), more, SetOf(o.consume)), under, behind)
              && (closed <==> Closes(S(), o, refs, windows, policy, more, under, behind))
      ensures index.contents == old(index.contents) - HeldKeys(old(index.contents), Reservation, e.id,
                                                               Some(e.generation))
    {
      hide CapacityIndex.Valid, Trying, Healthy, Indexed, Cleared, HeldKeys, AllCommittable, Victims, Known, Outranked,
           Verdict, SetOf;
      ghost var s0 := S();
      TryingParts(trial);
      CandidateIsLive(s0, victims, SetOf(o.consume), e, under, behind);
      CandidateOutranked(s0, victims, SetOf(o.consume), e, o.terms.guarantee, policy, o.id, under, behind);
      VictimsKnown(s0, victims + [Key(e.id, e.generation)]);
      SetVictimAside(trial, Key(e.id, e.generation), victims, SetOf(o.consume));
      TryingParts(trial);
      var outcome, at := AssessAll(index, ledger, overcommitted, refs, windows, o.terms.amount, policy,
                                   o.terms.headroom);
      VerdictsDecide(ledger, overcommitted, index.contents, refs, windows, o.terms.amount, policy, o.terms.headroom);
      return outcome == Outcome.Committable;
    }

    /** Displaces candidates of one resource, one at a time, until the request closes. */
    method Displace(trial: Suspension, o: Order, resource: ResourceName, failing: Interval, refs: seq<ResourceRef>,
                    windows: seq<Interval>, policy: Policy, limits: Limits, sofar: seq<Key>)
      returns (closed: bool, victims: seq<Key>)
      requires Trying(trial) && Victims(S(), sofar) && Known(S(), sofar) && |sofar| <= policy.maxVictims
      requires forall i :: 0 <= i < |windows| ==> ValidInterval(windows[i])
      requires index.contents == Indexed(Cleared(S(), sofar, SetOf(o.consume)), under, behind)
      requires NoneCloses(S(), o, refs, windows, policy, sofar, |sofar| + 1, under, behind)
      requires forall i :: 0 <= i < |sofar| ==> Outranked(S(), sofar[i], o.terms.guarantee, policy, o.id)
      modifies trial, index.Repr
      ensures unchanged(this)
      ensures Trying(trial) && fresh(index.Repr - old(index.Repr)) && S() == old(S())
      ensures Victims(S(), victims) && Known(S(), victims) && |victims| <= policy.maxVictims
      ensures forall i :: 0 <= i < |victims| ==> Outranked(S(), victims[i], o.terms.guarantee, policy, o.id)
      ensures index.contents == Indexed(Cleared(S(), victims, SetOf(o.consume)), under, behind)
      ensures Stretch(S(), o, policy, limits, failing, resource, sofar, victims,
                      !closed && |victims| < policy.maxVictims, under, behind)
      ensures NoneCloses(S(), o, refs, windows, policy, victims, |victims| + if closed then 0 else 1, under, behind)
      ensures closed ==> Closes(S(), o, refs, windows, policy, victims, under, behind)
    {
      hide *;
      ghost var s0 := S();
      TryingParts(trial);
      var candidates := PreemptionCandidates(index, resource, failing, o.terms.guarantee, policy, o.id, limits.scan);
      CandidateParts(candidates, index.contents, resource, failing, o.terms.guarantee, policy, o.id, limits.scan);
      ghost var keys := VictimKeys(candidates);
      victims := sofar;
      NobodyMore(sofar, keys);
      var i := 0;
      while i < |candidates| && |victims| < policy.maxVictims
        invariant i <= |candidates| && Trying(trial) && fresh(index.Repr - old(index.Repr)) && S() == s0
                  && unchanged(this)
        invariant Victims(s0, victims) && Known(s0, victims) && victims == sofar + keys[..i]
                  && |victims| <= policy.maxVictims
        invariant forall j :: 0 <= j < |victims| ==> Outranked(s0, victims[j], o.terms.guarantee, policy, o.id)
        invariant index.contents == Indexed(Cleared(s0, victims, SetOf(o.consume)), under, behind)
        invariant NoneCloses(s0, o, refs, windows, policy, victims, |victims| + 1, under, behind)
        invariant forall j :: i <= j < |candidates| ==>
          candidates[j].Key() in index.contents && index.contents[candidates[j].Key()] == candidates[j]
      {
        OthersRemain(index.contents, candidates, i, resource);
        ghost var k := NextKey(sofar, candidates, i);
        StillNoneCloses(s0, o, refs, windows, policy, victims, k, under, behind);
        closed := TryVictim(trial, o, candidates[i], refs, windows, policy, victims);
        victims := victims + [Key(candidates[i].id, candidates[i].generation)];
        i := i + 1;
        if closed {
          StretchIs(s0, o, policy, limits, failing, resource, candidates, sofar, i, false, under, behind);
          return;
        }
      }
      StretchIs(s0, o, policy, limits, failing, resource, candidates, sofar, i, |victims| < policy.maxVictims, under,
                behind);
      return false, victims;
    }

    /** Resource by resource, victim by victim, until every window closes or the policy's bound is met. */
    method Preempt(trial: Suspension, o: Order, failing: Interval, refs: seq<ResourceRef>, windows: seq<Interval>,
                   policy: Policy, limits: Limits)
      returns (closed: bool, victims: seq<Key>)
      requires Trying(trial) && forall i :: 0 <= i < |windows| ==> ValidInterval(windows[i])
      requires index.contents == Indexed(HoldsReleased(S(), SetOf(o.consume)), under, behind) && 0 < policy.maxVictims
      requires NoneCloses(S(), o, refs, windows, policy, [], 1, under, behind)
      modifies trial, index.Repr
      ensures unchanged(this)
      ensures Trying(trial) && fresh(index.Repr - old(index.Repr)) && S() == old(S())
      ensures Victims(S(), victims) && Known(S(), victims)
      ensures forall i :: 0 <= i < |victims| ==> Outranked(S(), victims[i], o.terms.guarantee, policy, o.id)
      ensures index.contents == Indexed(Cleared(S(), victims, SetOf(o.consume)), under, behind)
      ensures Sought(S(), o, refs, windows, policy, limits, failing, victims, closed, under, behind)
    {
      hide *;
      ghost var s0 := S();
      NobodyYet(s0, SetOf(o.consume));
      NobodySought(s0, o, refs, policy, limits, failing, under, behind);
      victims, closed := [], false;
      ghost var cuts: seq<nat> := [0];
      var i := 0;
      while i < |refs| && |victims| < policy.maxVictims
        invariant i <= |refs| && |cuts| == i + 1 && !closed
        invariant Trying(trial) && fresh(index.Repr - old(index.Repr)) && S() == s0 && unchanged(this)
        invariant Victims(s0, victims) && Known(s0, victims) && |victims| <= policy.maxVictims
        invariant forall j :: 0 <= j < |victims| ==> Outranked(s0, victims[j], o.terms.guarantee, policy, o.id)
        invariant index.contents == Indexed(Cleared(s0, victims, SetOf(o.consume)), under, behind)
        invariant NoneCloses(s0, o, refs, windows, policy, victims, |victims| + 1, under, behind)
        invariant Stretches(s0, o, refs, policy, limits, failing, victims, cuts, |victims| < policy.maxVictims, under,
                            behind)
      {
        ghost var sofar := victims;
        closed, victims := Displace(trial, o, refs[i].resource, failing, refs, windows, policy, limits, victims);
        StretchesMore(s0, o, refs, policy, limits, failing, sofar, cuts, victims,
                      !closed && |victims| < policy.maxVictims, under, behind);
        cuts := cuts + [|victims|];
        i := i + 1;
        if closed {
          SoughtSo(s0, o, refs, windows, policy, limits, failing, victims, true, cuts, under, behind);
          return;
        }
      }
      SoughtSo(s0, o, refs, windows, policy, limits, failing, victims, false, cuts, under, behind);
    }

    /** Revokes the victims' records; their entries were set aside before. */
    method RevokeVictims(victims: seq<Key>)
      requires Detached() && index.Valid() && queues.Exact(records)
      requires Keyed(index.contents) && Representable(index.contents)
      requires forall i :: 0 <= i < |victims| ==> Cleanly(records, victims[i], index.contents)
      modifies this`records, queues, index.Repr
      ensures Detached() && index.Valid() && fresh(index.Repr - old(index.Repr))
      ensures index.contents == old(index.contents) && queues.Exact(records)
      ensures Known(old(S()), victims) && S() == RevokedAll(old(S()), victims)
    {
      hide CapacityIndex.Valid, DeadlineQueues.Exact, DeadlineQueues.ExactBut, Keyed, Representable, RevokedAll,
           Cleanly;
      ghost var s0 := S();
      CleanlyKnown(s0, victims, index.contents);
      var i := 0;
      while i < |victims|
        invariant i <= |victims| && Detached() && index.Valid() && fresh(index.Repr - old(index.Repr))
        invariant index.contents == old(index.contents) && queues.Exact(records)
        invariant forall j :: 0 <= j < |victims| ==> Cleanly(records, victims[j], index.contents)
        invariant S() == s0.(records := records) && Known(S(), victims[i..])
        invariant RevokedAll(S(), victims[i..]) == RevokedAll(s0, victims)
      {
        assert victims[i..][0] == victims[i] && victims[i..][1..] == victims[i + 1..];
        RevokedNext(S(), victims[i..]);
        RevokeOne(victims[i], victims);
        i := i + 1;
      }
      assert victims[i..] == [];
      RevokedNext(S(), victims[i..]);
    }

    method RevokeOne(key: Key, ghost victims: seq<Key>)
      requires Detached() && index.Valid() && queues.Exact(records)
      requires Keyed(index.contents) && Representable(index.contents) && Cleanly(records, key, index.contents)
      requires forall i :: 0 <= i < |victims| ==> Cleanly(records, victims[i], index.contents)
      modifies this`records, queues, index.Repr
      ensures Detached() && index.Valid() && fresh(index.Repr - old(index.Repr))
      ensures index.contents == old(index.contents) && queues.Exact(records)
      ensures forall i :: 0 <= i < |victims| ==> Cleanly(records, victims[i], index.contents)
      ensures records == old(records)[key := old(records[key]).(state := Revoked)]
    {
      hide CapacityIndex.Valid, DeadlineQueues.Exact, DeadlineQueues.ExactBut, Keyed, Representable, SyncReady, Settled;
      ghost var before := records;
      var r := records[key].(state := Revoked);
      records := records[key := r];
      RevokedReady(index.contents, ledger, r);
      var synced := SettleIndex(index, ledger, r);
      StillScheduled(before, key, r);
      queues.Sync(r, records);
    }

    /** Files the new records and indexes each of them. */
    method RegisterMembers(ms: seq<Record>, ghost goal: State)
      requires Detached() && index.Valid() && queues.Exact(records) && DistinctIds(ms)
      requires Keyed(Indexed(goal, under, behind)) && Representable(Indexed(goal, under, behind))
               && ledger == goal.ledger
      requires index.contents == Lacking(Indexed(goal, under, behind), IdsFrom(ms, 0))
      requires forall i :: 0 <= i < |ms| ==> Arrives(goal, ms[i]) && ms[i].id !in behind
      modifies this`records, this`current, queues, index.Repr
      ensures Detached() && index.Valid() && fresh(index.Repr - old(index.Repr))
      ensures index.contents == Indexed(goal, under, behind) && queues.Exact(records)
      ensures S() == RegisteredAll(old(S()), ms)
    {
      hide CapacityIndex.Valid, DeadlineQueues.Exact, Keyed, Representable, RegisteredAll, Arrives, Indexed, Lacking,
           IdsFrom, DistinctIds, Registered;
      ghost var s0 := S();
      var i := 0;
      assert ms[0..] == ms;
      while i < |ms|
        invariant i <= |ms| && Detached() && index.Valid() && fresh(index.Repr - old(index.Repr))
        invariant index.contents == Lacking(Indexed(goal, under, behind), IdsFrom(ms, i)) && queues.Exact(records)
        invariant RegisteredAll(S(), ms[i..]) == RegisteredAll(s0, ms) && S().ledger == goal.ledger
      {
        assert ms[i..][0] == ms[i] && ms[i..][1..] == ms[i + 1..];
        RegisteredNext(S(), ms[i..]);
        RegisterMember(ms, i, goal);
        i := i + 1;
      }
      assert ms[i..] == [];
      RegisteredNext(S(), ms[i..]);
      LackingAtEnd(Indexed(goal, under, behind), ms);
    }

    method RegisterMember(ms: seq<Record>, i: nat, ghost goal: State)
      requires Detached() && index.Valid() && queues.Exact(records) && DistinctIds(ms) && i < |ms|
      requires Keyed(Indexed(goal, under, behind)) && Representable(Indexed(goal, under, behind))
               && ledger == goal.ledger
      requires index.contents == Lacking(Indexed(goal, under, behind), IdsFrom(ms, i)) && Arrives(goal, ms[i])
               && ms[i].id !in behind
      modifies this`records, this`current, queues, index.Repr
      ensures Detached() && index.Valid() && fresh(index.Repr - old(index.Repr))
      ensures index.contents == Lacking(Indexed(goal, under, behind), IdsFrom(ms, i + 1)) && queues.Exact(records)
      ensures S() == Registered(old(S()), ms[i])
    {
      hide CapacityIndex.Valid, DeadlineQueues.Exact, DeadlineQueues.ExactBut, Keyed, Representable, Indexed, Lacking,
           IdsFrom, DistinctIds, SyncReady, Settled;
      ghost var before := records;
      var r := ms[i];
      MemberSettles(goal, ms, i, under, behind);
      LackingPart(Indexed(goal, under, behind), IdsFrom(ms, i + 1));
      records := records[r.KeyOf() := r];
      if r.id !in current || r.generation > current[r.id] {
        current := current[r.id := r.generation];
      }
      var synced := SettleIndex(index, ledger, r);
      StillScheduled(before, r.KeyOf(), r);
      queues.Sync(r, records);
    }

    method ConsumeHolds(consume: seq<Identity>)
      modifies `holds
      ensures S() == HoldsReleased(old(S()), SetOf(consume))
    {
      hide HoldsReleased;
      ghost var s0 := S();
      ReleasedNone(s0);
      assert SetOf(consume[..0]) == {};
      var i := 0;
      while i < |consume|
        invariant i <= |consume| && S() == HoldsReleased(s0, SetOf(consume[..i]))
      {
        SetOfNext(consume, i);
        ReleasedMore(s0, SetOf(consume[..i]), {consume[i]});
        ReleasedNothing(S(), consume[i]);
        if consume[i] in holds {
          holds := holds[consume[i] := holds[consume[i]].(released := true)];
        }
        i := i + 1;
      }
      assert consume[..i] == consume;
    }

    /** The durable record first, then the projection: victims, members, series, attempt, holds. */
    method Commit(trial: Suspension, d: DurableRecord, consume: seq<Identity>, ghost allowance: nat)
      requires Trying(trial) && CanAdmit(S(), d, SetOf(consume), allowance) && Victims(S(), d.companions)
      requires index.contents == Indexed(Cleared(S(), d.companions, SetOf(consume)), under, behind)
      requires RoomToBind(S(), NamesOf(d.record.refs), |Members(d)| * d.record.terms.amount)
      modifies this, queues, index.Repr, trial
      ensures under == old(under) && behind == old(behind)
      ensures Valid() && fresh(index.Repr - old(index.Repr))
      ensures S() == Next(old(S()), Admit(d, SetOf(consume), allowance))
    {
      hide CapacityIndex.Valid, Suspension.Valid, DeadlineQueues.Exact, Healthy, InMix, Aligned, CanAdmit, Victims,
           Indexed, RoomToBind, RegisteredAll, RevokedAll, Remembered, HoldsReleased, Next, Cleanly, Arrives, Lacking,
           Keyed, Representable, NamesOf, IdsFrom, Known;
      ghost var s0, goal := CommitPlan(trial, d, SetOf(consume), allowance);
      journal := journal + [d];
      EnterAll(d, goal);
      Finish(d, consume);
      trial.Keep();
      IndexedUnique(index.contents, S(), under, behind);
    }

    /** Revokes the victims and files the members. */
    method EnterAll(d: DurableRecord, ghost goal: State)
      requires Detached() && index.Valid() && queues.Exact(records) && d.ReservationMutation? && DistinctIds(Members(d))
      requires Keyed(index.contents) && Representable(index.contents) && ledger == goal.ledger
      requires Keyed(Indexed(goal, under, behind)) && Representable(Indexed(goal, under, behind))
      requires index.contents == Lacking(Indexed(goal, under, behind), IdsFrom(Members(d), 0))
      requires forall i :: 0 <= i < |d.companions| ==> Cleanly(records, d.companions[i], index.contents)
      requires forall i :: 0 <= i < |Members(d)| ==> Arrives(goal, Members(d)[i]) && Members(d)[i].id !in behind
      modifies this`records, this`current, queues, index.Repr
      ensures Detached() && index.Valid() && fresh(index.Repr - old(index.Repr))
      ensures index.contents == Indexed(goal, under, behind) && queues.Exact(records)
      ensures Known(old(S()), d.companions)
      ensures S() == RegisteredAll(RevokedAll(old(S()), d.companions), Members(d))
    {
      hide CapacityIndex.Valid, DeadlineQueues.Exact, Keyed, Representable, RegisteredAll, RevokedAll, Arrives,
           Indexed, Lacking, IdsFrom, DistinctIds, Cleanly, Known;
      RevokeVictims(d.companions);
      RegisterMembers(Members(d), goal);
    }

    method Finish(d: DurableRecord, consume: seq<Identity>)
      requires d.ReservationMutation? && d.attempt.Some?
      modifies `series, `attempts, `attemptOrder, `holds
      ensures S() == HoldsReleased(Remembered(Grouped(old(S()), d), d.attempt.value), SetOf(consume))
    {
      hide Grouped, Remembered, HoldsReleased, SetOf;
      GroupMembers(d);
      NoteAttempt(d.attempt.value);
      ConsumeHolds(consume);
    }

    method GroupMembers(d: DurableRecord)
      requires d.ReservationMutation?
      modifies `series
      ensures S() == Grouped(old(S()), d)
    {
      if d.seriesId.Some? {
        series := series[d.seriesId.value := IdsOf([d.record] + d.members)];
      }
    }

    /** Everything a commit relies on, gathered before anything is written. */
    ghost method CommitPlan(trial: Suspension, d: DurableRecord, consumed: set<Identity>, allowance: nat)
      returns (s0: State, goal: State)
      requires Trying(trial) && CanAdmit(S(), d, consumed, allowance) && Victims(S(), d.companions)
      requires index.contents == Indexed(Cleared(S(), d.companions, consumed), under, behind)
      requires RoomToBind(S(), NamesOf(d.record.refs), |Members(d)| * d.record.terms.amount)
      ensures s0 == S() && goal == Next(S(), Admit(d, consumed, allowance))
      ensures Detached() && index.Valid() && queues.Exact(records) && trial !in index.Repr
      ensures d.ReservationMutation? && d.attempt.Some?
      ensures Healthy(goal) && Aligned(goal.ledger, goal.records, behind) && behind <= goal.current.Keys
              && goal.ledger == ledger
      ensures Keyed(Indexed(goal, under, behind)) && Representable(Indexed(goal, under, behind))
              && Keyed(index.contents) && Representable(index.contents)
      ensures index.contents == Lacking(Indexed(goal, under, behind), IdsFrom(Members(d), 0)) && DistinctIds(Members(d))
      ensures forall i :: 0 <= i < |d.companions| ==> Cleanly(records, d.companions[i], index.contents)
      ensures forall i :: 0 <= i < |Members(d)| ==> Arrives(goal, Members(d)[i]) && Members(d)[i].id !in behind
      ensures var s1 := S().(journal := S().journal + [d]);
              && Known(s1, d.companions)
              && HoldsReleased(Remembered(Grouped(RegisteredAll(RevokedAll(s1, d.companions), Members(d)), d),
                                          d.attempt.value), consumed) == goal
    {
      hide CapacityIndex.Valid, Suspension.Valid, DeadlineQueues.Exact, Aligned, CanAdmit, Victims, Indexed,
           RoomToBind, RegisteredAll, RevokedAll, Remembered, HoldsReleased, Next, Cleanly, Arrives, Lacking, Keyed,
           Representable, NamesOf, IdsFrom, Healthy, Trying;
      s0 := S();
      TryingParts(trial);
      AlignedParts();
      AdmitBasics(s0, d, consumed, allowance);
      goal := Next(s0, Admit(d, consumed, allowance));
      AdmitHealthy(s0, d, consumed, allowance);
      AdmitAligned(s0, d, consumed, allowance, behind);
      AdmitBase(s0, d, consumed, allowance, under, behind);
      LiveAdmits(s0, d, consumed, allowance);
      AdmitParts(s0, d, consumed, allowance);
      HealthyIndexed(goal, under, behind);
      LackingPart(Indexed(goal, under, behind), IdsFrom(Members(d), 0));
      forall i | 0 <= i < |d.companions| ensures Cleanly(records, d.companions[i], index.contents) {
        VictimClean(s0, d.companions, consumed, i, under, behind);
      }
      forall i | 0 <= i < |Members(d)| ensures Arrives(goal, Members(d)[i]) && Members(d)[i].id !in behind {
        AdmitArrives(s0, d, consumed, allowance, i);
        NewIsNotBehind(s0, d, consumed, allowance, i, behind);
      }
    }

    /** A refusal goes on record before it is remembered. */
    method NoteRefusal(a: Attempt)
      requires Valid() && a.id !in attempts && a.outcome != Outcome.Committable
      modifies `journal, `attempts, `attemptOrder
      ensures Valid() && Enabled(old(S()), Note(AttemptOutcome(a)))
      ensures S() == Next(old(S()), Note(AttemptOutcome(a))) && Reaches(old(S()), S(), true)
    {
      hide CapacityIndex.Valid, Healthy, DeadlineQueues.Exact, InMix, Aligned, Remembered, Reaches;
      ghost var s0 := S();
      journal := journal + [AttemptOutcome(a)];
      ghost var s1 := S();
      MixSame(index.contents, s0, s1, under, behind);
      HealthySame(s0, s1);
      JournalIrrelevant(s0, a, s1.journal);
      Remember(a);
      ReachesByStep(s0, Note(AttemptOutcome(a)), true);
    }

    method AssessTrial(trial: Suspension, o: Order, refs: seq<ResourceRef>, windows: seq<Interval>, policy: Policy)
      returns (outcome: Outcome, failing: nat)
      requires Trying(trial) && forall i :: 0 <= i < |windows| ==> ValidInterval(windows[i])
      ensures Trying(trial)
      ensures outcome == Outcome.Committable ==>
        AllCommittable(ledger, overcommitted, index.contents, refs, windows, o.terms.amount, policy, o.terms.headroom)
      ensures outcome != Outcome.Committable ==>
        && failing < |windows| && outcome == Verdict(ledger, overcommitted, index.contents, refs, windows[failing],
                                                     o.terms.amount, policy, o.terms.headroom)
        && AllCommittable(ledger, overcommitted, index.contents, refs, windows[..failing], o.terms.amount, policy,
                          o.terms.headroom)
    {
      hide CapacityIndex.Valid, Suspension.Valid, Trying, Healthy, DeadlineQueues.Exact, Aligned, AllCommittable,
           Verdict, S, Indexed;
      TryingParts(trial);
      outcome, failing := AssessAll(index, ledger, overcommitted, refs, windows, o.terms.amount, policy,
                                    o.terms.headroom);
    }

    /** Assesses the order with its holds set aside, and displaces if it does not close and may. */
    method Evaluate(trial: Suspension, o: Order, refs: seq<ResourceRef>, windows: seq<Interval>, policy: Policy,
                    limits: Limits, now: int)
      returns (closed: bool, outcome: Outcome, victims: seq<Key>)
      requires Trying(trial) && index.contents == Indexed(HoldsReleased(S(), SetOf(o.consume)), under, behind)
      requires forall i :: 0 <= i < |windows| ==> ValidInterval(windows[i])
      modifies trial, index.Repr
      ensures unchanged(this)
      ensures Trying(trial) && fresh(index.Repr - old(index.Repr)) && S() == old(S())
      ensures closed ==>
        && Entitled(S(), o, refs, windows, policy, limits, now, victims, under, behind)
        && Victims(S(), victims)
        && Known(S(), victims)
      ensures closed ==> index.contents == Indexed(Cleared(S(), victims, SetOf(o.consume)), under, behind)
      ensures !closed ==> Fails(S(), o, refs, windows, policy, limits, now, outcome, under, behind)
    {
      hide *;
      RecordsOfState();
      ghost var s0 := S();
      NobodyYet(s0, SetOf(o.consume));
      victims := [];
      var failing: nat;
      outcome, failing := AssessTrial(trial, o, refs, windows, policy);
      if outcome == Outcome.Committable {
        DirectlyEntitled(s0, o, refs, windows, policy, limits, now, under, behind);
        return true, outcome, victims;
      }
      FailsThere(s0, o, refs, windows, policy, outcome, failing, under, behind);
      FirstFailure(s0, o, refs, windows, policy, outcome, failing, under, behind);
      if !MayDisplace(o, policy, limits, now) {
        FailureFails(s0, o, refs, windows, policy, limits, now, outcome, failing, victims, under, behind);
        return false, outcome, victims;
      }
      DisplacingNeedsRoom(o, policy, limits, now);
      closed, victims := Preempt(trial, o, windows[failing], refs, windows, policy, limits);
      if closed {
        DisplacementEntitled(s0, o, refs, windows, policy, limits, now, victims, outcome, failing, under, behind);
        ClosedBy(s0, o, refs, windows, policy, limits, now, victims, under, behind);
      } else {
        FailureFails(s0, o, refs, windows, policy, limits, now, outcome, failing, victims, under, behind);
      }
    }

    /** Nothing is kept of an order that was turned away but the refusal, and not even that for a rehearsal. */
    method TurnAway(trial: Suspension, o: Order, outcome: Outcome)
      requires Trying(trial) && o.attempt !in attempts && outcome != Outcome.Committable
      modifies this, trial, index.Repr
      ensures under == old(under) && behind == old(behind)
      ensures Valid() && fresh(index.Repr - old(index.Repr)) && Reaches(old(S()), S(), true)
      ensures under == old(under) && behind <= old(behind)
      ensures if o.dryRun then S() == old(S())
              else Enabled(old(S()), Note(TurnDown(o, outcome))) && S() == Next(old(S()), Note(TurnDown(o, outcome)))
    {
      hide Trying, Valid, Reaches, Enabled, Next;
      ReachesItself(S(), true);
      EndTrial(trial);
      if !o.dryRun { NoteRefusal(Attempt(o.attempt, o.Fingerprint(), outcome, Key(o.id, 0))); }
    }

    method TryCreate(trial: Suspension, o: Order, refs: seq<ResourceRef>, windows: seq<Interval>, policy: Policy,
                     limits: Limits, now: int)
      returns (answer: CreateAnswer)
      requires Trying(trial) && index.contents == Indexed(HoldsReleased(S(), SetOf(o.consume)), under, behind)
      requires ValidTerms(o.terms) && o.Derived() && Tried(S(), o, policy, limits, now, refs, windows)
      requires Disjoint(windows) && RoomToBind(S(), NamesOf(refs), |o.Ids()| * o.terms.amount)
      modifies this, queues, index.Repr, trial
      ensures Valid() && fresh(index.Repr - old(index.Repr))
      ensures under == old(under) && behind <= old(behind)
      ensures CreatesAs(old(S()), S(), o, policy, limits, now, refs, windows, answer, under, behind)
      ensures Reaches(old(S()), S(), policy.Slack() == 0)
    {
      hide Trying, Valid, Indexed, Cleared, HoldsReleased, Victims, Known, Reaches, RoomToBind, Entitled, Closes,
           Fails, ValidTerms, Tried, CreatesAs, Enabled, Next, NamesOf, CanAdmit, MadeRecords, Members;
      ghost var s0 := S();
      TriedParts(s0, o, policy, limits, now, refs, windows);
      var closed, outcome, victims := Evaluate(trial, o, refs, windows, policy, limits, now);
      if !closed {
        FailureIsOne(s0, o, refs, windows, policy, limits, now, outcome, under, behind);
        TurnAway(trial, o, outcome);
        RefusalTame(s0, S(), policy);
        RejectedAs(s0, S(), o, policy, limits, now, refs, windows, outcome, under, behind);
        return TurnedAway(outcome);
      }
      if o.dryRun {
        EndTrial(trial);
        PreviewedAs(s0, o, policy, limits, now, refs, windows, victims, under, behind);
        ReachesItself(s0, policy.Slack() == 0);
        return Previewed(victims);
      }
      var members := MadeRecords(o.Ids(), o.terms, windows, refs, o.SeriesOf(), now);
      PlanReady(trial);
      PlanCreated(s0, o, policy, limits, now, refs, windows, members, victims, under, behind);
      Commit(trial, CommitRecord(o, members, victims), o.consume, policy.Slack());
      return Created(members, victims);
    }

    lemma PlanReady(trial: Suspension)
      requires Trying(trial)
      ensures Aligned(S().ledger, S().records, behind) && Sized(S())
    {
      hide CapacityIndex.Valid, Suspension.Valid, DeadlineQueues.Exact, Aligned, Indexed, Sized, Inv, Modest;
      InvSized(S());
    }

    /** Binding, expansion and the named holds: what must be in order before an order is tried. */
    method CreateSettled(o: Order, policy: Policy, limits: Limits, now: int)
      returns (answer: CreateAnswer, ghost refs: seq<ResourceRef>, ghost windows: seq<Interval>)
      requires Valid() && ValidTerms(o.terms) && o.Derived() && policy.maxSeriesMembers < 0x1_0000_0000
      requires RoomToBind(S(), o.terms.resources, o.Count() * o.terms.amount)
      modifies this, queues, index.Repr
      ensures Valid() && fresh(index.Repr - old(index.Repr))
      ensures under == old(under) && behind <= old(behind)
      ensures CreatesAs(old(S()), S(), o, policy, limits, now, refs, windows, answer, under, behind)
      ensures Reaches(old(S()), S(), policy.Slack() == 0)
    {
      hide Valid, Reaches, RoomToBind, CreatesAs, BoundTo, Expanded, Disjoint, AllLive, EarlyReason, Objection,
           OrderObjection, ValidTerms, HoldsObjection, Order.Derived;
      DerivedRange(o);
      ghost var s0 := S();
      ReachesItself(s0, policy.Slack() == 0);
      refs, windows := [], [];
      var early := EarlyObjection(o, policy, limits, now);
      if early.Some? {
        EarlyDecides(s0, o, policy, limits, now);
        NotCreatedAs(s0, o, policy, limits, now, refs, windows, early.value, under, behind);
        return NotCreated(early.value), refs, windows;
      }
      if o.attempt in attempts {
        EarlyDecides(s0, o, policy, limits, now);
        RepeatedAs(s0, o, policy, limits, now, refs, windows, under, behind);
        return Repeated(attempts[o.attempt]), refs, windows;
      }
      TermsInterval(o.terms);
      var bound, binding := ResolveBinding(ledger, o.terms.resources);
      if !bound {
        LateDecides(s0, o, policy, limits, now, Some(StaleBindings));
        NotCreatedAs(s0, o, policy, limits, now, refs, windows, StaleBindings, under, behind);
        return NotCreated(StaleBindings), refs, windows;
      }
      IntervalInRange(o.terms.interval);
      var expansion := ExpandSeries(o.terms.interval, o.terms.recurrence, policy.maxSeriesMembers);
      if expansion.Failed? {
        LateDecides(s0, o, policy, limits, now, Some(BadWindow));
        NotCreatedAs(s0, o, policy, limits, now, refs, windows, BadWindow, under, behind);
        return NotCreated(BadWindow), refs, windows;
      }
      refs, windows := binding, expansion.intervals;
      answer := CreateBound(o, binding, expansion.intervals, policy, limits, now);
    }

    /** The reasons that need neither a binding nor an expansion. */
    method EarlyObjection(o: Order, policy: Policy, limits: Limits, now: int) returns (objection: Option<Failure>)
      ensures objection == EarlyReason(S(), o, policy, limits, now)
    {
      hide AnyKnown, LiveKeys, Order.Fingerprint, PolicyForbidsTerms;
      var forbidden := Forbids(o.terms, policy, now);
      if forbidden { return Some(PolicyForbids); }
      if o.attempt in attempts {
        if attempts[o.attempt].fingerprint != o.Fingerprint() { return Some(Contradiction); }
        return None;
      }
      if o.id in current { return Some(Contradiction); }
      if o.terms.recurrence.enabled {
        var known := CheckMembers(o.memberIds);
        if known { return Some(Contradiction); }
      }
      if !o.dryRun && |LiveKeys(records)| >= limits.maxLive { return Some(Exhausted); }
      return None;
    }

    /** What the policy forbids whatever else is bound. */
    method Forbids(terms: Terms, policy: Policy, now: int) returns (forbidden: bool)
      ensures forbidden <==> PolicyForbidsTerms(terms, policy, now)
    {
      if !policy.allowPastStart && terms.interval.start < now { return true; }
      if policy.maxHorizon > 0 && terms.interval.start - now > policy.maxHorizon { return true; }
      if policy.minimumAmount > 0 && terms.amount < policy.minimumAmount { return true; }
      if policy.maxExtraHeadroom > 0 && terms.headroom > policy.maxExtraHeadroom { return true; }
      if terms.recurrence.enabled && terms.recurrence.count > policy.maxSeriesMembers { return true; }
      return false;
    }

    /** Whether a member's identity is taken already. */
    method CheckMembers(ids: seq<Identity>) returns (known: bool)
      ensures known <==> AnyKnown(current, ids)
    {
      var i := 0;
      while i < |ids|
        invariant i <= |ids|
        invariant forall j :: 0 <= j < i ==> ids[j] !in current
      {
        if ids[i] in current { return true; }
        i := i + 1;
      }
      return false;
    }

    method CreateBound(o: Order, refs: seq<ResourceRef>, windows: seq<Interval>, policy: Policy, limits: Limits,
                       now: int)
      returns (answer: CreateAnswer)
      requires Valid() && ValidTerms(o.terms) && o.Derived()
               && RoomToBind(S(), o.terms.resources, o.Count() * o.terms.amount)
      requires EarlyReason(S(), o, policy, limits, now) == None && o.attempt !in attempts
      requires AllLive(ledger, o.terms.resources)
               && Objection(o.terms.interval, o.terms.recurrence, policy.maxSeriesMembers) == None
      requires BoundTo(ledger, o.terms.resources, refs) && Expanded(o.terms.interval, o.terms.recurrence, windows)
      modifies this, queues, index.Repr
      ensures Valid() && fresh(index.Repr - old(index.Repr))
      ensures under == old(under) && behind <= old(behind)
      ensures CreatesAs(old(S()), S(), o, policy, limits, now, refs, windows, answer, under, behind)
      ensures Reaches(old(S()), S(), policy.Slack() == 0)
    {
      hide Valid, Trying, Reaches, RoomToBind, CreatesAs, Indexed, HoldsReleased, Tried, BoundTo, Expanded, Disjoint,
           Objection, EarlyReason, AllLive, ValidTerms, HoldsObjection, NamesOf;
      ghost var s0 := S();
      ReachesItself(s0, policy.Slack() == 0);
      var trial := BeginTrial();
      var objection := SetHoldsAside(trial, o.session, o.consume);
      LateDecides(s0, o, policy, limits, now, objection);
      if objection.Some? {
        EndTrial(trial);
        NotCreatedAs(s0, o, policy, limits, now, refs, windows, objection.value, under, behind);
        return NotCreated(objection.value);
      }
      ReadyToTry(s0, o, policy, limits, now, refs, windows);
      answer := TryCreate(trial, o, refs, windows, policy, limits, now);
    }

    /** Creates a reservation or a series, or says why not. */
    method Create(o: Order, policy: Policy, limits: Limits, now: int)
      returns (answer: CreateAnswer, ghost settled: State, ghost refs: seq<ResourceRef>, ghost windows: seq<Interval>)
      requires Valid() && o.Derived() && policy.maxSeriesMembers < 0x1_0000_0000
      requires RoomToBind(S(), o.terms.resources, o.Count() * o.terms.amount)
      modifies this, queues, index.Repr
      ensures Valid() && fresh(index.Repr - old(index.Repr))
      ensures under == old(under) && behind <= old(behind)
      ensures var objection := RequestObjection(old(S()), o);
              if objection.Some? then answer == NotCreated(objection.value) && S() == old(S())
              else
                && TimePassed(ClaimantEnsured(old(S()), o.terms.claimant, o.terms.claimantGeneration), settled, now)
                && CreatesAs(settled, S(), o, policy, limits, now, refs, windows, answer, under, behind)
      ensures Reaches(old(S()), S(), policy.Slack() == 0)
    {
      hide Valid, Reaches, RoomToBind, CreatesAs, TimePassed, ClaimantEnsured, ClaimantAccepted, ValidTerms, Healthy;
      ghost var s0, tame := S(), policy.Slack() == 0;
      settled, refs, windows := s0, [], [];
      ReachesItself(s0, tame);
      ValidHealthy();
      if !ValidTerms(o.terms) { return NotCreated(BadTerms), settled, refs, windows; }
      if o.claimant != 0 && o.claimant != o.terms.claimant { return NotCreated(NotOwner), settled, refs, windows; }
      answer, settled, refs, windows := CreateOwned(o, policy, limits, now);
    }

    /** The owner's request: its claimant is registered, time passes, and the order is tried. */
    method CreateOwned(o: Order, policy: Policy, limits: Limits, now: int)
      returns (answer: CreateAnswer, ghost settled: State, ghost refs: seq<ResourceRef>, ghost windows: seq<Interval>)
      requires Valid() && ValidTerms(o.terms) && o.Derived() && policy.maxSeriesMembers < 0x1_0000_0000
      requires RoomToBind(S(), o.terms.resources, o.Count() * o.terms.amount)
      modifies this, queues, index.Repr
      ensures Valid() && fresh(index.Repr - old(index.Repr)) && Reaches(old(S()), S(), policy.Slack() == 0)
      ensures under == old(under) && behind <= old(behind)
      ensures if !ClaimantAccepted(old(S()), o.terms.claimant, o.terms.claimantGeneration) then
                answer == NotCreated(FencedClaimant) && S() == old(S())
              else
                && TimePassed(ClaimantEnsured(old(S()), o.terms.claimant, o.terms.claimantGeneration), settled, now)
                && CreatesAs(settled, S(), o, policy, limits, now, refs, windows, answer, under, behind)
    {
      hide Valid, Reaches, RoomToBind, CreatesAs, TimePassed, ClaimantEnsured, ClaimantAccepted, ValidTerms, Healthy;
      ghost var s0, tame := S(), policy.Slack() == 0;
      refs, windows := [], [];
      ReachesItself(s0, tame);
      ValidHealthy();
      var ok;
      ok, settled := SettleFor(o.terms.claimant, o.terms.claimantGeneration, now);
      if !ok { return NotCreated(FencedClaimant), settled, refs, windows; }
      ValidHealthy();
      RefusalTame(s0, settled, policy);
      RoomStaysOpen(s0, o.terms.claimant, o.terms.claimantGeneration, settled, now, o.terms.resources,
                    o.Count() * o.terms.amount);
      answer, refs, windows := CreateSettled(o, policy, limits, now);
      ReachesJoin(s0, settled, S(), tame);
    }

    /** The claimant is put on record, then time is reconciled. */
    method SettleFor(claimant: Identity, generation: nat, now: int) returns (ok: bool, ghost settled: State)
      requires Valid()
      modifies this, queues, index.Repr
      ensures Valid() && fresh(index.Repr - old(index.Repr)) && Reaches(old(S()), S(), true)
      ensures under == old(under) && behind <= old(behind)
      ensures ok <==> ClaimantAccepted(old(S()), claimant, generation)
      ensures S() == settled
      ensures if ok then TimePassed(ClaimantEnsured(old(S()), claimant, generation), settled, now)
              else settled == old(S())
    {
      hide Valid, Reaches, TimePassed, ClaimantEnsured, ClaimantAccepted;
      ghost var s0 := S();
      settled := s0;
      ok := EnsureClaimant(claimant, generation);
      if ok {
        ghost var s1 := S();
        Reconcile(now);
        settled := S();
        ReachesJoin(s0, s1, settled, true);
      }
    }

    lemma ValidHealthy()
      requires Valid()
      ensures Healthy(S())
    {
    }

    // -------------------------------------------------------------------------
    // Succession
    // -------------------------------------------------------------------------

    /** An evaluation that may run while a ledger change is being worked through. */
    ghost predicate Weighing(trial: Suspension, before: Ledgers, pending: set<Identity>)
      reads this, queues, index, index.Repr, trial
    {
      && Detached() && trial.index == index && trial.Valid() && !trial.kept
      && InMix(trial.original, S(), before, pending)
      && Healthy(S()) && queues.Exact(records)
    }

    lemma WeighingParts(trial: Suspension, before: Ledgers, pending: set<Identity>)
      requires Weighing(trial, before, pending)
      ensures index.Valid() && Healthy(S()) && Detached() && queues.Exact(records) && trial !in index.Repr
      ensures InMix(trial.original, S(), before, pending) && trial.index == index
      ensures Keyed(trial.original) && Representable(trial.original)
    {
    }

    method BeginWeighing(ghost before: Ledgers, ghost pending: set<Identity>) returns (trial: Suspension)
      requires Consistent(before, pending)
      ensures fresh(trial) && Weighing(trial, before, pending) && index.contents == trial.original
    {
      hide CapacityIndex.Valid, Healthy, DeadlineQueues.Exact, InMix, Suspension.Valid;
      trial := new Suspension(index);
    }

    method EndWeighing(trial: Suspension, ghost before: Ledgers, ghost pending: set<Identity>)
      requires Weighing(trial, before, pending)
      modifies trial, index.Repr
      ensures unchanged(this)
      ensures Consistent(before, pending) && fresh(index.Repr - old(index.Repr)) && S() == old(S())
    {
      hide CapacityIndex.Valid, Healthy, DeadlineQueues.Exact, InMix, Suspension.Valid;
      trial.Leave();
    }

    method SetPredecessorAside(trial: Suspension, key: Key, ghost before: Ledgers, ghost pending: set<Identity>)
      requires Weighing(trial, before, pending) && index.contents == trial.original
      requires key in records && key.id in current && current[key.id] == key.generation
      modifies trial, index.Repr
      ensures unchanged(this)
      ensures Weighing(trial, before, pending) && fresh(index.Repr - old(index.Repr)) && S() == old(S())
      ensures index.contents == Without(trial.original, Reservation, key.id)
    {
      hide CapacityIndex.Valid, Healthy, DeadlineQueues.Exact, InMix, Suspension.Valid, HeldKeys, Without;
      PredecessorAside(index.contents, S(), before, pending, key);
      trial.Suspend(Reservation, key.id, Some(key.generation));
    }

    /** The older record is superseded; it has no entries left to erase. */
    method Retire(p: Key)
      requires Detached() && index.Valid() && queues.Exact(records) && Cleanly(records, p, index.contents)
      modifies this`records, queues, index.Repr
      ensures Detached() && index.Valid() && fresh(index.Repr - old(index.Repr))
      ensures index.contents == old(index.contents) && queues.Exact(records)
      ensures records == old(records)[p := old(records[p]).(state := Superseded)]
    {
      hide CapacityIndex.Valid, DeadlineQueues.Exact, DeadlineQueues.ExactBut, Without;
      ghost var before := records;
      var r := records[p].(state := Superseded);
      records := records[p := r];
      var erased := EraseRecord(index, r);
      StillScheduled(before, p, r);
      queues.Sync(r, records);
    }

    method Install(r: Record, ghost goal: State, ghost before: Ledgers, ghost pending: set<Identity>)
      requires Detached() && index.Valid() && queues.Exact(records)
      requires MixedBut(index.contents, goal, before, pending, r.id)
               && Without(index.contents, Reservation, r.id) == index.contents
      requires Healthy(goal) && Arrives(goal, r) && ledger == goal.ledger
      modifies this`records, this`current, queues, index.Repr
      ensures Detached() && index.Valid() && fresh(index.Repr - old(index.Repr))
      ensures InMix(index.contents, goal, before, pending - {r.id}) && queues.Exact(records)
      ensures S() == Registered(old(S()), r)
    {
      hide CapacityIndex.Valid, DeadlineQueues.Exact, DeadlineQueues.ExactBut, Without, Healthy, MixedBut, InMix,
           Settled, SyncReady, Keyed, Representable;
      ghost var was := records;
      MixSettles(goal, index.contents, before, pending, r.id);
      MixRepresentable(goal, Settled(index.contents, ledger, r), before, pending - {r.id});
      NewcomerReady(index.contents, ledger, r);
      records := records[r.KeyOf() := r];
      if r.id !in current || r.generation > current[r.id] {
        current := current[r.id := r.generation];
      }
      var synced := SettleIndex(index, ledger, r);
      StillScheduled(was, r.KeyOf(), r);
      queues.Sync(r, records);
    }

    /** The durable record first; then the predecessor is retired and the successor takes its place. */
    method Succeed(trial: Suspension, d: DurableRecord, ghost measured: Contents, ghost allowance: nat,
                   ghost before: Ledgers, ghost pending: set<Identity>)
      requires Weighing(trial, before, pending) && CanSupersede(S(), d, measured, allowance)
      requires index.contents == Without(trial.original, Reservation, d.record.id) && Healthy(Succeeded(S(), d))
      modifies this, queues, index.Repr, trial
      ensures Consistent(before, pending - {d.record.id}) && fresh(index.Repr - old(index.Repr))
      ensures S() == Succeeded(old(S()), d) && under == old(under) && behind == old(behind)
    {
      hide CapacityIndex.Valid, Suspension.Valid, DeadlineQueues.Exact, Healthy, InMix, MixedBut, Weighing,
           CanSupersede, Without, Cleanly, Arrives, Succeeded;
      ghost var s0 := S();
      WeighingParts(trial, before, pending);
      SupersedeParts(s0, d, measured, allowance);
      PredecessorClean(s0, d, measured, allowance, trial.original, before, pending);
      journal := journal + [d];
      Replace(Key(d.record.id, d.record.generation - 1), d.record, Succeeded(s0, d), before, pending);
      SucceededSteps(s0, d, measured, allowance);
      trial.Keep();
    }

    /** One record gives way to another, and an edge joins the two. */
    method Replace(p: Key, r: Record, ghost goal: State, ghost before: Ledgers, ghost pending: set<Identity>)
      requires Detached() && index.Valid() && queues.Exact(records) && Cleanly(records, p, index.contents)
      requires MixedBut(index.contents, goal, before, pending, r.id)
               && Without(index.contents, Reservation, r.id) == index.contents
      requires Healthy(goal) && Arrives(goal, r) && ledger == goal.ledger
      modifies this`records, this`current, this`edges, queues, index.Repr
      ensures Detached() && index.Valid() && fresh(index.Repr - old(index.Repr))
      ensures InMix(index.contents, goal, before, pending - {r.id}) && queues.Exact(records)
      ensures p in old(records)
      ensures S() == Registered(old(S()).(records := old(records)[p := old(records[p]).(state := Superseded)],
                                          edges := old(edges) + [(p, r.KeyOf())]), r)
    {
      hide CapacityIndex.Valid, DeadlineQueues.Exact, Healthy, InMix, MixedBut, Without, Arrives, Registered;
      Retire(p);
      edges := edges + [(p, r.KeyOf())];
      Install(r, goal, before, pending);
    }

    /**
     Re-derives a record against the current generations. Nothing happens when it
     cannot be bound or does not close without its predecessor.
     */
    method AutoRevalidate(key: Key, policy: Policy, now: int, ghost before: Ledgers, ghost pending: set<Identity>)
      returns (done: bool, ghost measured: Contents, ghost refs: seq<ResourceRef>)
      requires Consistent(before, pending) && key in records && !IsTerminal(records[key].state)
      requires key.id in current && current[key.id] == key.generation
      modifies this, queues, index.Repr
      ensures fresh(index.Repr - old(index.Repr))
      ensures measured == Without(old(index.contents), Reservation, key.id)
      ensures Consistent(before, if done then pending - {key.id} else pending)
      ensures Revalidates(old(S()), S(), key, policy, now, measured, refs, done)
    {
      hide Consistent, BoundTo, AllLive, Revalidates, Without;
      ghost var s0 := S();
      measured := Without(index.contents, Reservation, key.id);
      var bound, binding := BindAgain(key, before, pending);
      refs := binding;
      if bound {
        done := Rebind(key, binding, policy, now, before, pending);
      } else {
        NotBound(s0, key, policy, now, measured, refs);
        done := false;
      }
    }

    method BindAgain(key: Key, ghost before: Ledgers, ghost pending: set<Identity>)
      returns (bound: bool, refs: seq<ResourceRef>)
      requires Consistent(before, pending) && key in records
      ensures Consistent(before, pending)
      ensures bound <==> AllLive(ledger, records[key].terms.resources)
      ensures bound ==> BoundTo(ledger, records[key].terms.resources, refs)
    {
      hide *;
      ConsistentParts(before, pending);
      DistinctTerms(key);
      bound, refs := ResolveBinding(ledger, records[key].terms.resources);
    }

    lemma DistinctTerms(key: Key)
      requires Healthy(S()) && key in records
      ensures Distinct(records[key].terms.resources)
    {
      hide Healthy;
      RecordTerms(S(), key);
    }

    /** Sets the record aside and asks for a verdict on it under new bindings. */
    method Weigh(key: Key, refs: seq<ResourceRef>, ghost before: Ledgers, ghost pending: set<Identity>, policy: Policy)
      returns (trial: Suspension, outcome: Outcome)
      requires Consistent(before, pending) && key in records && key.id in current && current[key.id] == key.generation
      modifies index.Repr
      ensures unchanged(this)
      ensures fresh(trial) && Weighing(trial, before, pending) && fresh(index.Repr - old(index.Repr)) && S() == old(S())
      ensures trial.original == old(index.contents)
              && index.contents == Without(old(index.contents), Reservation, key.id)
      ensures var t := records[key].terms;
              outcome == Verdict(ledger, overcommitted, index.contents, refs, t.interval, t.amount, policy, t.headroom)
    {
      hide *;
      ConsistentParts(before, pending);
      ValidTermsOf(key);
      trial := BeginWeighing(before, pending);
      SetPredecessorAside(trial, key, before, pending);
      outcome := AssessWeighing(trial, refs, records[key].terms, policy, before, pending);
    }

    method Rebind(key: Key, refs: seq<ResourceRef>, policy: Policy, now: int, ghost before: Ledgers,
                  ghost pending: set<Identity>)
      returns (done: bool)
      requires Consistent(before, pending) && key in records && !IsTerminal(records[key].state)
      requires key.id in current && current[key.id] == key.generation
               && BoundTo(ledger, records[key].terms.resources, refs)
      modifies this, queues, index.Repr
      ensures fresh(index.Repr - old(index.Repr))
      ensures Consistent(before, if done then pending - {key.id} else pending)
      ensures Revalidates(old(S()), S(), key, policy, now, Without(old(index.contents), Reservation, key.id), refs,
                          done)
    {
      hide *;
      ghost var measured := Without(index.contents, Reservation, key.id);
      var trial, outcome := Weigh(key, refs, before, pending, policy);
      RebindPlan(trial, key, refs, policy, now, before, pending, outcome);
      if outcome != Outcome.Committable {
        EndWeighing(trial, before, pending);
        return false;
      }
      Succeed(trial, RevalidationRecord(records[key], refs, now), measured, policy.Slack(), before, pending);
      return true;
    }

    lemma RebindPlan(trial: Suspension, key: Key, refs: seq<ResourceRef>, policy: Policy, now: int, before: Ledgers,
                     pending: set<Identity>, outcome: Outcome)
      requires Weighing(trial, before, pending) && key in records && !IsTerminal(records[key].state)
      requires key.id in current && current[key.id] == key.generation
               && BoundTo(ledger, records[key].terms.resources, refs)
      requires var t := records[key].terms;
               outcome == Verdict(ledger, overcommitted, index.contents, refs, t.interval, t.amount, policy, t.headroom)
      ensures outcome != Outcome.Committable ==> Revalidates(S(), S(), key, policy, now, index.contents, refs, false)
      ensures outcome == Outcome.Committable ==>
        var d := RevalidationRecord(records[key], refs, now);
        && d.ReservationMutation? && d.record.id == key.id && CanSupersede(S(), d, index.contents, policy.Slack())
        && Healthy(Succeeded(S(), d))
        && Revalidates(S(), Succeeded(S(), d), key, policy, now, index.contents, refs, true)
    {
      hide Weighing, Verdict, BoundTo, Healthy, CanSupersede, Succeeded, Revalidates, RevalidationRecord;
      WeighingParts(trial, before, pending);
      if outcome == Outcome.Committable {
        PlanRevalidation(S(), key, refs, now, index.contents, policy);
      } else {
        NotClosed(S(), key, policy, now, index.contents, refs);
      }
    }

    lemma ValidTermsOf(key: Key)
      requires Healthy(S()) && key in records
      ensures ValidInterval(records[key].terms.interval)
    {
      hide Healthy;
      RecordTerms(S(), key);
    }

    lemma ConsistentParts(before: Ledgers, pending: set<Identity>)
      requires Consistent(before, pending)
      ensures Healthy(S()) && index.Valid() && InMix(index.contents, S(), before, pending)
    {
    }

    method AssessWeighing(trial: Suspension, refs: seq<ResourceRef>, terms: Terms, policy: Policy,
                          ghost before: Ledgers, ghost pending: set<Identity>)
      returns (outcome: Outcome)
      requires Weighing(trial, before, pending) && ValidInterval(terms.interval)
      ensures Weighing(trial, before, pending)
      ensures outcome == Verdict(ledger, overcommitted, index.contents, refs, terms.interval, terms.amount, policy,
                                 terms.headroom)
    {
      hide CapacityIndex.Valid, Suspension.Valid, Weighing, Healthy, Verdict, S, InMix;
      WeighingParts(trial, before, pending);
      outcome := Assess(index, ledger, overcommitted, refs, terms.interval, terms.amount, policy, terms.headroom);
    }

    // -------------------------------------------------------------------------
    // Amendment
    // -------------------------------------------------------------------------

    /** Amends one reservation that is no series member, or says why not. */
    method Amend(o: Amendment, policy: Policy, now: int)
      returns (answer: AmendAnswer, ghost settled: State, ghost refs: seq<ResourceRef>,
               ghost windows: seq<Interval>)
      requires Valid() && o.Encoded() && policy.maxSeriesMembers < 0x1_0000_0000
      requires o.target in records ==> records[o.target].series == None
      requires RoomToBind(S(), o.terms.resources, o.terms.amount)
      modifies this, queues, index.Repr
      ensures Valid() && fresh(index.Repr - old(index.Repr)) && Reaches(old(S()), S(), policy.Slack() == 0)
      ensures under == old(under) && behind <= old(behind)
      ensures var objection := AmendObjection(old(S()), o);
              if objection.Some? then answer == NotAmended(objection.value) && S() == old(S())
              else if o.attempt in old(attempts) then answer == Recalled(old(attempts)[o.attempt]) && S() == old(S())
              else
                && TimePassed(ClaimantEnsured(old(S()), o.terms.claimant, o.terms.claimantGeneration), settled, now)
                && AmendsAs(settled, S(), Indexed(settled, under, behind), o, policy, now, refs, windows, answer)
      ensures AmendObjection(old(S()), o) == None && o.attempt !in old(attempts) ==>
        EndedMeanwhile(settled, o.target, old(S()), now)
      ensures answer.Amended? ==> InForceAs(S(), o.target.id, answer.successor)
    {
      hide Valid, Reaches, RoomToBind, AmendsAs, TimePassed, ClaimantEnsured, ClaimantAccepted, ValidTerms, Healthy;
      ghost var s0, tame := S(), policy.Slack() == 0;
      settled, refs, windows := s0, [], [];
      ReachesItself(s0, tame);
      ValidHealthy();
      if !ValidTerms(o.terms) { return NotAmended(BadTerms), settled, refs, windows; }
      if o.target !in records { return NotAmended(UnknownRecord), settled, refs, windows; }
      if o.attempt in attempts {
        if attempts[o.attempt].fingerprint != o.Fingerprint() {
          return NotAmended(Contradiction), settled, refs, windows;
        }
        return Recalled(attempts[o.attempt]), settled, refs, windows;
      }
      if IsTerminal(records[o.target].state) { return NotAmended(IllegalTransition), settled, refs, windows; }
      if o.terms.claimant != records[o.target].terms.claimant {
        return NotAmended(NotOwner), settled, refs, windows;
      }
      if o.terms.claimantGeneration < records[o.target].terms.claimantGeneration {
        return NotAmended(FencedClaimant), settled, refs, windows;
      }
      answer, settled, refs, windows := AmendOwned(o, policy, now);
    }

    /** The owner's amendment: its claimant is registered, time passes, and the terms are weighed. */
    method AmendOwned(o: Amendment, policy: Policy, now: int)
      returns (answer: AmendAnswer, ghost settled: State, ghost refs: seq<ResourceRef>,
               ghost windows: seq<Interval>)
      requires Valid() && ValidTerms(o.terms) && o.Encoded() && policy.maxSeriesMembers < 0x1_0000_0000
      requires o.target in records && o.attempt !in attempts && !IsTerminal(records[o.target].state)
      requires RoomToBind(S(), o.terms.resources, o.terms.amount)
      modifies this, queues, index.Repr
      ensures Valid() && fresh(index.Repr - old(index.Repr)) && Reaches(old(S()), S(), policy.Slack() == 0)
      ensures under == old(under) && behind <= old(behind)
      ensures ClaimantAccepted(old(S()), o.terms.claimant, o.terms.claimantGeneration) ==>
        EndedMeanwhile(settled, o.target, old(S()), now)
      ensures if !ClaimantAccepted(old(S()), o.terms.claimant, o.terms.claimantGeneration) then
                answer == NotAmended(FencedClaimant) && S() == old(S())
              else
                && TimePassed(ClaimantEnsured(old(S()), o.terms.claimant, o.terms.claimantGeneration), settled, now)
                && AmendsAs(settled, S(), Indexed(settled, under, behind), o, policy, now, refs, windows, answer)
      ensures answer.Amended? ==> InForceAs(S(), o.target.id, answer.successor)
    {
      hide Valid, Reaches, RoomToBind, AmendsAs, TimePassed, ClaimantEnsured, ClaimantAccepted, ValidTerms, Healthy;
      ghost var s0, tame := S(), policy.Slack() == 0;
      refs, windows := [], [];
      ReachesItself(s0, tame);
      ValidHealthy();
      var ok;
      ok, settled := SettleFor(o.terms.claimant, o.terms.claimantGeneration, now);
      if !ok { return NotAmended(FencedClaimant), settled, refs, windows; }
      ValidHealthy();
      ReachesEnded(s0, o, settled, now);
      ReachesOn(s0, s0, settled, tame);
      RoomStaysOpen(s0, o.terms.claimant, o.terms.claimantGeneration, settled, now, o.terms.resources, o.terms.amount);
      TargetStays(s0, o.terms.claimant, o.terms.claimantGeneration, settled, now, o.target);
      answer, refs, windows := AmendSettled(o, policy, now);
      GrantedInForce(settled, S(), Indexed(settled, under, behind), o, policy, now, refs, windows, answer);
      ReachesJoin(s0, settled, S(), tame);
    }

    /** Binding and expansion: what must be in order before the amendment is weighed. */
    method AmendSettled(o: Amendment, policy: Policy, now: int)
      returns (answer: AmendAnswer, ghost refs: seq<ResourceRef>, ghost windows: seq<Interval>)
      requires Valid() && ValidTerms(o.terms) && o.Encoded() && policy.maxSeriesMembers < 0x1_0000_0000
      requires o.target in records && o.target.id in current && current[o.target.id] == o.target.generation
               && o.attempt !in attempts
      requires RoomToBind(S(), o.terms.resources, o.terms.amount)
      modifies this, queues, index.Repr
      ensures Valid() && fresh(index.Repr - old(index.Repr)) && Reaches(old(S()), S(), policy.Slack() == 0)
      ensures under == old(under) && behind <= old(behind)
      ensures AmendsAs(old(S()), S(), Indexed(old(S()), under, behind), o, policy, now, refs, windows, answer)
    {
      hide Valid, Reaches, RoomToBind, AmendsAs, BoundTo, Expanded, AllLive, Objection, ValidTerms, Indexed;
      ghost var s0 := S();
      ReachesItself(s0, policy.Slack() == 0);
      refs, windows := [], [];
      TermsParts(o.terms);
      var bound, binding := ResolveBinding(ledger, o.terms.resources);
      if !bound {
        NotAmendedAs(s0, Indexed(s0, under, behind), o, policy, now, refs, windows, StaleBindings);
        return NotAmended(StaleBindings), refs, windows;
      }
      IntervalInRange(o.terms.interval);
      var expansion := ExpandSeries(o.terms.interval, o.terms.recurrence, policy.maxSeriesMembers);
      if expansion.Failed? {
        NotAmendedAs(s0, Indexed(s0, under, behind), o, policy, now, refs, windows, BadWindow);
        return NotAmended(BadWindow), refs, windows;
      }
      refs, windows := binding, expansion.intervals;
      answer := AmendBound(o, binding, expansion.intervals, policy, now);
    }

    /** Nothing the predecessor has in the index weighs on the verdict. */
    method AmendBound(o: Amendment, refs: seq<ResourceRef>, windows: seq<Interval>, policy: Policy, now: int)
      returns (answer: AmendAnswer)
      requires Valid() && ValidTerms(o.terms) && LateObjection(S(), o, policy) == None
      requires BoundTo(ledger, o.terms.resources, refs) && Expanded(o.terms.interval, o.terms.recurrence, windows)
      requires o.target in records && o.target.id in current && current[o.target.id] == o.target.generation
               && o.attempt !in attempts
      requires RoomToBind(S(), o.terms.resources, o.terms.amount)
      modifies this, queues, index.Repr
      ensures Valid() && fresh(index.Repr - old(index.Repr)) && Reaches(old(S()), S(), policy.Slack() == 0)
      ensures under == old(under) && behind <= old(behind)
      ensures AmendsAs(old(S()), S(), Indexed(old(S()), under, behind), o, policy, now, refs, windows, answer)
    {
      hide *;
      RecordsOfState();
      ghost var s0, m, b := S(), index.contents, behind;
      IndexNow();
      answer := AmendWeighed(o, refs, windows, policy, now);
      AmendsWithout(s0, S(), m, under, b, behind, o, policy, now, refs, windows, answer);
    }

    /** Weighs every window without the predecessor; then the successor takes its place, or the refusal is noted. */
    method AmendWeighed(o: Amendment, refs: seq<ResourceRef>, windows: seq<Interval>, policy: Policy, now: int)
      returns (answer: AmendAnswer)
      requires Valid() && ValidTerms(o.terms) && LateObjection(S(), o, policy) == None
      requires BoundTo(ledger, o.terms.resources, refs) && Expanded(o.terms.interval, o.terms.recurrence, windows)
      requires o.target in records && o.target.id in current && current[o.target.id] == o.target.generation
               && o.attempt !in attempts
      requires RoomToBind(S(), o.terms.resources, o.terms.amount)
      modifies this, queues, index.Repr
      ensures Valid() && fresh(index.Repr - old(index.Repr)) && Reaches(old(S()), S(), policy.Slack() == 0)
      ensures under == old(under) && old(behind) - {o.target.id} <= behind <= old(behind)
      ensures AmendsAs(old(S()), S(), old(index.contents), o, policy, now, refs, windows, answer)
    {
      hide *;
      RecordsOfState();
      ghost var s0, m0 := S(), index.contents;
      AmendWindows(o, policy, windows);
      var trial, outcome, failing := WeighAll(o, refs, windows, policy);
      RecordsOfState();
      if outcome != Outcome.Committable {
        answer := Decline(trial, o, outcome);
        DeclinedAs(s0, S(), m0, o, policy, now, refs, windows, outcome, failing);
        ReachesOn(s0, s0, S(), policy.Slack() == 0);
        return;
      }
      if o.dryRun {
        EndAmending(trial);
        ForeshownAs(s0, m0, o, policy, now, refs, windows);
        ReachesItself(s0, policy.Slack() == 0);
        return Foreshown;
      }
      answer := Supplant(trial, o, refs, windows, policy, now, m0);
    }

    lemma IndexNow()
      requires Valid()
      ensures index.contents == Indexed(S(), under, behind)
    {
      hide CapacityIndex.Valid, Healthy, DeadlineQueues.Exact, InMix, Aligned, Indexed;
      IndexedUnique(index.contents, S(), under, behind);
    }

    lemma AmendWindows(o: Amendment, policy: Policy, windows: seq<Interval>)
      requires ValidTerms(o.terms) && LateObjection(S(), o, policy) == None
               && Expanded(o.terms.interval, o.terms.recurrence, windows)
      ensures forall i :: 0 <= i < |windows| ==> ValidInterval(windows[i])
      ensures Reaches(S(), S(), policy.Slack() == 0)
    {
      hide ValidTerms, AllLive, Expanded, Reaches, Objection;
      ReachesItself(S(), policy.Slack() == 0);
      FirstWindow(o, policy, windows);
    }

    /** Sets the predecessor aside and asks for a verdict on every window. */
    method WeighAll(o: Amendment, refs: seq<ResourceRef>, windows: seq<Interval>, policy: Policy)
      returns (trial: Suspension, outcome: Outcome, failing: nat)
      requires Valid() && o.target in records && o.target.id in current && current[o.target.id] == o.target.generation
      requires forall i :: 0 <= i < |windows| ==> ValidInterval(windows[i])
      modifies index.Repr
      ensures unchanged(this)
      ensures fresh(trial) && Weighing(trial, under, behind) && fresh(index.Repr - old(index.Repr)) && S() == old(S())
      ensures trial.original == old(index.contents)
              && index.contents == Without(old(index.contents), Reservation, o.target.id)
      ensures AlignedNow()
      ensures outcome == Outcome.Committable ==>
        AllCommittable(ledger, overcommitted, index.contents, refs, windows, o.terms.amount, policy, o.terms.headroom)
      ensures outcome != Outcome.Committable ==>
        && failing < |windows| && outcome
           == Verdict(ledger, overcommitted, index.contents, refs, windows[failing], o.terms.amount, policy,
                      o.terms.headroom)
        && AllCommittable(ledger, overcommitted, index.contents, refs, windows[..failing], o.terms.amount, policy,
                          o.terms.headroom)
    {
      hide *;
      ValidParts();
      trial := BeginWeighing(under, behind);
      SetPredecessorAside(trial, o.target, under, behind);
      outcome, failing := AssessWindows(trial, refs, windows, o.terms, policy);
    }

    lemma ValidParts()
      requires Valid()
      ensures Consistent(under, behind) && AlignedNow() && Healthy(S())
    {
    }

    method AssessWindows(trial: Suspension, refs: seq<ResourceRef>, windows: seq<Interval>, terms: Terms,
                         policy: Policy)
      returns (outcome: Outcome, failing: nat)
      requires Weighing(trial, under, behind) && forall i :: 0 <= i < |windows| ==> ValidInterval(windows[i])
      ensures Weighing(trial, under, behind)
      ensures outcome == Outcome.Committable ==>
        AllCommittable(ledger, overcommitted, index.contents, refs, windows, terms.amount, policy, terms.headroom)
      ensures outcome != Outcome.Committable ==>
        && failing < |windows| && outcome
           == Verdict(ledger, overcommitted, index.contents, refs, windows[failing], terms.amount, policy,
                      terms.headroom)
        && AllCommittable(ledger, overcommitted, index.contents, refs, windows[..failing], terms.amount, policy,
                          terms.headroom)
    {
      hide CapacityIndex.Valid, Suspension.Valid, Weighing, Healthy, Verdict, S, InMix, AllCommittable;
      WeighingParts(trial, under, behind);
      outcome, failing := AssessAll(index, ledger, overcommitted, refs, windows, terms.amount, policy, terms.headroom);
    }

    /** The predecessor's entries come back. */
    method EndAmending(trial: Suspension)
      requires Weighing(trial, under, behind) && AlignedNow()
      modifies trial, index.Repr
      ensures unchanged(this)
      ensures Valid() && fresh(index.Repr - old(index.Repr)) && S() == old(S())
    {
      hide Consistent, Weighing, Aligned, S;
      EndWeighing(trial, under, behind);
    }

    /** A refusal changes nothing but the memory of it, and a rehearsal not even that. */
    method Decline(trial: Suspension, o: Amendment, outcome: Outcome) returns (answer: AmendAnswer)
      requires Weighing(trial, under, behind) && AlignedNow() && o.attempt !in attempts
               && outcome != Outcome.Committable
      modifies this, trial, index.Repr
      ensures Valid() && fresh(index.Repr - old(index.Repr)) && Reaches(old(S()), S(), true)
      ensures under == old(under) && behind == old(behind)
              && answer == Declined(outcome)
      ensures if o.dryRun then S() == old(S())
              else
                && Enabled(old(S()), Note(AmendRefusal(o, outcome)))
                && S() == Next(old(S()), Note(AmendRefusal(o, outcome)))
    {
      hide Weighing, Valid, Reaches, Enabled, Next, AlignedNow;
      ReachesItself(S(), true);
      EndAmending(trial);
      answer := Declined(outcome);
      if !o.dryRun { NoteRefusal(Attempt(o.attempt, o.Fingerprint(), outcome, o.target)); }
    }

    /** The durable record first, then the successor, then the attempt. */
    method Supplant(trial: Suspension, o: Amendment, refs: seq<ResourceRef>, windows: seq<Interval>, policy: Policy,
                    now: int, ghost m0: Contents)
      returns (answer: AmendAnswer)
      requires Weighing(trial, under, behind) && AlignedNow() && ValidTerms(o.terms)
               && LateObjection(S(), o, policy) == None && !o.dryRun
      requires trial.original == m0 && index.contents == Without(m0, Reservation, o.target.id)
      requires BoundTo(ledger, o.terms.resources, refs) && Expanded(o.terms.interval, o.terms.recurrence, windows)
      requires o.target in records && o.target.id in current && current[o.target.id] == o.target.generation
               && o.attempt !in attempts
      requires RoomToBind(S(), o.terms.resources, o.terms.amount)
      requires AllCommittable(ledger, overcommitted, index.contents, refs, windows, o.terms.amount, policy,
                              o.terms.headroom)
      modifies this, queues, index.Repr, trial
      ensures Valid() && fresh(index.Repr - old(index.Repr)) && Reaches(old(S()), S(), policy.Slack() == 0)
      ensures under == old(under) && old(behind) - {o.target.id} <= behind <= old(behind)
      ensures AmendsAs(old(S()), S(), m0, o, policy, now, refs, windows, answer)
    {
      hide *;
      RecordsOfState();
      ghost var s0, measured := S(), index.contents;
      ghost var d0 := AmendmentRecord(s0, o, refs, now);
      WeighingParts(trial, under, behind);
      AlignedParts();
      PlanAmended(s0, m0, o, policy, now, refs, windows);
      SucceededAligned(s0, d0, measured, policy.Slack(), behind);
      AmendReaches(m0, s0, under, behind, d0, measured, policy);
      AmendedParts(o, refs, now);
      var r := Successor(records[o.target], o.terms, refs, 0, now);
      var a := Attempt(o.attempt, o.Fingerprint(), Outcome.Committable, r.KeyOf());
      Succeed(trial, SuccessionRecord(r, Some(a)), measured, policy.Slack(), under, behind);
      SettleAfter(r.id);
      Remember(a);
      AmendedAs(s0, m0, o, policy, now, refs, windows, d0, measured, S());
      return Amended(r);
    }

    lemma AmendedParts(o: Amendment, refs: seq<ResourceRef>, now: int)
      requires o.target in records && Healthy(S())
      ensures o.target in S().records
      ensures var r := Successor(records[o.target], o.terms, refs, 0, now);
              var a := Attempt(o.attempt, o.Fingerprint(), Outcome.Committable, r.KeyOf());
              && r == AmendedRecord(S(), o, refs, now) && r.id == o.target.id
              && SuccessionRecord(r, Some(a)) == AmendmentRecord(S(), o, refs, now)
              && AmendmentRecord(S(), o, refs, now).attempt == Some(a)
    {
      hide Healthy;
      HealthyRecord(S(), o.target);
    }

    /** An identity brought in step is no longer behind. */
    ghost method SettleAfter(id: Identity)
      requires Consistent(under, behind - {id}) && Aligned(S().ledger, S().records, behind - {id})
               && behind - {id} <= S().current.Keys
      modifies `behind
      ensures Valid() && S() == old(S()) && behind == old(behind) - {id}
    {
      hide CapacityIndex.Valid, Healthy, DeadlineQueues.Exact, InMix, Aligned;
      behind := behind - {id};
    }

    // -------------------------------------------------------------------------
    // Holds
    // -------------------------------------------------------------------------

    /** Sets capacity aside for a session, or says why not. */
    method AcquireHold(o: HoldRequest, policy: Policy, now: int)
      returns (answer: HoldAnswer, ghost settled: State, ghost refs: seq<ResourceRef>)
      requires Valid() && o.id !in holds && RoomToBind(S(), o.terms.resources, o.terms.amount)
      modifies this, queues, index.Repr
      ensures Valid() && fresh(index.Repr - old(index.Repr)) && Reaches(old(S()), S(), policy.Slack() == 0)
      ensures under == old(under) && behind <= old(behind)
      ensures if !ValidTerms(o.terms) then answer == NotHeld(BadTerms) && S() == old(S())
              else if !ClaimantAccepted(old(S()), o.terms.claimant, o.terms.claimantGeneration) then
                answer == NotHeld(FencedClaimant) && S() == old(S())
              else
                && TimePassed(ClaimantEnsured(old(S()), o.terms.claimant, o.terms.claimantGeneration), settled, now)
                && HoldsAs(settled, S(), Indexed(settled, under, behind), o, policy, now, refs, answer)
    {
      hide Valid, Reaches, RoomToBind, HoldsAs, TimePassed, ClaimantEnsured, ClaimantAccepted, ValidTerms, Healthy;
      ghost var s0, tame := S(), policy.Slack() == 0;
      settled, refs := s0, [];
      ReachesItself(s0, tame);
      ValidHealthy();
      if !ValidTerms(o.terms) { return NotHeld(BadTerms), settled, refs; }
      var ok;
      ok, settled := SettleFor(o.terms.claimant, o.terms.claimantGeneration, now);
      if !ok { return NotHeld(FencedClaimant), settled, refs; }
      ValidHealthy();
      ReachesOn(s0, s0, settled, tame);
      RoomStaysOpen(s0, o.terms.claimant, o.terms.claimantGeneration, settled, now, o.terms.resources, o.terms.amount);
      HoldsStay(s0, o.terms.claimant, o.terms.claimantGeneration, settled, now);
      answer, refs := HoldSettled(o, policy, now);
      ReachesJoin(s0, settled, S(), tame);
    }

    method HoldSettled(o: HoldRequest, policy: Policy, now: int)
      returns (answer: HoldAnswer, ghost refs: seq<ResourceRef>)
      requires Valid() && ValidTerms(o.terms) && o.id !in holds && RoomToBind(S(), o.terms.resources, o.terms.amount)
      modifies this, queues, index.Repr
      ensures Valid() && fresh(index.Repr - old(index.Repr)) && Reaches(old(S()), S(), policy.Slack() == 0)
      ensures under == old(under) && behind == old(behind)
      ensures HoldsAs(old(S()), S(), Indexed(old(S()), under, behind), o, policy, now, refs, answer)
    {
      hide *;
      RecordsOfState();
      ghost var s0 := S();
      ReachesItself(s0, policy.Slack() == 0);
      ghost var m := Indexed(s0, under, behind);
      IndexNow();
      refs := [];
      TermsParts(o.terms);
      var limit := CheckSession(o, policy, now);
      if limit.Some? {
        LimitDecides(s0, m, o, policy, now, refs, limit);
        return NotHeld(limit.value), refs;
      }
      var bound, binding := ResolveBinding(ledger, o.terms.resources);
      LimitDecides(s0, m, o, policy, now, refs, if bound then None else Some(StaleBindings));
      if !bound { return NotHeld(StaleBindings), refs; }
      refs := binding;
      answer := TakeBound(o, binding, policy, now);
    }

    /** What the policy has against the request. */
    method CheckSession(o: HoldRequest, policy: Policy, now: int) returns (failure: Option<Failure>)
      ensures failure == SessionLimit(holds, o, policy, now)
    {
      hide SessionHolds, Bandwidth;
      if policy.maxHoldTtl > 0 && o.expiresAt - now > policy.maxHoldTtl { return Some(PolicyForbids); }
      if !(now < o.expiresAt) { return Some(BadWindow); }
      var count, bandwidth := MeasureSession(holds, o.session);
      if policy.maxHolds != 0 && count >= policy.maxHolds { return Some(Exhausted); }
      if policy.maxHoldBandwidth > 0 && bandwidth + o.terms.amount > policy.maxHoldBandwidth { return Some(Exhausted); }
      return None;
    }

    method TakeBound(o: HoldRequest, refs: seq<ResourceRef>, policy: Policy, now: int) returns (answer: HoldAnswer)
      requires Valid() && ValidTerms(o.terms) && o.id !in holds && RoomToBind(S(), o.terms.resources, o.terms.amount)
      requires HoldLimit(S(), o, policy, now) == None && BoundTo(ledger, o.terms.resources, refs)
      modifies this, queues, index.Repr
      ensures Valid() && fresh(index.Repr - old(index.Repr)) && Reaches(old(S()), S(), policy.Slack() == 0)
      ensures under == old(under) && behind == old(behind)
      ensures HoldsAs(old(S()), S(), old(index.contents), o, policy, now, refs, answer)
    {
      hide *;
      RecordsOfState();
      ghost var s0, m0 := S(), index.contents;
      ReachesItself(s0, policy.Slack() == 0);
      TermsParts(o.terms);
      var outcome := AssessHold(o, refs, policy);
      RecordsOfState();
      if outcome != Outcome.Committable {
        answer := HoldDeclined(outcome);
        HoldDecides(s0, S(), m0, o, policy, now, refs, answer);
        return;
      }
      HoldPlanned(o, policy, refs);
      RoomOnBinding(s0, o.terms.resources, refs, o.terms.amount);
      HoldReaches(s0, HoldOf(o, refs), policy);
      HoldNames(o, refs);
      Keep(HoldOf(o, refs), policy.Slack());
      answer := Held(HoldOf(o, refs));
      HoldDecides(s0, S(), m0, o, policy, now, refs, answer);
    }

    lemma HoldNames(o: HoldRequest, refs: seq<ResourceRef>)
      ensures HoldOf(o, refs).resources == NamesOf(refs) && HoldOf(o, refs).amount == o.terms.amount
              && HoldOf(o, refs).id == o.id
    {
    }

    lemma HoldPlanned(o: HoldRequest, policy: Policy, refs: seq<ResourceRef>)
      requires Valid() && ValidTerms(o.terms) && o.id !in holds && BoundTo(ledger, o.terms.resources, refs)
      requires Verdict(ledger, overcommitted, index.contents, refs, o.terms.interval, o.terms.amount, policy,
                       o.terms.headroom) == Outcome.Committable
      ensures CanTakeHold(S(), HoldOf(o, refs), policy.Slack())
      ensures Enabled(S(), TakeHold(HoldOf(o, refs), policy.Slack()))
      ensures Next(S(), TakeHold(HoldOf(o, refs), policy.Slack())) == WithHold(S(), HoldOf(o, refs))
    {
      hide CapacityIndex.Valid, Healthy, DeadlineQueues.Exact, InMix, Aligned, Verdict, CanTakeHold, BoundTo,
           ValidTerms, Indexed;
      IndexedUnique(index.contents, S(), under, behind);
      PlanHold(S(), o, policy, refs, under, behind);
    }

    method AssessHold(o: HoldRequest, refs: seq<ResourceRef>, policy: Policy) returns (outcome: Outcome)
      requires Valid() && ValidInterval(o.terms.interval)
      ensures Valid()
      ensures outcome == Verdict(ledger, overcommitted, index.contents, refs, o.terms.interval, o.terms.amount,
                                 policy, o.terms.headroom)
    {
      hide CapacityIndex.Valid, Healthy, DeadlineQueues.Exact, InMix, Aligned, Verdict;
      outcome := Assess(index, ledger, overcommitted, refs, o.terms.interval, o.terms.amount, policy, o.terms.headroom);
    }

    /** Indexes the hold, resource by resource, and files it. */
    method Keep(h: Hold, ghost allowance: nat)
      requires Valid() && CanTakeHold(S(), h, allowance) && RoomToBind(S(), h.resources, h.amount)
      modifies this, queues, index.Repr
      ensures Valid() && fresh(index.Repr - old(index.Repr)) && S() == WithHold(old(S()), h)
      ensures under == old(under) && behind == old(behind)
    {
      hide CapacityIndex.Valid, Healthy, DeadlineQueues.Exact, InMix, Aligned, Indexed, HoldSeq, CanTakeHold,
           RoomToBind, Completes, Distinctly, Keyed, Representable;
      ghost var s0 := S();
      ghost var whole := Indexed(WithHold(s0, h), under, behind);
      TakenParts(s0, h, allowance);
      HoldHealthy(s0, h, allowance);
      HealthyIndexed(WithHold(s0, h), under, behind);
      HoldCompletes(index.contents, s0, h, under, behind);
      HoldDistinct(h);
      InsertEntries(h, whole);
      holds := holds[h.id := h];
      IndexedUnique(index.contents, S(), under, behind);
    }

    /** Every entry of a new hold goes in; none is refused. */
    method InsertEntries(h: Hold, ghost whole: Contents)
      requires index.Valid() && Completes(index.contents, HoldSeq(h), whole) && Distinctly(HoldSeq(h)) && Keyed(whole)
               && Representable(whole)
      modifies index.Repr
      ensures index.Valid() && fresh(index.Repr - old(index.Repr)) && index.contents == whole
    {
      hide CapacityIndex.Valid, Completes, Distinctly, Keyed, Representable, Refusal, Room;
      ghost var es := HoldSeq(h);
      var i := 0;
      assert es[0..] == es;
      while i < |h.resources|
        invariant i <= |h.resources| && index.Valid() && fresh(index.Repr - old(index.Repr))
        invariant Completes(index.contents, es[i..], whole) && Distinctly(es[i..])
      {
        assert es[i..][0] == es[i] && es[i..][1..] == es[i + 1..];
        CompletesNext(index.contents, es[i..], whole);
        EntryRoom(index.contents, es[i..], whole);
        var inserted := index.Insert(IndexEntry(HolderKind.Hold, h.id, 1, h.resources[i], h.interval, h.amount,
                                                h.guarantee));
        i := i + 1;
      }
      assert es[i..] == [];
      CompletesEnds(index.contents, whole);
    }

    // -------------------------------------------------------------------------
    // Working a ledger change through
    // -------------------------------------------------------------------------

    method CheckBindings(refs: seq<ResourceRef>) returns (stale: Option<Reason>)
      ensures stale == Staleness(ledger, refs)
      ensures stale == None <==> AllCurrent(ledger, refs)
    {
      StalenessDecides(ledger, refs);
      var i := 0;
      while i < |refs|
        invariant i <= |refs| && Staleness(ledger, refs) == Staleness(ledger, refs[i..])
      {
        assert refs[i..][0] == refs[i] && refs[i..][1..] == refs[i + 1..];
        if refs[i].resource !in ledger || ledger[refs[i].resource].withdrawn { return Some(ResourceWithdrawn); }
        if ledger[refs[i].resource].capacity.generation != refs[i].generation {
          return Some(ResourceGenerationChanged);
        }
        i := i + 1;
      }
      assert refs[i..] == [];
      return None;
    }

    lemma WaitingParts(key: Key, before: Ledgers, pending: set<Identity>)
      requires Consistent(before, pending) && Waiting(S(), before, key)
      ensures key in records && !IsTerminal(records[key].state) && key.id in current
              && current[key.id] == key.generation
      ensures Healthy(S()) && InMix(index.contents, S(), before, pending)
      ensures key in S().records && records[key] == S().records[key] && ledger == S().ledger
    {
    }

    /** The live record of an identity is marked as the new ledger has it. */
    method MarkLive(key: Key, applicability: Applicability, reason: Reason, ghost before: Ledgers,
                    ghost pending: set<Identity>, ghost fenced: set<Identity>)
      requires Consistent(before, pending) && Waiting(S(), before, key) && key in records
      requires if AllCurrent(ledger, records[key].refs) then applicability == Current
               else applicability == RevalidationRequired
      requires !Returns(S(), before, key)
      modifies this, queues, index.Repr
      ensures fresh(index.Repr - old(index.Repr)) && Consistent(before, pending - {key.id})
      ensures Untouched(old(S()), S(), key.id) && WorkedThrough(S(), key.id)
      ensures S() == MarkedAs(old(S()), key, applicability, reason)
      ensures ReachesAside(old(S()), S(), fenced, key in old(S()).records && NarrowMark(old(S()), key, applicability))
    {
      hide Consistent, Waiting, Untouched, WorkedThrough, ReachesAside, NarrowMark, Healthy, InMix, Transitioned,
           AllCurrent, Returns;
      ghost var s0 := S();
      WaitingParts(key, before, pending);
      MarkedThrough(s0, key, applicability, reason);
      UntouchedItself(s0, key.id);
      AsideItself(s0, fenced, NarrowMark(s0, key, applicability));
      MarkAside(s0, key, applicability, reason, fenced);
      var marked := MarkApplicability(key, applicability, reason, before, pending);
      if !marked { Unpend(key, before, pending); }
    }

    /** Nothing is written for a record that is marked current and whose bindings stand, indexed or not. */
    lemma AlreadyLive(key: Key, before: Ledgers, pending: set<Identity>, fenced: set<Identity>, tame: bool)
      requires Consistent(before, pending) && Waiting(S(), before, key) && key in records
      requires AllCurrent(ledger, records[key].refs) && records[key].applicability == Current
      ensures Consistent(before, if Returns(S(), before, key) then pending else pending - {key.id})
      ensures Untouched(S(), S(), key.id) && WorkedThrough(S(), key.id)
      ensures ReachesAside(S(), S(), fenced, tame)
    {
      hide Consistent, Waiting, Untouched, WorkedThrough, ReachesAside, Healthy, InMix, AllCurrent, Returns;
      WaitingParts(key, before, pending);
      MarkedThrough(S(), key, Current, NoReason);
      UntouchedItself(S(), key.id);
      AsideItself(S(), fenced, tame);
      if !Returns(S(), before, key) { Unpend(key, before, pending); }
    }

    lemma Unpend(key: Key, before: Ledgers, pending: set<Identity>)
      requires Consistent(before, pending) && Waiting(S(), before, key) && WorkedThrough(S(), key.id)
      requires !Returns(S(), before, key)
      ensures Consistent(before, pending - {key.id})
    {
      hide CapacityIndex.Valid, Healthy, InMix, DeadlineQueues.Exact, Waiting, WorkedThrough, Returns;
      NeverPending(index.contents, S(), before, pending, key);
    }

    /** One live record: current, re-derived, marked, or left behind. */
    method RefreshOne(key: Key, auto: bool, policy: Policy, now: int, ghost before: Ledgers,
                      ghost pending: set<Identity>, ghost fenced: set<Identity>) returns (left: bool)
      requires Consistent(before, pending) && Waiting(S(), before, key)
      modifies this, queues, index.Repr
      ensures fresh(index.Repr - old(index.Repr))
      ensures Consistent(before, if left || Returns(old(S()), before, key) then pending else pending - {key.id})
      ensures Untouched(old(S()), S(), key.id) && key in old(S()).records
      ensures if left then S() == old(S()) && LeftBehind(S(), key) && auto && policy.autoRevalidate
              else WorkedThrough(S(), key.id)
      ensures S() == Turned(old(S()), old(index.contents), key, auto, policy, now)
      ensures left <==> PassedOver(old(S()), old(index.contents), key, auto, policy)
      ensures ReachesAside(old(S()), S(), fenced, Forward(old(S()), before, pending)
                           && (auto && policy.autoRevalidate ==> policy.Slack() == 0))
    {
      hide *;
      ghost var s0, tame := S(), Forward(S(), before, pending)
          && (auto && policy.autoRevalidate ==> policy.Slack() == 0);
      WaitingParts(key, before, pending);
      OnlyStandingReturn(s0, before, key);
      OtherTurns(s0, index.contents, key, auto, policy, now);
      var stale := RefreshBindings(key, before, pending);
      ForwardNarrows(s0, key, before, pending);
      if stale == None {
        if records[key].applicability == Current {
          AlreadyLive(key, before, pending, fenced, tame);
          return false;
        }
        MarkLive(key, Current, NoReason, before, pending, fenced);
        AsideWeaker(s0, S(), fenced, NarrowMark(s0, key, Current), tame);
        return false;
      }
      if auto && policy.autoRevalidate {
        left := RefreshStale(key, stale.value, policy, now, before, pending, fenced);
        AsideWeaker(s0, S(), fenced, Forward(s0, before, pending) && policy.Slack() == 0, tame);
        return;
      }
      MarkLive(key, RevalidationRequired, stale.value, before, pending, fenced);
      AsideWeaker(s0, S(), fenced, NarrowMark(s0, key, RevalidationRequired), tame);
      return false;
    }

    method RefreshBindings(key: Key, ghost before: Ledgers, ghost pending: set<Identity>)
      returns (stale: Option<Reason>)
      requires Consistent(before, pending) && Waiting(S(), before, key) && key in records
      ensures Consistent(before, pending) && Waiting(S(), before, key)
      ensures stale == None <==> AllCurrent(ledger, records[key].refs)
      ensures stale.Some? ==> stale.value == StaleReason(ledger, records[key].refs)
    {
      hide Consistent, Waiting, AllCurrent, Staleness, CapacityIndex.Valid, Healthy, DeadlineQueues.Exact, InMix;
      stale := CheckBindings(records[key].refs);
    }

    /** Revalidation is tried. When it fails on a record still marked current, the record is passed over unmarked. */
    method RefreshStale(key: Key, reason: Reason, policy: Policy, now: int, ghost before: Ledgers,
                        ghost pending: set<Identity>, ghost fenced: set<Identity>) returns (left: bool)
      requires Consistent(before, pending) && Waiting(S(), before, key) && key in records
               && !AllCurrent(ledger, records[key].refs)
      requires policy.autoRevalidate && reason == StaleReason(ledger, records[key].refs)
      requires !Returns(S(), before, key)
      modifies this, queues, index.Repr
      ensures fresh(index.Repr - old(index.Repr)) && Consistent(before, if left then pending else pending - {key.id})
      ensures Untouched(old(S()), S(), key.id) && key in old(S()).records
      ensures if left then S() == old(S()) && LeftBehind(S(), key) else WorkedThrough(S(), key.id)
      ensures S() == Turned(old(S()), old(index.contents), key, true, policy, now)
      ensures left <==> PassedOver(old(S()), old(index.contents), key, true, policy)
      ensures ReachesAside(old(S()), S(), fenced, Forward(old(S()), before, pending) && policy.Slack() == 0)
    {
      hide Consistent, Waiting, Untouched, WorkedThrough, ReachesAside, NarrowMark, Healthy, InMix, AllCurrent,
           LeftBehind, Forward, Revalidates, Without, Transitioned, Turned, PassedOver, StaleReason, Returns;
      ghost var s0, tame := S(), Forward(S(), before, pending) && policy.Slack() == 0;
      WaitingParts(key, before, pending);
      var wasCurrent := records[key].applicability == Current;
      ghost var m := index.contents;
      var done, measured, refs := AutoRevalidate(key, policy, now, before, pending);
      ghost var s1 := S();
      RefreshStaleOutcome(s0, s1, key, policy, now, m, refs, done, before, pending, fenced);
      StaleTurn(s0, s1, m, key, policy, now, refs, done);
      if wasCurrent { return !done; }
      if done {
        RetiredThrough(s1, key, RevalidationRequired, reason);
        MarkAside(s1, key, RevalidationRequired, reason, fenced);
        RetiredNarrows(s0, s1, key);
        var marked := MarkApplicability(key, RevalidationRequired, reason, before, pending - {key.id});
        RefreshStaleJoin(s0, s1, S(), key, fenced, tame, marked);
        return false;
      }
      ForwardNarrows(s0, key, before, pending);
      MarkLive(key, RevalidationRequired, reason, before, pending, fenced);
      AsideWeaker(s0, S(), fenced, NarrowMark(s0, key, RevalidationRequired), tame);
      return false;
    }

    /**
     Works the ledger through every live record, in key order; `left` are the ones passed over
     unmarked, `back` those that returned. What comes of it is the pass computed from the state before.
     */
    method Refresh(auto: bool, policyOf: Record -> Policy, now: int, ghost before: Ledgers, ghost fenced: set<Identity>)
      returns (left: set<Key>, ghost back: set<Key>, ghost work: seq<Key>)
      requires Consistent(before, IdSet(LiveKeys(records)))
      requires forall k :: k in LiveKeys(records) ==> Waiting(S(), before, k)
      modifies this, queues, index.Repr
      ensures fresh(index.Repr - old(index.Repr)) && Consistent(before, IdSet(left + back))
      ensures SameGround(old(S()), S()) && (left != {} ==> auto) && LeftOver(S(), before, left, back)
      ensures Ascending(work) && forall k :: k in work <==> k in LiveKeys(old(records))
      ensures back == ReturnedOf(old(S()), before, work)
      ensures Pass(S(), left, IdSet(left + back))
              == Passed(Pass(old(S()), {}, IdSet(LiveKeys(old(records)))), before, work, auto, policyOf, now)
      ensures ReachesAside(old(S()), S(), fenced, Forward(old(S()), before, IdSet(LiveKeys(old(records))))
                           && (auto ==> Strict(policyOf)))
    {
      hide *;
      RecordsOfState();
      ghost var s0, p0 := S(), Pass(S(), {}, IdSet(LiveKeys(records)));
      ghost var tame := Forward(s0, before, IdSet(LiveKeys(records))) && (auto ==> Strict(policyOf));
      var order := LiveInOrder(before);
      work := order;
      AsideItself(s0, fenced, tame);
      PassBegins(p0, before, order, auto, policyOf, now);
      NobodyReturned(s0, before, order);
      left, back := {}, {};
      assert left + back == {};
      var i := 0;
      while i < |order|
        invariant i <= |order| && fresh(index.Repr - old(index.Repr))
        invariant Consistent(before, PendingOf(order[i..], left + back)) && Midway(S(), before, order[i..], left, back)
        invariant SameGround(s0, S()) && (left != {} ==> auto) && back == ReturnedOf(s0, before, order[..i])
        invariant Pass(S(), left, PendingOf(order[i..], left + back))
                  == Passed(p0, before, order[..i], auto, policyOf, now)
        invariant ReachesAside(s0, S(), fenced, tame)
                  && (tame ==> Forward(S(), before, PendingOf(order[i..], left + back)))
      {
        assert order[i..][0] == order[i] && order[i..][1..] == order[i + 1..];
        PassedMore(p0, before, order[..i], order[i], auto, policyOf, now);
        ReturnsAsBefore(s0, p0.pending, before, order, i, auto, policyOf, now, S());
        ReturnedNext(s0, before, order, i);
        left, back := RefreshHead(order[i], order[i..], left, back, auto, policyOf, now, before, fenced, s0, tame);
        i := i + 1;
      }
      assert order[i..] == [];
      MidwayEnds(S(), before, left, back);
    }

    /** The next record in line. */
    method RefreshHead(key: Key, ghost rest: seq<Key>, left: set<Key>, ghost back: set<Key>, auto: bool,
                       policyOf: Record -> Policy, now: int, ghost before: Ledgers, ghost fenced: set<Identity>,
                       ghost s0: State, ghost tame: bool)
      returns (left': set<Key>, ghost back': set<Key>)
      requires rest != [] && rest[0] == key
      requires Consistent(before, PendingOf(rest, left + back)) && Midway(S(), before, rest, left, back)
               && SameGround(s0, S()) && (left != {} ==> auto)
      requires ReachesAside(s0, S(), fenced, tame) && (tame ==> Forward(S(), before, PendingOf(rest, left + back)))
               && (tame && auto ==> Strict(policyOf))
      modifies this, queues, index.Repr
      ensures fresh(index.Repr - old(index.Repr))
      ensures Consistent(before, PendingOf(rest[1..], left' + back')) && Midway(S(), before, rest[1..], left', back')
      ensures SameGround(s0, S()) && (left' != {} ==> auto)
      ensures back' == back + if Returns(old(S()), before, key) then {key} else {}
      ensures Pass(S(), left', PendingOf(rest[1..], left' + back'))
              == NextTurn(Pass(old(S()), left, PendingOf(rest, left + back)), before, key, auto, policyOf, now)
      ensures ReachesAside(s0, S(), fenced, tame)
              && (tame ==> Forward(S(), before, PendingOf(rest[1..], left' + back')))
    {
      hide *;
      RecordsOfState();
      ghost var s1, m, pending := S(), index.contents, PendingOf(rest, left + back);
      NextWaits(before, rest, left, back);
      ConsistentParts(before, pending);
      var policy := policyOf(records[key]);
      var behind := RefreshOne(key, auto, policy, now, before, pending, fenced);
      TurnTaken(Pass(s1, left, pending), before, m, key, auto, policyOf, now, S(), behind);
      RefreshedNext(s0, s1, S(), before, rest, left, back, behind, fenced, tame, auto, policy, policyOf);
      left' := if behind then left + {key} else left;
      back' := back + if Returns(s1, before, key) then {key} else {};
    }

    method LiveInOrder(ghost before: Ledgers) returns (work: seq<Key>)
      requires Consistent(before, IdSet(LiveKeys(records)))
      requires forall k :: k in LiveKeys(records) ==> Waiting(S(), before, k)
      ensures Consistent(before, PendingOf(work, {})) && Midway(S(), before, work, {}, {})
      ensures PendingOf(work, {}) == IdSet(LiveKeys(records)) && SameGround(S(), S())
      ensures Ascending(work) && forall k :: k in work <==> k in LiveKeys(records)
      ensures DistinctOwners(work)
      ensures forall j :: 0 <= j < |work| ==> work[j] in S().records && S().records[work[j]].KeyOf() == work[j]
    {
      hide *;
      RecordsOfState();
      ConsistentParts(before, IdSet(LiveKeys(records)));
      work := SortKeys(LiveKeys(records));
      StartMidway(before, work);
      WorkIsFiled(S(), before, work);
    }

    lemma StartMidway(before: Ledgers, work: seq<Key>)
      requires Consistent(before, IdSet(LiveKeys(records))) && Ascending(work) && forall k :: k in work <==>
        k in LiveKeys(records)
      requires forall k :: k in LiveKeys(records) ==> Waiting(S(), before, k)
      ensures Consistent(before, PendingOf(work, {})) && Midway(S(), before, work, {}, {})
      ensures PendingOf(work, {}) == IdSet(LiveKeys(records)) && SameGround(S(), S())
    {
      hide *;
      ConsistentParts(before, IdSet(LiveKeys(records)));
      RecordsOfState();
      AllMidway(S(), before, work);
      GroundItself(S());
    }

    lemma RecordsOfState()
      ensures S().records == records && S().ledger == ledger && S().current == current && S().holds == holds
      ensures S().overcommitted == overcommitted && S().attempts == attempts && S().journal == journal
    {
    }

    lemma NextWaits(before: Ledgers, rest: seq<Key>, left: set<Key>, back: set<Key>)
      requires Midway(S(), before, rest, left, back) && rest != []
      ensures Waiting(S(), before, rest[0]) && rest[0] in records
    {
      assert Waiting(S(), before, rest[0]);
    }

    lemma RefreshedNext(s0: State, s1: State, s2: State, before: Ledgers, rest: seq<Key>, left: set<Key>,
                        back: set<Key>, behind: bool, fenced: set<Identity>, tame: bool, auto: bool, policy: Policy,
                        policyOf: Record -> Policy)
      requires Healthy(s1) && Midway(s1, before, rest, left, back) && rest != [] && Untouched(s1, s2, rest[0].id)
               && SameGround(s0, s1)
      requires if behind then s2 == s1 && LeftBehind(s2, rest[0]) && auto && policy.autoRevalidate
               else WorkedThrough(s2, rest[0].id)
      requires Returns(s1, before, rest[0]) ==> s2 == s1 && !behind
      requires ReachesAside(s0, s1, fenced, tame) && (tame ==> Forward(s1, before, PendingOf(rest, left + back)))
      requires ReachesAside(s1, s2, fenced, Forward(s1, before, PendingOf(rest, left + back))
                            && (auto && policy.autoRevalidate ==> policy.Slack() == 0))
      requires (tame && auto ==> Strict(policyOf)) && exists r :: policy == policyOf(r)
      ensures SameGround(s0, s2) && ReachesAside(s0, s2, fenced, tame)
      ensures var left' := if behind then left + {rest[0]} else left;
              var back' := back + if Returns(s1, before, rest[0]) then {rest[0]} else {};
              && Midway(s2, before, rest[1..], left', back')
              && PendingOf(rest[1..], left' + back')
                 == (if behind || Returns(s1, before, rest[0]) then PendingOf(rest, left + back)
                     else PendingOf(rest, left + back) - {rest[0].id})
              && (tame ==> Forward(s2, before, PendingOf(rest[1..], left' + back')))
    {
      hide Healthy, Untouched, WorkedThrough, ReachesAside, LeftBehind, Returns, Forward, SameGround, PendingOf,
           Waiting, AllCurrent;
      MidwayOwners(s1, before, rest, left, back);
      hide Midway;
      PendingNext(rest, left + back);
      GroundJoin(s0, s1, s2, rest[0].id);
      AsideJoin(s0, s1, s2, fenced, tame, Forward(s1, before, PendingOf(rest, left + back))
                && (auto && policy.autoRevalidate ==> policy.Slack() == 0), tame);
      if behind {
        LeftMidway(s1, before, rest, left, back);
        assert back + {} == back && left + {rest[0]} + back == left + back + {rest[0]};
      } else if Returns(s1, before, rest[0]) {
        BackMidway(s1, before, rest, left, back);
        assert left + (back + {rest[0]}) == left + back + {rest[0]};
      } else {
        WorkedMidway(s1, s2, before, rest, left, back);
        assert back + {} == back;
        if tame { ForwardKept(s1, s2, before, PendingOf(rest, left + back), rest[0].id); }
      }
    }

    // -------------------------------------------------------------------------
    // Capacity
    // -------------------------------------------------------------------------

    /** Enters or leaves the degraded state of a resource when its obligations say so. */
    method DetectOvercommit(resource: ResourceName, ghost before: Ledgers, ghost pending: set<Identity>)
      requires Consistent(before, pending)
      modifies `journal, `overcommitted
      ensures Consistent(before, pending)
      ensures S() == Detected(old(S()), index.contents, resource) && Reaches(old(S()), S(), true)
    {
      hide *;
      RecordsOfState();
      if resource !in ledger {
        UnknownUndetected(S(), index.contents, resource);
        return;
      }
      var over := MeasureOvercommit(resource, before, pending);
      RecordDetection(resource, over, before, pending);
    }

    method RecordDetection(resource: ResourceName, over: bool, ghost before: Ledgers, ghost pending: set<Identity>)
      requires Consistent(before, pending) && resource in ledger && over == Overcommitted(S(), index.contents, resource)
      modifies `journal, `overcommitted
      ensures Consistent(before, pending)
      ensures S() == Detected(old(S()), index.contents, resource) && Reaches(old(S()), S(), true)
    {
      hide *;
      RecordsOfState();
      ghost var s0 := S();
      if over != (resource in overcommitted) {
        SetOvercommit(resource, over, before, pending);
      }
      DetectedHere(s0, resource, over);
    }

    lemma DetectedHere(s0: State, resource: ResourceName, over: bool)
      requires resource in s0.ledger && over == Overcommitted(s0, index.contents, resource)
      requires S() == if over == (resource in s0.overcommitted) then s0 else OvercommitSet(s0, resource, over)
      ensures S() == Detected(s0, index.contents, resource) && Reaches(s0, S(), true)
    {
      hide Overcommitted, Reaches, Detected;
      DetectedBy(s0, index.contents, resource, over, S());
    }

    method SetOvercommit(resource: ResourceName, over: bool, ghost before: Ledgers, ghost pending: set<Identity>)
      requires Consistent(before, pending)
      modifies `journal, `overcommitted
      ensures Consistent(before, pending) && S() == OvercommitSet(old(S()), resource, over)
    {
      hide CapacityIndex.Valid, Healthy, DeadlineQueues.Exact, InMix, Marked;
      ghost var s0 := S();
      journal := journal + [OvercommitMutation(resource, !over)];
      overcommitted := Marked(overcommitted, resource, over);
      MixSame(index.contents, s0, S(), before, pending);
      HealthySame(s0, S());
    }

    method MeasureOvercommit(resource: ResourceName, ghost before: Ledgers, ghost pending: set<Identity>)
      returns (over: bool)
      requires Consistent(before, pending) && resource in ledger
      ensures Consistent(before, pending)
      ensures over <==> Overcommitted(S(), index.contents, resource)
    {
      hide CapacityIndex.Valid, Consistent, Healthy, PeakOn, Surpasses, Outstanding;
      ConsistentParts(before, pending);
      var ceiling := CeilingOf(ledger, resource);
      var stranded := MeasureStranded(resource, before, pending);
      ConsistentParts(before, pending);
      var peak := index.Peak(resource, Reserved, HORIZON);
      PeakSurpasses(index.contents, resource, Reserved, ceiling, peak);
      PeakSurpasses(Outstanding(S(), resource), resource, Combined, ceiling, stranded);
      if stranded > peak {
        peak := stranded;
      }
      return peak > ceiling;
    }

    method MeasureStranded(resource: ResourceName, ghost before: Ledgers, ghost pending: set<Identity>)
      returns (peak: int)
      requires Consistent(before, pending)
      ensures Consistent(before, pending)
      ensures PeakOn(Outstanding(S(), resource), resource, Combined, HORIZON, peak)
    {
      hide *;
      ConsistentParts(before, pending);
      RecordsOfState();
      peak := StrandedPeak(ledger, records, resource, S());
    }

    /** Every statement in turn, up to the first that is refused; `advanced` are the resources whose entry changed. */
    method StateAll(resources: seq<Capacity>) returns (refused: bool, advanced: seq<ResourceName>)
      modifies `ledger
      ensures refused <==> Stated(old(ledger), resources).None?
      ensures ledger == StatedUntil(old(ledger), resources) && advanced == AdvancedNames(old(ledger), resources)
      ensures !refused ==>
        Some(ledger) == Stated(old(ledger), resources) && Advanced(old(ledger), ledger, NameSet(advanced))
    {
      ghost var was := ledger;
      advanced := [];
      var i := 0;
      assert resources[0..] == resources;
      while i < |resources|
        invariant i <= |resources| && Stated(ledger, resources[i..]) == Stated(was, resources)
        invariant StatedUntil(ledger, resources[i..]) == StatedUntil(was, resources)
        invariant advanced + AdvancedNames(ledger, resources[i..]) == AdvancedNames(was, resources)
        invariant Advanced(was, ledger, NameSet(advanced))
      {
        assert resources[i..][0] == resources[i] && resources[i..][1..] == resources[i + 1..];
        match LedgerApply(ledger, resources[i]) {
          case Refused => return true, advanced;
          case Changed(next) =>
            ledger := next;
            advanced := advanced + [resources[i].resource];
          case Unchanged =>
        }
        i := i + 1;
      }
      assert resources[i..] == [];
      return false, advanced;
    }

    /** Every withdrawal in turn; names the ledger does not know are passed over. */
    method WithdrawEach(names: seq<ResourceName>) returns (withdrawn: seq<ResourceName>)
      modifies `ledger
      ensures ledger == WithdrawnAll(old(ledger), withdrawn) && ledger.Keys == old(ledger).Keys
      ensures withdrawn == KnownNames(old(ledger), names) && Advanced(old(ledger), ledger, NameSet(withdrawn))
    {
      ghost var was := ledger;
      withdrawn := [];
      var i := 0;
      assert names[0..] == names;
      while i < |names|
        invariant i <= |names| && ledger == WithdrawnAll(was, withdrawn) && ledger.Keys == was.Keys
        invariant withdrawn + KnownNames(was, names[i..]) == KnownNames(was, names)
        invariant Advanced(was, ledger, NameSet(withdrawn))
      {
        assert names[i..][0] == names[i] && names[i..][1..] == names[i + 1..];
        if names[i] in ledger {
          WithdrawnNext(was, withdrawn, names[i]);
          ledger := ledger[names[i] := ledger[names[i]].(withdrawn := true)];
          withdrawn := withdrawn + [names[i]];
        }
        i := i + 1;
      }
      assert names[i..] == [];
    }

    /** Statements, then withdrawals; a change is journaled, a refusal leaves what was stated before it. */
    method TakeLedger(resources: seq<Capacity>, withdrawals: seq<ResourceName>)
      returns (refused: bool, advanced: seq<ResourceName>, withdrawn: seq<ResourceName>)
      modifies `ledger, `journal
      ensures refused <==> Stated(old(ledger), resources).None?
      ensures refused ==> S() == old(S()).(ledger := StatedUntil(old(ledger), resources))
      ensures !refused ==>
        && withdrawn == KnownNames(Stated(old(ledger), resources).value, withdrawals)
        && advanced == AdvancedNames(old(ledger), resources)
        && Advanced(old(ledger), Stated(old(ledger), resources).value, NameSet(advanced) + NameSet(withdrawn))
        && if advanced == [] && withdrawn == [] then S() == old(S()) && Stated(old(ledger), resources) == Some(ledger)
           else S() == old(S()).(ledger := WithdrawnAll(Stated(old(ledger), resources).value, withdrawn),
                                 journal := old(journal) + [CapacitySnapshot(resources, withdrawn)])
    {
      hide Stated, StatedUntil, WithdrawnAll, KnownNames, Advanced, AdvancedNames;
      ghost var was := ledger;
      withdrawn := [];
      refused, advanced := StateAll(resources);
      if refused { return; }
      ghost var stated := ledger;
      withdrawn := WithdrawEach(withdrawals);
      AdvancedBoth(was, stated, ledger, NameSet(advanced), NameSet(withdrawn));
      if advanced == [] && withdrawn == [] {
        AdvancedNothing(was, ledger, NameSet(advanced) + NameSet(withdrawn));
        AdvancedNothing(was, stated, NameSet(advanced) + NameSet(withdrawn));
        return;
      }
      journal := journal + [CapacitySnapshot(resources, withdrawn)];
    }

    /** The ledger moves and the change is journaled; the index still answers as before. */
    method TakeStatement(resources: seq<Capacity>, withdrawals: seq<ResourceName>)
      returns (refused: bool, advanced: seq<ResourceName>, withdrawn: seq<ResourceName>)
      requires Valid()
      modifies `ledger, `journal
      ensures refused <==> Stated(old(ledger), resources).None?
      ensures refused ==> S() == old(S()).(ledger := StatedUntil(old(ledger), resources))
      ensures refused && ledger == old(ledger) ==> Valid()
      ensures !refused ==>
        && withdrawn == KnownNames(Stated(old(ledger), resources).value, withdrawals)
        && advanced == AdvancedNames(old(ledger), resources)
        && ledger == Ingested(old(ledger), resources, withdrawals)
        && var d, before := CapacitySnapshot(resources, withdrawn), Merged(under, behind, old(ledger));
           if advanced == [] && withdrawn == [] then S() == old(S()) && Valid()
           else
             && S() == Taken(old(S()), resources, withdrawals)
             && CanIngest(old(S()), d, HoldsOn(holds, NameSet(advanced) + NameSet(withdrawn)))
             && S() == Written(old(S()), d)
             && Consistent(before, IdSet(LiveKeys(records))) && SoundRecords(old(ledger), records)
             && (forall k :: k in LiveKeys(records) ==> Waiting(S(), before, k))
    {
      hide CapacityIndex.Valid, Healthy, DeadlineQueues.Exact, InMix, Aligned, Stated, StatedUntil, WithdrawnAll,
           IdSet, LiveKeys, Waiting, HoldsOn, KnownNames, NameSet, SoundRecords, CanIngest, Written, Advanced,
           Applicable, Merged, Ingested, AdvancedNames;
      ghost var s0 := S();
      AlignedParts();
      refused, advanced, withdrawn := TakeLedger(resources, withdrawals);
      if refused { return; }
      IngestedKnown(s0.ledger, resources, withdrawals, withdrawn);
      if advanced == [] && withdrawn == [] { return; }
      StatementTaken(s0, resources, withdrawn, S(), NameSet(advanced), index.contents, under, behind);
    }

    lemma AlignedParts()
      requires AlignedNow()
      ensures Aligned(S().ledger, S().records, behind) && behind <= S().current.Keys
    {
    }

    /**
     A snapshot: the ledger moves, live records are worked through it, holds on the resources
     that moved are fenced, and overcommitment is noticed. `left` are the records passed over:
     marked current although their bindings have moved. `back` are those whose bindings return
     after they lost their entries: with one of them the invariant is gone. A statement that is
     refused leaves the ones before it in the ledger, neither journaled nor worked through.
     */
    method IngestCapacity(resources: seq<Capacity>, withdrawals: seq<ResourceName>, policyOf: Record -> Policy,
                          now: int)
      returns (accepted: bool, ghost moved: bool, ghost left: set<Key>, ghost back: set<Key>, ghost work: seq<Key>)
      requires Valid()
      modifies this, queues, index.Repr
      ensures fresh(index.Repr - old(index.Repr))
      ensures accepted <==> Distinct(NamesIn(resources)) && Stated(old(ledger), resources).Some?
      ensures !accepted ==>
        S() == old(S()).(ledger := if Distinct(NamesIn(resources)) then StatedUntil(old(ledger), resources)
                         else old(ledger))
      ensures !accepted && ledger == old(ledger) ==> Valid()
      ensures accepted ==> ledger == Ingested(old(ledger), resources, withdrawals) && Consistent(under, behind)
      ensures accepted ==> forall k :: k in records ==> (LeftBehind(S(), k) <==> k in left)
      ensures accepted && left == {} ==> Attuned(ledger, records)
      ensures accepted ==> (moved <==> MovedNames(old(ledger), resources, withdrawals) != [])
      ensures accepted && !moved ==> S() == old(S()) && Valid()
      ensures moved ==>
        && accepted && under == Merged(old(under), old(behind), old(ledger)) && behind == IdSet(left + back)
        && WorkedOut(Taken(old(S()), resources, withdrawals), S(), under, work, policyOf, now, left)
        && back == ReturnedOf(Taken(old(S()), resources, withdrawals), under, work) && (Valid() <==> back == {})
      ensures moved ==>
        var names := NameSet(MovedNames(old(ledger), resources, withdrawals));
        && holds == HoldsReleased(old(S()), HoldsOn(old(holds), names)).holds
        && Noticed(old(overcommitted), S(), index.contents, names)
      ensures accepted ==> Reaches(old(S()), S(), Narrowing(old(S()), ledger, policyOf, old(under), old(behind)))
    {
      hide *;
      RecordsOfState();
      left, back, work := {}, {}, [];
      moved := false;
      ghost var s0 := S();
      if !Distinct(NamesIn(resources)) {
        SameLedger(s0);
        return false, false, left, back, work;
      }
      var refused, advanced, withdrawn := TakeStatement(resources, withdrawals);
      RecordsOfState();
      if refused { return false, false, left, back, work; }
      MovedIs(s0.ledger, resources, withdrawals);
      ghost var tame := Narrowing(s0, ledger, policyOf, under, behind);
      ReachesItself(s0, tame);
      if advanced == [] && withdrawn == [] {
        ValidParts();
        left := PassedOverNow();
        return true, false, left, back, work;
      }
      NameSets(advanced, withdrawn);
      SameReleased(s0, S(), HoldsOn(holds, NameSet(advanced) + NameSet(withdrawn)));
      left, back, work := WorkThrough(CapacitySnapshot(resources, withdrawn), NameSet(advanced) + NameSet(withdrawn),
                                      policyOf, now, s0);
      ghost var s2 := S();
      RecordsOfState();
      DetectEach(advanced, s0, tame);
      ghost var s3 := S();
      DetectEach(withdrawn, s0, tame);
      RecordsOfState();
      DegradedMore(s2, s3, S(), index.contents, NameSet(advanced), NameSet(withdrawn));
      DegradedParts(s2, S(), index.contents, NameSet(advanced) + NameSet(withdrawn));
      WorkedOutSame(Taken(s0, resources, withdrawals), s2, S(), under, work, policyOf, now, left);
      LeftOverSame(s2, S(), under, left, back);
      LeftOverExactly(S(), under, left, back);
      ValidUnlessReturned(left, back);
      return true, true, left, back, work;
    }

    lemma MovedIs(ledger: Ledger, resources: seq<Capacity>, withdrawals: seq<ResourceName>)
      requires Stated(ledger, resources).Some?
      ensures MovedNames(ledger, resources, withdrawals)
              == AdvancedNames(ledger, resources) + KnownNames(Stated(ledger, resources).value, withdrawals)
    {
    }

    lemma ValidUnlessReturned(left: set<Key>, back: set<Key>)
      requires Consistent(under, behind) && behind == IdSet(left + back) && LeftOver(S(), under, left, back)
      ensures Valid() <==> back == {}
    {
      hide CapacityIndex.Valid, Healthy, DeadlineQueues.Exact, InMix, IdSet, LeftOver, Aligned;
      LeftOverAligned(S(), under, left, back);
    }

    /**
     Who will be passed over can be told before a snapshot is taken. Nobody is exactly when nobody is at
     their turn; only records that are current, auto-revalidating and moved can be; the first of them in
     line is exactly when the index as it stands refuses it; and any bound to a withdrawn resource is.
     */
    lemma IngestionForeseen(resources: seq<Capacity>, withdrawals: seq<ResourceName>, work: seq<Key>,
                            policyOf: Record -> Policy, now: int)
      requires Valid() && Stated(ledger, resources).Some?
      requires Ascending(work) && forall k :: k in work <==> k in LiveKeys(records)
      ensures Foreseen(Taken(S(), resources, withdrawals), index.contents, Merged(under, behind, ledger), work,
                       policyOf, now)
    {
      hide CapacityIndex.Valid, Healthy, DeadlineQueues.Exact, InMix, Aligned, Stated, WithdrawnAll,
           Merged, KnownNames, Foreseen, Ingested, IdSet, LiveKeys, Waiting;
      var s := S();
      var taken := Taken(s, resources, withdrawals);
      var withdrawn := KnownNames(Stated(s.ledger, resources).value, withdrawals);
      IngestedKnown(s.ledger, resources, withdrawals, withdrawn);
      StatementIs(s, resources, withdrawn);
      StatedHealthy(s, CapacitySnapshot(resources, withdrawn));
      ReadyToRefresh(index.contents, s, taken, under, behind);
      AllForeseen(taken, index.contents, Merged(under, behind, s.ledger), work, policyOf, now);
    }

    /** Records marked current although the ledger does not bear their bindings out. */
    ghost method PassedOverNow() returns (left: set<Key>)
      requires Valid()
      ensures forall k :: k in records ==> (LeftBehind(S(), k) <==> k in left)
      ensures left == {} ==> Attuned(ledger, records)
    {
      hide CapacityIndex.Valid, Healthy, DeadlineQueues.Exact, InMix, AllCurrent;
      left := set k | k in records && LeftBehind(S(), k);
    }

    /** Live records are worked through the change; then the holds on the resources that moved are fenced. */
    method WorkThrough(ghost d: DurableRecord, names: set<ResourceName>, policyOf: Record -> Policy, now: int,
                       ghost s0: State)
      returns (ghost left: set<Key>, ghost back: set<Key>, ghost work: seq<Key>)
      requires CanIngest(s0, d, HoldsOn(holds, names)) && S() == Written(s0, d)
      requires Consistent(Merged(under, behind, s0.ledger), IdSet(LiveKeys(records)))
               && SoundRecords(s0.ledger, records)
      requires forall k :: k in LiveKeys(records) ==> Waiting(S(), Merged(under, behind, s0.ledger), k)
      modifies this, queues, index.Repr
      ensures fresh(index.Repr - old(index.Repr)) && Consistent(under, behind)
      ensures LeftOver(S(), under, left, back) && ledger == old(ledger) && overcommitted == old(overcommitted)
      ensures holds == HoldsReleased(old(S()), HoldsOn(old(holds), names)).holds
      ensures under == Merged(old(under), old(behind), s0.ledger) && behind == IdSet(left + back)
      ensures WorkedOut(old(S()), S(), under, work, policyOf, now, left) && back == ReturnedOf(old(S()), under, work)
      ensures Reaches(s0, S(), Narrowing(s0, ledger, policyOf, old(under), old(behind)))
    {
      hide *;
      RecordsOfState();
      ghost var before, fenced, s1, u, b := Merged(under, behind, s0.ledger), HoldsOn(holds, names), S(), under, behind;
      left, back, work := Refresh(true, policyOf, now, before, fenced);
      RecordsOfState();
      ghost var s2 := S();
      GroundParts(s1, s2);
      PassRecords(s1, s2, before, work, policyOf, now, left, IdSet(left + back));
      WorkedReaches(s0, d, fenced, s1, s2, policyOf, u, b);
      ReleaseEach(HoldsOn(holds, names), before, IdSet(left + back));
      RecordsOfState();
      ReleasedShape(s2, fenced);
      SameReleased(s1, s2, fenced);
      LeftOverReleased(s2, before, left, back, fenced);
      SettleBehind(before, left, back);
      RecordsOfState();
      WorkedOutSame(s1, s2, S(), before, work, policyOf, now, left);
    }

    /** What was left over is what the index is behind with from now on. */
    ghost method SettleBehind(before: Ledgers, left: set<Key>, back: set<Key>)
      requires Consistent(before, IdSet(left + back))
      modifies `under, `behind
      ensures Consistent(under, behind) && S() == old(S()) && under == before && behind == IdSet(left + back)
    {
      hide CapacityIndex.Valid, Healthy, DeadlineQueues.Exact, InMix, IdSet;
      under, behind := before, IdSet(left + back);
    }

    method DetectEach(names: seq<ResourceName>, ghost s0: State, ghost tame: bool)
      requires Consistent(under, behind) && Reaches(s0, S(), tame)
      modifies `journal, `overcommitted
      ensures Consistent(under, behind) && Reaches(s0, S(), tame)
      ensures DegradedAs(old(S()), S(), index.contents, NameSet(names))
    {
      hide *;
      ghost var s2 := S();
      NoneDegraded(s2, index.contents);
      NoNames(names);
      var i := 0;
      while i < |names|
        invariant i <= |names| && Consistent(under, behind) && Reaches(s0, S(), tame)
        invariant DegradedAs(s2, S(), index.contents, NameSet(names[..i]))
      {
        ghost var s1 := S();
        DetectOvercommit(names[i], under, behind);
        DetectedDegrades(s1, index.contents, names[i]);
        DegradedMore(s2, s1, S(), index.contents, NameSet(names[..i]), {names[i]});
        NextName(names, i);
        ReachesOn(s0, s1, S(), tame);
        i := i + 1;
      }
    }

    lemma NoNames(names: seq<ResourceName>)
      ensures NameSet(names[..0]) == {} && names[..|names|] == names
    {
    }

    lemma NextName(names: seq<ResourceName>, i: nat)
      requires i < |names|
      ensures NameSet(names[..i + 1]) == NameSet(names[..i]) + {names[i]}
    {
      assert names[..i + 1] == names[..i] + [names[i]];
    }

    /** The index holds exactly what the records call for unless a pending record is astray. */
    lemma IndexIsExact(before: Ledgers, pending: set<Identity>)
      requires Consistent(before, pending)
      ensures index.contents == Expected(S()) <==>
              forall k :: k in records && k.id in pending && !IsTerminal(records[k].state) ==> !Astray(S(), before, k)
    {
      hide CapacityIndex.Valid, Healthy, DeadlineQueues.Exact, InMix, Expected, Astray;
      PendingIndexed(index.contents, S(), before, pending);
    }

    // -------------------------------------------------------------------------
    // Audit
    // -------------------------------------------------------------------------

    /** The audit of a resource: its own sum over records and holds against the peak the index reports. */
    method AuditResource(resource: ResourceName) returns (brute: int, agrees: bool)
      requires Valid()
      ensures PeakOn(Expected(S()), resource, Combined, HORIZON, brute)
      ensures agrees <==> brute == index.Peak(resource, Combined, HORIZON)
      ensures index.contents == Expected(S()) ==> agrees
    {
      hide *;
      RecordsOfState();
      ValidParts();
      brute := BruteForce(ledger, records, current, holds, resource, S());
      ValidIndex();
      agrees := brute == index.Peak(resource, Combined, HORIZON);
      if index.contents == Expected(S()) {
        OnePeak(index.contents, resource, brute, index.Peak(resource, Combined, HORIZON));
      }
    }

    lemma ValidIndex()
      requires Valid()
      ensures index.Valid()
    {
    }

    // -------------------------------------------------------------------------
    // Resolution
    // -------------------------------------------------------------------------

    /**
     Ends the degraded state of a resource; with `revoke`, obligations are given up in
     order, each only while those before it were not enough, and none after that.
     */
    method ResolveOvercommit(resource: ResourceName, revoke: bool, scanLimit: nat)
      returns (status: Status, ghost revoked: seq<Key>)
      requires Valid() && Payable(S(), index.contents, resource)
      modifies this, queues, index.Repr
      ensures Valid() && fresh(index.Repr - old(index.Repr)) && Reaches(old(S()), S(), true)
      ensures under == old(under) && behind <= old(behind)
      ensures status == if resource in old(overcommitted) && resource in old(ledger) then Ok else Error(NotFound)
      ensures status != Ok ==> S() == old(S()) && revoked == []
      ensures status == Ok ==>
        && InTurn(old(S()), old(index.contents), resource, CeilingOf(old(ledger), resource), scanLimit, revoked)
        && Known(old(S()), revoked) && |revoked| <= REVOCATION_LIMIT + 1 && (!revoke ==> revoked == [])
        && (revoke && |revoked| <= REVOCATION_LIMIT ==>
              SeesEnough(RevokedAll(old(S()), revoked), Lacking(old(index.contents), IdsOfKeys(revoked)), resource,
                         CeilingOf(old(ledger), resource), scanLimit))
        && S() == RevokedAll(old(S()), revoked).(journal := journal, overcommitted := old(overcommitted) - {resource})
      ensures status == Ok && |On(old(index.contents), resource)| <= scanLimit ==>
        && GivesUp(old(S()), old(index.contents), resource, CeilingOf(old(ledger), resource), revoked)
        && (revoke && |revoked| <= REVOCATION_LIMIT ==>
              !OverfullAfter(old(S()), old(index.contents), resource, CeilingOf(old(ledger), resource), revoked))
    {
      hide *;
      RecordsOfState();
      ghost var s0, m0 := S(), index.contents;
      LimitIs();
      ReachesItself(s0, true);
      revoked := [];
      if resource !in overcommitted || resource !in ledger { return Error(NotFound), revoked; }
      GivingUpBegins(resource, scanLimit);
      if revoke { revoked := RevokeObligations(resource, scanLimit); }
      RecordsOfState();
      ghost var s1 := S();
      SoundIndex();
      GivingUpParts(s0, m0, s1, index.contents, resource, CeilingOf(s0.ledger, resource), scanLimit, revoked);
      EndDegraded(resource);
      ReachesJoin(s0, s1, S(), true);
      return Ok, revoked;
    }

    lemma GivingUpBegins(resource: ResourceName, scanLimit: nat)
      requires resource in ledger
      ensures GivingUp(S(), index.contents, S(), index.contents, resource, CeilingOf(ledger, resource), scanLimit, [])
    {
      hide GivesUp, StillObliged, RevokedAll, Lacking;
      NoneGivenUp(S(), index.contents, resource, CeilingOf(ledger, resource));
    }

    /** Revokes the first in line until the rest is within the ceiling, or the work per call is used up. */
    method RevokeObligations(resource: ResourceName, scanLimit: nat) returns (ghost revoked: seq<Key>)
      requires Valid() && resource in ledger && Payable(S(), index.contents, resource)
      modifies this, queues, index.Repr
      ensures Valid() && fresh(index.Repr - old(index.Repr)) && Reaches(old(S()), S(), true)
      ensures under == old(under) && behind <= old(behind)
      ensures GivingUp(old(S()), old(index.contents), S(), index.contents, resource, CeilingOf(old(ledger), resource),
                       scanLimit, revoked)
      ensures |revoked| <= REVOCATION_LIMIT + 1
      ensures |revoked| <= REVOCATION_LIMIT ==>
        SeesEnough(S(), index.contents, resource, CeilingOf(old(ledger), resource), scanLimit)
    {
      hide *;
      RecordsOfState();
      ghost var s0, m0 := S(), index.contents;
      ghost var limit := CeilingOf(ledger, resource);
      LimitIs();
      ReachesItself(s0, true);
      GivingUpBegins(resource, scanLimit);
      revoked := [];
      var count := 0;
      var again := true;
      while again
        invariant Valid() && fresh(index.Repr - old(index.Repr)) && Reaches(s0, S(), true)
        invariant under == old(under) && behind <= old(behind)
        invariant GivingUp(s0, m0, S(), index.contents, resource, limit, scanLimit, revoked) && count == |revoked|
        invariant resource in ledger && CeilingOf(ledger, resource) == limit
        invariant Payable(S(), index.contents, resource)
        invariant again ==> count <= REVOCATION_LIMIT
        invariant !again ==>
          || count == REVOCATION_LIMIT + 1
          || (count <= REVOCATION_LIMIT && SeesEnough(S(), index.contents, resource, limit, scanLimit))
        decreases again, ConsumingKeys(records)
      {
        ghost var s1 := S();
        var victim, v := PickVictim(resource, scanLimit);
        if victim.None? {
          again := false;
        } else {
          GiveUp(victim.value, resource, scanLimit, s0, m0, limit, revoked, v);
          revoked := revoked + [victim.value];
          ReachesJoin(s0, s1, S(), true);
          count := count + 1;
          again := count <= REVOCATION_LIMIT;
        }
      }
    }

    method PickVictim(resource: ResourceName, scanLimit: nat) returns (victim: Option<Key>, ghost v: Contents)
      requires Valid() && resource in ledger && Payable(S(), index.contents, resource)
      ensures Valid() && Views(v, index.contents, resource, scanLimit)
      ensures victim.None? ==> SeesEnough(S(), index.contents, resource, CeilingOf(ledger, resource), scanLimit)
      ensures victim.Some? ==>
        && Overfull(S(), v, resource, CeilingOf(ledger, resource)) && FirstObliged(S(), v, resource, victim.value)
        && victim.value in records && records[victim.value].Consumes()
    {
      hide CapacityIndex.Valid, Healthy, DeadlineQueues.Exact, InMix, Aligned, Payable, Overfull, Obliged, Views;
      var first, seen := NextVictim(index, ledger, records, resource, scanLimit, S(), under, behind);
      victim, v := first, seen;
      if victim.Some? {
        ViewIsPart(v, index.contents, resource, scanLimit);
        FirstConsumes(S(), index.contents, under, behind, resource, victim.value);
      }
    }

    /** Revokes one obligation; what is owed and what consumes grows less. */
    method GiveUp(k: Key, resource: ResourceName, ghost scanLimit: nat, ghost s0: State, ghost m0: Contents,
                  ghost limit: int, ghost revoked: seq<Key>, ghost v: Contents)
      requires Valid() && resource in ledger && CeilingOf(ledger, resource) == limit && k in records
               && records[k].Consumes()
      requires Payable(S(), index.contents, resource) && Views(v, index.contents, resource, scanLimit)
      requires Overfull(S(), v, resource, limit) && FirstObliged(S(), v, resource, k)
      requires GivingUp(s0, m0, S(), index.contents, resource, limit, scanLimit, revoked)
      modifies this, queues, index.Repr
      ensures Valid() && fresh(index.Repr - old(index.Repr)) && Reaches(old(S()), S(), true)
      ensures under == old(under) && behind <= old(behind)
      ensures GivingUp(s0, m0, S(), index.contents, resource, limit, scanLimit, revoked + [k])
      ensures resource in ledger && CeilingOf(ledger, resource) == limit && Payable(S(), index.contents, resource)
      ensures ConsumingKeys(records) < ConsumingKeys(old(records))
    {
      hide *;
      RecordsOfState();
      ghost var s1, m1 := S(), index.contents;
      ghost var b1 := behind;
      SoundIndex();
      VictimMoves(k);
      Tick(k, Revoked);
      RecordsOfState();
      ghost var s2, m2 := S(), index.contents;
      MixNow();
      OnlyRecordsLedger(s1, s2);
      OneGivenUp(m1, s1, m2, s2, under, b1, k);
      GivingUpMore(s0, m0, s1, m1, s2, m2, resource, limit, scanLimit, revoked, k, v);
      GivingUpEases(m1, s1, m2, s2, k, resource);
      FewerConsume(s1.records, k);
    }

    lemma MixNow()
      requires Valid()
      ensures Healthy(S()) && InMix(index.contents, S(), under, behind) && Keyed(index.contents)
    {
      hide CapacityIndex.Valid, Healthy, DeadlineQueues.Exact, InMix, Aligned, Keyed, Representable;
      MixRepresentable(S(), index.contents, under, behind);
    }

    lemma SoundIndex()
      requires Valid()
      ensures Keyed(index.contents) && OnHorizon(index.contents)
    {
      hide *;
      MixNow();
      MixOnHorizon(index.contents, S(), under, behind);
    }

    lemma VictimMoves(k: Key)
      requires Valid() && k in records && records[k].Consumes()
      ensures CanMove(S(), k, Revoked, 0) && k.id in current && current[k.id] == k.generation
      ensures Healthy(S()) && InMix(index.contents, S(), under, behind) && Keyed(index.contents)
    {
      hide CapacityIndex.Valid, Healthy, DeadlineQueues.Exact, InMix, Aligned, Keyed, Representable;
      MixRepresentable(S(), index.contents, under, behind);
      HealthyRecord(S(), k);
    }

    /** The degraded state ends, on record. */
    method EndDegraded(resource: ResourceName)
      requires Valid()
      modifies `journal, `overcommitted
      ensures Valid() && Reaches(old(S()), S(), true)
      ensures S() == old(S()).(journal := journal, overcommitted := old(overcommitted) - {resource})
    {
      hide CapacityIndex.Valid, Healthy, DeadlineQueues.Exact, InMix, Aligned, Consistent, Reaches;
      ghost var s0 := S();
      SetOvercommit(resource, false, under, behind);
      ReachesByStep(s0, Note(OvercommitMutation(resource, true)), true);
    }

    lemma StillScheduled(before: map<Key, Record>, key: Key, r: Record)
      requires queues.Exact(before)
      ensures queues.ExactBut(before[key := r], key)
    {
      StepBut(queues.activation, Activation, before, key, r);
      StepBut(queues.expiry, Expiry, before, key, r);
      StepBut(queues.recall, RecallEffect, before, key, r);
    }
  }
}

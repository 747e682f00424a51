/**
 The capacity test compares sums after a cap. Where a ceiling sits at the cap
 the test cannot see past it: exactly when a step breaks the capacity closure.
 */
module Capping {
  import opened Timeline
  import opened Claims
  import opened Entries
  import opened Records
  import opened FabricState
  import opened Steps
  import opened Lineage
  import opened Closure
  import opened Runs

  // ---------------------------------------------------------------------------
  // One more entry, exactly
  // ---------------------------------------------------------------------------

  /** Where only one key begins to pull, the load grows by exactly its pull. */
  lemma LoadRises(after: State, before: State, key: EntryKey, t: int)
    requires Keyed(Expected(after)) && Keyed(Expected(before)) && Wanted(after, key).Some? && Pull(before, key, t) == 0
    requires forall k: EntryKey :: k.resource == key.resource && k != key ==> Pull(after, k, t) == Pull(before, k, t)
    ensures LoadOn(Expected(after), key.resource, Combined, t)
            == LoadOn(Expected(before), key.resource, Combined, t) + Pull(after, key, t)
  {
    hide Wanted, Expected, On, Load, ClaimsOf, LoadOn;
    LoadFollowsButOne(after, before, key, t);
    var a, b := On(Expected(after), key.resource), On(Expected(before), key.resource);
    OnKeyed(Expected(after), key.resource);
    OnKeyed(Expected(before), key.resource);
    OnExpected(after, key.resource, key);
    var rest := a - {key};
    forall k | k in b && Weight(b[k], Combined, t) != 0
      ensures k in rest && Weight(b[k], Combined, t) <= Weight(rest[k], Combined, t)
    {
      OnExpected(before, key.resource, k);
      OnExpected(after, key.resource, k);
    }
    assert Keyed(rest);
    LoadDominated(b, rest, Combined, t);
    LoadOfSplit(a, key, Combined, t);
    LoadIs(after, key.resource, t);
    LoadIs(before, key.resource, t);
  }

  lemma LoadIs(s: State, resource: ResourceName, t: int)
    ensures LoadOn(Expected(s), resource, Combined, t) == Load(ClaimsOf(On(Expected(s), resource), Combined), t)
  {
  }

  // ---------------------------------------------------------------------------
  // Holds
  // ---------------------------------------------------------------------------

  lemma HoldPulls(s: State, h: Hold, k: EntryKey, t: int)
    requires CanTakeHold(s, h, 0)
    ensures var after := s.(holds := s.holds[h.id := h]);
            if k.kind == HolderKind.Hold && k.id == h.id then
              && Pull(s, k, t) == 0
              && (k.resource in h.resources ==> Wanted(after, k).Some?)
              && (k.resource in h.resources && h.interval.Contains(t) ==> Pull(after, k, t) == h.amount)
            else Pull(after, k, t) == Pull(s, k, t)
  {
    hide Indexable, FitsIn;
  }

  lemma HoldPassesCap(s: State, h: Hold, i: nat, t: int)
    requires Inv(s) && CanTakeHold(s, h, 0) && OverCap(s.ledger, Expected(s), h.resources, h.interval, h.amount, i, t)
    ensures !Closed(s.(holds := s.holds[h.id := h]))
  {
    hide Inv, FitsIn, Pull, Wanted, Expected, LoadOn;
    var after, resource := s.(holds := s.holds[h.id := h]), h.resources[i];
    var key := EntryKey(HolderKind.Hold, h.id, resource);
    TakeHoldKeepsInv(s, h, 0);
    ExpectedKeyed(s);
    ExpectedKeyed(after);
    HoldPulls(s, h, key, t);
    forall k: EntryKey | k.resource == resource && k != key ensures Pull(after, k, t) == Pull(s, k, t) {
      HoldPulls(s, h, k, t);
    }
    LoadRises(after, s, key, t);
    assert Live(s.ledger, h.resources[i]);
    assert !ClosedOn(after, resource, t);
  }

  // ---------------------------------------------------------------------------
  // Successors
  // ---------------------------------------------------------------------------

  /** A predecessor that was superseded pulls nothing. */
  lemma SupersededPullsNothing(s: State, d: DurableRecord, measured: Contents, resource: ResourceName, t: int)
    requires Inv(s) && CanSupersede(s, d, measured, 0)
    ensures var base := WithState(s, d.record.predecessor.value, Superseded);
            Pull(base, EntryKey(Reservation, d.record.id, resource), t) == 0
  {
    hide Inv, FitsIn, Wellbound;
  }

  /** A successor takes its amount at every instant of its window. */
  lemma SuccessorPulls(s: State, d: DurableRecord, measured: Contents, i: nat, t: int)
    requires Inv(s) && CanSupersede(s, d, measured, 0) && i < |d.record.refs| && d.record.Window().Contains(t)
    ensures Applicable(s, d) && Live(s.ledger, d.record.refs[i].resource) && Written(s, d).ledger == s.ledger
    ensures var key := EntryKey(Reservation, d.record.id, d.record.refs[i].resource);
            Wanted(Written(s, d), key).Some? && Pull(Written(s, d), key, t) == d.record.terms.amount
  {
    hide Inv, FitsIn, Applied, Wanted;
    SupersedeShape(s, d, measured, 0);
    SupersedePulls(s, d, measured, 0, EntryKey(Reservation, d.record.id, d.record.refs[i].resource));
    assert IsCurrent(s.ledger, d.record.refs[i]);
    assert d.record.Binds(d.record.refs[i].resource);
  }

  lemma SuccessorPassesCap(s: State, d: DurableRecord, measured: Contents, i: nat, t: int)
    requires Inv(s) && Closed(s) && CanSupersede(s, d, measured, 0)
    requires var base := WithState(s, d.record.predecessor.value, Superseded);
             OverCap(s.ledger, Expected(base), NamesOf(d.record.refs), d.record.Window(), d.record.terms.amount, i, t)
    ensures Applicable(s, d) && !Closed(Written(s, d))
  {
    hide Inv, FitsIn, Pull, Wanted, Expected, LoadOn, Written, Closed, Wellbound;
    var base, resource := WithState(s, d.record.predecessor.value, Superseded), d.record.refs[i].resource;
    var key := EntryKey(Reservation, d.record.id, resource);
    SuccessorPulls(s, d, measured, i, t);
    var after := Written(s, d);
    SupersedeKeepsInv(s, d, measured, 0);
    SupersedeBase(s, d, measured, 0);
    ExpectedKeyed(base);
    ExpectedKeyed(after);
    SupersededPullsNothing(s, d, measured, resource, t);
    forall k: EntryKey | k.resource == resource && k != key ensures Pull(after, k, t) == Pull(base, k, t) {
      SupersedePulls(s, d, measured, 0, k);
      SamePull(after, base, k, t);
    }
    LoadRises(after, base, key, t);
    NotClosedOn(after, resource, t);
  }

  lemma SamePull(a: State, b: State, k: EntryKey, t: int)
    requires Wanted(a, k) == Wanted(b, k)
    ensures Pull(a, k, t) == Pull(b, k, t)
  {
    hide Wanted;
  }

  lemma NotClosedOn(s: State, resource: ResourceName, t: int)
    requires Live(s.ledger, resource)
    requires LoadOn(Expected(s), resource, Combined, t) > s.ledger[resource].capacity.Ceiling()
    ensures !Closed(s)
  {
    hide LoadOn, Expected;
    assert !ClosedOn(s, resource, t);
  }

  // ---------------------------------------------------------------------------
  // Admission
  // ---------------------------------------------------------------------------

  /** The member that covers the instant takes its amount; nothing else changes there. */
  lemma MemberPulls(s: State, d: DurableRecord, consumed: set<Identity>, i: nat, j: nat, t: int, k: EntryKey)
    requires Inv(s) && CanAdmit(s, d, consumed, 0) && i < |Members(d)| && j < |d.record.refs|
    requires Members(d)[i].terms.interval.Contains(t) && k.resource == d.record.refs[j].resource
    ensures Applicable(s, d) && Live(s.ledger, k.resource)
    ensures var after, base := HoldsReleased(Written(s, d), consumed), Cleared(s, d.companions, consumed);
            if k == EntryKey(Reservation, Members(d)[i].id, k.resource) then
              Pull(base, k, t) == 0 && Wanted(after, k).Some? && Pull(after, k, t) == d.record.terms.amount
            else Pull(after, k, t) == Pull(base, k, t)
  {
    hide Inv, FitsIn, Applied, Cleared, HoldsReleased, Wanted, RevokedAll, Known;
    var m := Members(d)[i];
    assert m.refs == d.record.refs && m.terms.amount == d.record.terms.amount;
    assert IsCurrent(s.ledger, m.refs[j]);
    AdmitMembers(s, d, consumed, 0, i, k.resource);
    if k == EntryKey(Reservation, m.id, k.resource) {
      assert m.Binds(k.resource) && Indexable(s.ledger, m);
    } else if n :| 0 <= n < |Members(d)| && k.kind == Reservation && Members(d)[n].id == k.id {
      AdmitMembers(s, d, consumed, 0, n, k.resource);
      assert Covers(d, i, k.resource, t);
      OneCovers(s, d, i, k.resource, t);
      NotCovered(s, d, n, k.resource, t);
    } else {
      AdmitOthers(s, d, consumed, 0, k, s.ledger);
    }
  }

  lemma NotCovered(s: State, d: DurableRecord, n: nat, resource: ResourceName, t: int)
    requires d.ReservationMutation? && n < |Members(d)| && FreshMembers(s, Members(d)) && !Covers(d, n, resource, t)
    requires Members(d)[n].Binds(resource)
    ensures Weight(Members(d)[n].Entry(resource), Combined, t) == 0
  {
    hide Wellbound;
  }

  lemma AdmittedSoundly(s: State, d: DurableRecord, consumed: set<Identity>)
    requires Inv(s) && Closed(s) && CanAdmit(s, d, consumed, 0)
    ensures Applicable(s, d) && HoldsReleased(Written(s, d), consumed).ledger == s.ledger
    ensures Keyed(Expected(HoldsReleased(Written(s, d), consumed)))
    ensures Keyed(Expected(Cleared(s, d.companions, consumed)))
  {
    hide Inv, Closed, FitsIn, Applied, Expected, Keyed, FreshMembers, Cleared, Known, HoldsReleased, Chained;
    InvChained(s);
    AdmitShape(s, d, consumed, 0);
    AdmitKeepsInv(s, d, consumed, 0);
    ClearedStaysClosed(s, d.companions, consumed);
    ExpectedKeyed(Cleared(s, d.companions, consumed));
    ExpectedKeyed(HoldsReleased(Written(s, d), consumed));
    HoldsOnly(Written(s, d), consumed);
  }

  lemma AdmissionPassesCap(s: State, d: DurableRecord, consumed: set<Identity>, i: nat, j: nat, t: int)
    requires Inv(s) && Closed(s) && CanAdmit(s, d, consumed, 0) && i < |Members(d)|
    requires OverCap(s.ledger, Expected(Cleared(s, d.companions, consumed)), NamesOf(d.record.refs),
                     Members(d)[i].terms.interval, d.record.terms.amount, j, t)
    ensures Applicable(s, d) && !Closed(HoldsReleased(Written(s, d), consumed))
  {
    hide Inv, FitsIn, FreshMembers, Pull, Wanted, Expected, LoadOn, Written, Closed, Cleared, HoldsReleased, Known,
         Keyed;
    var key := EntryKey(Reservation, Members(d)[i].id, d.record.refs[j].resource);
    MemberPulls(s, d, consumed, i, j, t, key);
    AdmittedSoundly(s, d, consumed);
    var after, base := HoldsReleased(Written(s, d), consumed), Cleared(s, d.companions, consumed);
    forall k: EntryKey | k.resource == key.resource && k != key ensures Pull(after, k, t) == Pull(base, k, t) {
      MemberPulls(s, d, consumed, i, j, t, k);
    }
    LoadRises(after, base, key, t);
    NotClosedOn(after, key.resource, t);
  }

  lemma AdmissionBreaks(s: State, d: DurableRecord, consumed: set<Identity>)
    requires Inv(s) && Closed(s) && CanAdmit(s, d, consumed, 0) && !AdmitsBelowCap(s, d, consumed)
    ensures Applicable(s, d) && !Closed(HoldsReleased(Written(s, d), consumed))
  {
    hide Inv, Closed, OverCap, Expected, Cleared, Applied, HoldsReleased, FitsIn, FreshMembers, Written;
    var i :| 0 <= i < |Members(d)|
      && !NeverOverCap(s.ledger, Expected(Cleared(s, d.companions, consumed)), NamesOf(d.record.refs),
                       Members(d)[i].terms.interval, d.record.terms.amount);
    var j: nat, t :| OverCap(s.ledger, Expected(Cleared(s, d.companions, consumed)), NamesOf(d.record.refs),
                             Members(d)[i].terms.interval, d.record.terms.amount, j, t);
    AdmissionPassesCap(s, d, consumed, i, j, t);
  }

  lemma SuccessionBreaks(s: State, d: DurableRecord, measured: Contents)
    requires Inv(s) && Closed(s) && CanSupersede(s, d, measured, 0) && !SupersedesBelowCap(s, d)
    ensures Applicable(s, d) && !Closed(Written(s, d))
  {
    hide Inv, Closed, OverCap, Expected, Applied, FitsIn, Wellbound, Written;
    var i: nat, t :| OverCap(s.ledger, Expected(WithState(s, d.record.predecessor.value, Superseded)),
                             NamesOf(d.record.refs), d.record.Window(), d.record.terms.amount, i, t);
    SuccessorPassesCap(s, d, measured, i, t);
  }

  lemma HoldBreaks(s: State, h: Hold)
    requires Inv(s) && CanTakeHold(s, h, 0) && !NeverOverCap(s.ledger, Expected(s), h.resources, h.interval, h.amount)
    ensures !Closed(s.(holds := s.holds[h.id := h]))
  {
    hide Inv, Closed, OverCap, Expected, CanTakeHold;
    var i: nat, t :| OverCap(s.ledger, Expected(s), h.resources, h.interval, h.amount, i, t);
    HoldPassesCap(s, h, i, t);
  }

  // ---------------------------------------------------------------------------
  // Every restrained step
  // ---------------------------------------------------------------------------

  /** A restrained step keeps the capacity closure exactly when it takes nothing past a ceiling at the cap. */
  lemma ClosedUnlessOverCap(s: State, step: Step)
    requires Inv(s) && Closed(s) && Enabled(s, step) && Restrained(s, step)
    ensures Closed(Next(s, step)) <==> CapSafe(s, step)
  {
    hide Inv, Closed, CanAdmit, CanSupersede, CanTakeHold, CanNote, CanRecall, CanIngest, NeverOverCap,
         AdmitsBelowCap, SupersedesBelowCap, Expected, Written, WithGrace, OnlyForward, Outweighs;
    if CapSafe(s, step) {
      SafeStepStaysClosed(s, step);
    } else {
      match step
      case Admit(d, consumed, _) => AdmissionBreaks(s, d, consumed);
      case Supersede(d, measured, _) => SuccessionBreaks(s, d, measured);
      case TakeHold(h, _) => HoldBreaks(s, h);
    }
  }

  ghost predicate AllRestrained(s: State, steps: seq<Step>)
    requires Run(s, steps)
    decreases |steps|
  {
    steps != [] ==> Restrained(s, steps[0]) && AllRestrained(Next(s, steps[0]), steps[1..])
  }

  /** Every step of the run stays clear of the cap. */
  ghost predicate AllCapSafe(s: State, steps: seq<Step>)
    requires Run(s, steps)
    decreases |steps|
  {
    steps != [] ==> CapSafe(s, steps[0]) && AllCapSafe(Next(s, steps[0]), steps[1..])
  }

  /** The states a run passes through. */
  ghost predicate ClosedThroughout(s: State, steps: seq<Step>)
    requires Run(s, steps)
    decreases |steps|
  {
    Closed(s) && (steps != [] ==> ClosedThroughout(Next(s, steps[0]), steps[1..]))
  }

  /**
   A restrained run keeps the closure throughout exactly when no step of it takes anything past a ceiling at the cap.
   */
  lemma {:induction false} RunClosedUnlessOverCap(s: State, steps: seq<Step>)
    requires Inv(s) && Closed(s) && Run(s, steps) && AllRestrained(s, steps)
    ensures ClosedThroughout(s, steps) <==> AllCapSafe(s, steps)
    decreases |steps|
  {
    hide Inv, Closed, Enabled, Next, Restrained, CapSafe;
    if steps != [] {
      NextKeepsInv(s, steps[0]);
      ClosedUnlessOverCap(s, steps[0]);
      if CapSafe(s, steps[0]) {
        RunClosedUnlessOverCap(Next(s, steps[0]), steps[1..]);
      } else {
        NotThroughout(Next(s, steps[0]), steps[1..]);
      }
    }
  }

  lemma NotThroughout(s: State, steps: seq<Step>)
    requires Run(s, steps) && !Closed(s)
    ensures !ClosedThroughout(s, steps)
  {
    hide Closed, Enabled, Next;
  }
}

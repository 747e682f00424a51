/** What holds along whole runs, however steps interleave. */
module Runs {
  import opened Timeline
  import opened Claims
  import opened Entries
  import opened Records
  import opened FabricState
  import opened Steps
  import opened Lineage
  import opened Closure

  /** Every step is enabled when its turn comes. */
  ghost predicate Run(s: State, steps: seq<Step>)
    decreases |steps|
  {
    steps != [] ==> Enabled(s, steps[0]) && Run(Next(s, steps[0]), steps[1..])
  }

  ghost function Reached(s: State, steps: seq<Step>): State
    requires Run(s, steps)
    decreases |steps|
  {
    if steps == [] then s else Reached(Next(s, steps[0]), steps[1..])
  }

  ghost predicate AllTame(s: State, steps: seq<Step>)
    requires Run(s, steps)
    decreases |steps|
  {
    steps != [] ==> Tame(s, steps[0]) && AllTame(Next(s, steps[0]), steps[1..])
  }

  lemma {:induction false} RunsJoin(s: State, a: seq<Step>, b: seq<Step>)
    requires Run(s, a) && Run(Reached(s, a), b)
    ensures Run(s, a + b) && Reached(s, a + b) == Reached(Reached(s, a), b)
    decreases |a|
  {
    hide Enabled, Next;
    if a == [] {
      assert a + b == b;
    } else {
      assert (a + b)[0] == a[0] && (a + b)[1..] == a[1..] + b;
      RunsJoin(Next(s, a[0]), a[1..], b);
    }
  }

  /** Some run leads from one state to the other, a tame one where that is claimed. */
  ghost predicate Reaches(s: State, s': State, tame: bool) {
    exists steps :: Leads(s, steps, s', tame)
  }

  ghost predicate Leads(s: State, steps: seq<Step>, s': State, tame: bool) {
    Run(s, steps) && Reached(s, steps) == s' && (tame ==> AllTame(s, steps))
  }

  lemma ReachesItself(s: State, tame: bool)
    ensures Reaches(s, s, tame)
  {
    assert Leads(s, [], s, tame);
  }

  lemma ReachesByStep(s: State, step: Step, tame: bool)
    requires Enabled(s, step) && (tame ==> Tame(s, step))
    ensures Reaches(s, Next(s, step), tame)
  {
    hide Enabled, Next, Tame;
    var rest: seq<Step> := [];
    assert [step][1..] == rest;
    assert Run(Next(s, step), rest) && Reached(Next(s, step), rest) == Next(s, step) && AllTame(Next(s, step), rest);
    assert Leads(s, [step], Next(s, step), tame);
  }

  lemma {:induction false} TamesJoin(s: State, a: seq<Step>, b: seq<Step>)
    requires Run(s, a) && AllTame(s, a) && Run(Reached(s, a), b) && AllTame(Reached(s, a), b)
    ensures Run(s, a + b) && AllTame(s, a + b)
    decreases |a|
  {
    hide Enabled, Next, Tame;
    RunsJoin(s, a, b);
    if a == [] {
      assert a + b == b;
    } else {
      assert (a + b)[0] == a[0] && (a + b)[1..] == a[1..] + b;
      TamesJoin(Next(s, a[0]), a[1..], b);
    }
  }

  lemma ReachesJoin(s: State, mid: State, s': State, tame: bool)
    requires Reaches(s, mid, tame) && Reaches(mid, s', tame)
    ensures Reaches(s, s', tame)
  {
    hide Run, Reached, AllTame;
    var a :| Leads(s, a, mid, tame);
    var b :| Leads(mid, b, s', tame);
    RunsJoin(s, a, b);
    if tame { TamesJoin(s, a, b); }
    assert Leads(s, a + b, s', tame);
  }

  /** One more step after a run. */
  lemma ReachesFurther(s: State, mid: State, step: Step, tame: bool)
    requires Reaches(s, mid, tame) && Enabled(mid, step) && (tame ==> Tame(mid, step))
    ensures Reaches(s, Next(mid, step), tame)
  {
    hide Enabled, Next, Tame, Reaches;
    ReachesByStep(mid, step, tame);
    ReachesJoin(s, mid, Next(mid, step), tame);
  }

  lemma ReachesLoosely(s: State, s': State)
    requires Reaches(s, s', true)
    ensures Reaches(s, s', false)
  {
    hide Run, Reached, AllTame;
    var steps :| Leads(s, steps, s', true);
    assert Leads(s, steps, s', false);
  }

  /** What a tame run reaches from a closed state is closed. */
  lemma ReachesClosed(s: State, s': State)
    requires Inv(s) && Closed(s) && BelowCap(s.ledger) && Reaches(s, s', true)
    ensures Inv(s') && Closed(s')
  {
    hide Inv, Closed, BelowCap, Run, Reached, AllTame;
    var steps :| Leads(s, steps, s', true);
    RunKeepsInv(s, steps);
    RunStaysClosed(s, steps);
  }

  lemma InitialInv(maxAttempts: nat)
    ensures Inv(Initial(maxAttempts)) && Closed(Initial(maxAttempts)) && BelowCap(Initial(maxAttempts).ledger)
  {
  }

  lemma {:induction false} RunKeepsInv(s: State, steps: seq<Step>)
    requires Inv(s) && Run(s, steps)
    ensures Inv(Reached(s, steps))
    decreases |steps|
  {
    hide Inv, Enabled, Next;
    if steps != [] {
      NextKeepsInv(s, steps[0]);
      RunKeepsInv(Next(s, steps[0]), steps[1..]);
    }
  }

  lemma {:induction false} RunStaysClosed(s: State, steps: seq<Step>)
    requires Inv(s) && Closed(s) && BelowCap(s.ledger) && Run(s, steps) && AllTame(s, steps)
    ensures Closed(Reached(s, steps))
    decreases |steps|
  {
    hide Inv, Closed, BelowCap, Enabled, Next, Tame;
    if steps != [] {
      NextKeepsInv(s, steps[0]);
      StepStaysClosed(s, steps[0]);
      RunStaysClosed(Next(s, steps[0]), steps[1..]);
    }
  }

  /**
   Capacity closure: at every instant, what reservations and holds take from a
   live resource stays within its committable ceiling, after any tame run.
   */
  lemma NeverOverCeiling(maxAttempts: nat, steps: seq<Step>, resource: ResourceName, t: int)
    requires Run(Initial(maxAttempts), steps) && AllTame(Initial(maxAttempts), steps)
    requires Live(Reached(Initial(maxAttempts), steps).ledger, resource)
    ensures var s := Reached(Initial(maxAttempts), steps);
            LoadOn(Expected(s), resource, Reserved, t) + LoadOn(Expected(s), resource, OnHold, t)
            <= s.ledger[resource].capacity.Ceiling()
  {
    InitialInv(maxAttempts);
    RunStaysClosed(Initial(maxAttempts), steps);
    var s := Reached(Initial(maxAttempts), steps);
    assert ClosedOn(s, resource, t);
    CombinedIsSum(On(Expected(s), resource), t);
  }

  // ---------------------------------------------------------------------------
  // Lineage
  // ---------------------------------------------------------------------------

  /** The keys met by following predecessors from `k`. */
  function Walk(records: RecordTable, k: Key): seq<Key>
    decreases k.generation
  {
    if k in records && records[k].predecessor.Some? && records[k].predecessor.value.generation < k.generation
    then [k] + Walk(records, records[k].predecessor.value)
    else [k]
  }

  lemma {:induction false} WalkDescends(s: State, k: Key)
    requires Inv(s) && k in s.records
    ensures |Walk(s.records, k)| == k.generation
    ensures forall i :: 0 <= i < k.generation ==>
      Walk(s.records, k)[i] == Key(k.id, k.generation - i) && Walk(s.records, k)[i] in s.records
    decreases k.generation
  {
    hide OneAuthority, SoundLedger, SoundRecords, SoundHolds;
    assert s.records[k].KeyOf() == k && Follows(s.records[k], k);
    if k.generation > 1 {
      var p := s.records[k].predecessor.value;
      assert p == Key(k.id, k.generation - 1);
      assert Complete(s.records, k.id, s.current[k.id]);
      WalkDescends(s, p);
    }
  }

  /**
   Along any run, following predecessors from a record of generation n visits
   n, n-1, ..., 1 of the same identity, and all but the newest are superseded.
   */
  lemma LineageNeverForks(maxAttempts: nat, steps: seq<Step>, k: Key)
    requires Run(Initial(maxAttempts), steps) && k in Reached(Initial(maxAttempts), steps).records
    ensures var s := Reached(Initial(maxAttempts), steps);
            && |Walk(s.records, k)| == k.generation
            && (forall i :: 0 <= i < k.generation ==> Walk(s.records, k)[i] == Key(k.id, k.generation - i))
            && (forall g :: 1 <= g < k.generation ==>
                  Key(k.id, g) in s.records && s.records[Key(k.id, g)].state == Superseded)
            && s.HasCurrent(k.id) && k.generation <= s.current[k.id]
            && (k.generation < s.current[k.id] ==> s.records[k].state == Superseded)
  {
    InitialInv(maxAttempts);
    RunKeepsInv(Initial(maxAttempts), steps);
    var s := Reached(Initial(maxAttempts), steps);
    hide Run, Reached;
    WalkDescends(s, k);
    AuthorityOnly(s, k);
    forall g | 1 <= g < k.generation ensures Key(k.id, g) in s.records && s.records[Key(k.id, g)].state == Superseded {
      assert Walk(s.records, k)[k.generation - g] == Key(k.id, g);
      AuthorityOnly(s, Key(k.id, g));
    }
  }

  lemma AuthorityOnly(s: State, k: Key)
    requires Inv(s) && k in s.records
    ensures s.HasCurrent(k.id) && k.generation <= s.current[k.id]
    ensures k.generation < s.current[k.id] ==> s.records[k].state == Superseded
  {
    assert Complete(s.records, k.id, s.current[k.id]);
  }

  /** The first recall of a record never widens what it consumes. */
  lemma FirstRecallIsTame(s: State, d: DurableRecord, grace: int)
    requires Inv(s) && CanRecall(s, d) && s.records[d.key].recallAt == 0
    ensures Tame(s, Recall(d, grace))
  {
    hide Chained, SoundLedger, SoundHolds;
    assert SoundRecord(s.ledger, s.records[d.key]);
    RecallShortens(s.records[d.key], d.recallAt, grace);
  }
}

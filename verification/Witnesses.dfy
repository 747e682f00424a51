/** Runs that show where a promise stops: a ceiling at the cap, a recall with a grace, a withdrawn resource. */
module Witnesses {
  import opened Timeline
  import opened Claims
  import opened Entries
  import opened Records
  import opened FabricState
  import opened Steps
  import opened Lineage
  import opened Closure
  import opened Runs
  import opened Capping
  import opened CapacityIndexing
  import opened Replay
  import opened Rebuilding
  import opened Bounds
  import opened Effects
  import opened Admission
  import opened Commitments
  import opened Orders
  import opened Successions
  import opened Amendments
  import opened Deadlines
  import opened Refreshing
  import opened Turns

  // ---------------------------------------------------------------------------
  // One resource
  // ---------------------------------------------------------------------------

  function Trunk(reservable: int): Capacity { Capacity("trunk", 1, reservable, 0, []) }

  function Stating(reservable: int): Step { Ingest(CapacitySnapshot([Trunk(reservable)], []), {}) }

  /** One resource is stated, and nothing is bound to it. */
  function Opened(reservable: int): State {
    Initial(1).(ledger := map["trunk" := LedgerEntry(Trunk(reservable), false)], journal := [Stating(reservable).d])
  }

  lemma Opens(reservable: int)
    requires 0 < reservable <= MAX_BANDWIDTH_BPS
    ensures Enabled(Initial(1), Stating(reservable)) && Next(Initial(1), Stating(reservable)) == Opened(reservable)
    ensures Restrained(Initial(1), Stating(reservable))
    ensures Inv(Opened(reservable)) && Closed(Opened(reservable))
    ensures forall resource, t :: LoadOn(Expected(Opened(reservable)), resource, Combined, t) == 0
  {
    var s, c := Initial(1), Trunk(reservable);
    StatesOne(s.ledger, c);
    hide Stated, Expected, LoadOn, Inv;
    assert Next(s, Stating(reservable)).holds == map[];
    EmptyIsClosed(Opened(reservable));
  }

  lemma StatesOne(ledger: Ledger, c: Capacity)
    requires ledger == map[] && c.Acceptable()
    ensures Stated(ledger, [c]) == Some(map[c.resource := LedgerEntry(c, false)])
  {
    assert [c][1..] == [];
  }

  lemma EmptyIsClosed(s: State)
    requires s.records == map[] && s.current == map[] && s.holds == map[] && SoundLedger(s.ledger)
    ensures Inv(s) && Closed(s)
    ensures forall resource, t :: LoadOn(Expected(s), resource, Combined, t) == 0
  {
    forall resource, t ensures LoadOn(Expected(s), resource, Combined, t) == 0 && ClosedOn(s, resource, t) {
      NothingWantedNoLoad(s, resource, t);
    }
  }

  // ---------------------------------------------------------------------------
  // The cap
  // ---------------------------------------------------------------------------

  function Held(id: Identity, amount: int): Hold {
    Records.Hold.Hold(id, 1, 1, 1, ["trunk"], Interval(0, 1), amount, Scavenger, 10, false)
  }

  function Taking(h: Hold): Step { TakeHold(h, 0) }

  /** Where every ceiling is the cap, every sum passes the capped test. */
  lemma CappedFits(s: State, h: Hold)
    requires forall i :: 0 <= i < |h.resources| ==>
      h.resources[i] in s.ledger && s.ledger[h.resources[i]].capacity.Ceiling() == MAX_BANDWIDTH_BPS
    ensures FitsIn(s.ledger, Expected(s), h.resources, h.interval, h.amount, 0)
  {
    hide LoadOn, Expected;
  }

  lemma CanHold(s: State, h: Hold)
    requires s.ledger == Opened(MAX_BANDWIDTH_BPS).ledger && h.id !in s.holds
    requires h == Held(h.id, h.amount) && 0 < h.amount <= MAX_BANDWIDTH_BPS
    ensures CanTakeHold(s, h, 0)
  {
    CappedFits(s, h);
    hide FitsIn;
  }

  /** A run of three steps. */
  lemma ThreeSteps(s: State, a: Step, b: Step, c: Step)
    requires Enabled(s, a) && Enabled(Next(s, a), b) && Enabled(Next(Next(s, a), b), c)
    ensures Run(s, [a, b, c]) && Reached(s, [a, b, c]) == Next(Next(Next(s, a), b), c)
    ensures Restrained(s, a) && Restrained(Next(s, a), b) && Restrained(Next(Next(s, a), b), c) ==>
      AllRestrained(s, [a, b, c])
  {
    hide Enabled, Next, Restrained;
    var s1, s2 := Next(s, a), Next(Next(s, a), b);
    assert [a, b, c][1..] == [b, c] && [b, c][1..] == [c] && [c][1..] == [];
    assert Run(s2, [c]) && Reached(s2, [c]) == Next(s2, c);
    assert Run(s1, [b, c]) && Reached(s1, [b, c]) == Next(s2, c);
    if Restrained(s, a) && Restrained(s1, b) && Restrained(s2, c) {
      assert AllRestrained(s2, [c]);
      assert AllRestrained(s1, [b, c]);
    }
  }

  /**
   One petabit per second held on a resource of one petabit per second, and then one bit
   per second more: every step is restrained, and the resource is over its ceiling.
   */
  lemma CapBreaksClosure()
    ensures exists steps ::
              && Run(Initial(1), steps) && AllRestrained(Initial(1), steps)
              && !Closed(Reached(Initial(1), steps))
  {
    hide Inv, Closed, Expected, LoadOn, Run, Reached, AllRestrained;
    var all := MAX_BANDWIDTH_BPS;
    var h1, h2 := Held(1, all), Held(2, 1);
    var s0 := Opened(all);
    Opens(all);
    CanHold(s0, h1);
    var s1 := Next(s0, Taking(h1));
    HoldLoads(s0, h1);
    TakeHoldKeepsInv(s0, h1, 0);
    CanHold(s1, h2);
    assert OverCap(s1.ledger, Expected(s1), h2.resources, h2.interval, h2.amount, 0, 0);
    hide FitsIn, OverCap;
    HoldPassesCap(s1, h2, 0, 0);
    ThreeSteps(Initial(1), Stating(all), Taking(h1), Taking(h2));
  }

  lemma HoldLoads(s: State, h: Hold)
    requires Inv(s) && CanTakeHold(s, h, 0) && h.resources == ["trunk"] && h.interval.Contains(0)
    requires LoadOn(Expected(s), "trunk", Combined, 0) == 0
    ensures LoadOn(Expected(Next(s, Taking(h))), "trunk", Combined, 0) == h.amount
  {
    hide Inv, FitsIn, Pull, Wanted, Expected, LoadOn;
    var after, key := Next(s, Taking(h)), EntryKey(HolderKind.Hold, h.id, "trunk");
    TakeHoldKeepsInv(s, h, 0);
    ExpectedKeyed(s);
    ExpectedKeyed(after);
    HoldPulls(s, h, key, 0);
    assert "trunk" == h.resources[0];
    forall k: EntryKey | k.resource == "trunk" && k != key ensures Pull(after, k, 0) == Pull(s, k, 0) {
      HoldPulls(s, h, k, 0);
    }
    LoadRises(after, s, key, 0);
  }

  // ---------------------------------------------------------------------------
  // A booking
  // ---------------------------------------------------------------------------

  /** A small reservation from instant 10 to instant 20. */
  function Booking(): Record {
    Record(1, 1, Terms(1, 1, ["trunk"], Interval(10, 20), 1, Scavenger, true, 0, Recurrence(false, 0, 0)),
           [ResourceRef("trunk", 1)], Committed, Current, NoReason, 0, 0, None, None)
  }

  function Booked(): Attempt { Attempt(1, CreateRequest(Booking().terms, 1, []), Committable, Key(1, 1)) }

  function Commit(): DurableRecord { ReservationMutation(Booking(), [], false, [], None, Some(Booked())) }

  function Admitting(): Step { Admit(Commit(), {}, 0) }

  /** The booking is in force. */
  function InForce(): State {
    Opened(100).(records := map[Key(1, 1) := Booking()], current := map[1 := 1], attempts := map[1 := Booked()],
                 attemptOrder := [1], journal := [Stating(100).d, Commit()])
  }

  lemma BookingIsWellbound(s: State)
    requires s.ledger == Opened(100).ledger
    ensures Wellbound(s.ledger, Booking())
  {
    var r := Booking();
    assert NamesOf(r.refs) == ["trunk"];
    assert IsCurrent(s.ledger, r.refs[0]);
  }

  lemma BookingFits()
    ensures FitsIn(Opened(100).ledger, Expected(Cleared(Opened(100), [], {})), NamesOf(Booking().refs),
                   Booking().terms.interval, 1, 0)
  {
    hide Expected, LoadOn;
    Opens(100);
    assert Cleared(Opened(100), [], {}) == Opened(100);
    assert NamesOf(Booking().refs) == ["trunk"];
  }

  lemma Books()
    ensures Enabled(Opened(100), Admitting()) && Next(Opened(100), Admitting()) == InForce()
  {
    hide FitsIn, Wellbound, Evicted;
    var s := Opened(100);
    BookingIsWellbound(s);
    BookingFits();
    assert [Booking()] + [] == [Booking()];
    assert CanAdmit(s, Commit(), {}, 0);
    AdmitApplicable(s, Commit(), {}, 0);
    BookingApplies();
    assert HoldsReleased(InForce(), {}) == InForce();
  }

  lemma BookingApplies()
    requires Applicable(Opened(100), Commit())
    ensures Written(Opened(100), Commit()) == InForce()
  {
    var s, r := Opened(100), Booking();
    var s1 := Registered(s, r);
    assert s1.records == map[Key(1, 1) := r] && s1.current == map[1 := 1];
    var listed := s1.(attempts := map[1 := Booked()], attemptOrder := [1]);
    assert Evicted(listed) == listed;
    assert s.attempts[1 := Booked()] == map[1 := Booked()] && s.attemptOrder + [1] == [1];
  }

  lemma InForceIsReached()
    ensures Run(Initial(1), [Stating(100), Admitting()])
            && Reached(Initial(1), [Stating(100), Admitting()]) == InForce()
    ensures Inv(InForce()) && Denoted(InForce())
  {
    hide Enabled, Next, Inv, Denoted;
    Opens(100);
    Books();
    var steps := [Stating(100), Admitting()];
    assert steps[1..] == [Admitting()] && steps[1..][1..] == [];
    assert Run(Opened(100), [Admitting()]) && Reached(Opened(100), [Admitting()]) == InForce();
    InitialInv(1);
    RunKeepsInv(Initial(1), steps);
    StartsDenoted();
    NextStaysDenoted(Initial(1), Stating(100));
    NextStaysDenoted(Opened(100), Admitting());
  }

  lemma StartsDenoted()
    ensures Denoted(Initial(1))
  {
  }

  // ---------------------------------------------------------------------------
  // A recall with a grace
  // ---------------------------------------------------------------------------

  /** The booking is recalled to instant 12, with a grace of five. */
  function Recalling(): Step { Recall(StateMutation(Key(1, 1), RecallPending, 12, None), 5) }

  /** The recalled booking holds its capacity until 17; after a crash the index frees it at 12. */
  lemma GraceIsLost()
    ensures exists steps :: Run(Initial(1), steps) && !Rebuilds(Reached(Initial(1), steps))
  {
    hide Inv, Denoted, Rebuilds, Run, Reached, Next, Loses, FitsIn, CanAdmit;
    var s := InForce();
    InForceIsReached();
    Opens(100);
    Books();
    BookingIsWellbound(s);
    assert IsCurrent(s.ledger, Booking().refs[0]);
    NoOtherLoses();
    NothingInscribed();
    RecallLosesGrace(s, Recalling().d, 5);
    ThreeSteps(Initial(1), Stating(100), Admitting(), Recalling());
    assert !Rebuilds(Reached(Initial(1), [Stating(100), Admitting(), Recalling()]));
  }

  lemma NoOtherLoses()
    ensures forall id :: id != 1 ==> !Loses(InForce(), id)
  {
  }

  lemma NothingInscribed()
    ensures InscribedGrace(InForce().journal, Key(1, 1)) == 0
  {
    var journal, key := InForce().journal, Key(1, 1);
    assert journal[1..] == [Commit()] && journal[1..][1..] == [];
    assert [Booking()] + [] == [Booking()] && [Booking()][1..] == [];
    assert WrittenBy(Commit(), key) == Some(Booking());
    assert WrittenIn([Commit()], key) == Some(Booking());
  }

  // ---------------------------------------------------------------------------
  // A resource withdrawn
  // ---------------------------------------------------------------------------

  /** The state in which the records are worked through after the only resource is withdrawn. */
  function Withdrawn(): State { Taken(InForce(), [], ["trunk"]) }

  lemma WithdrawnLedger()
    ensures Withdrawn().ledger == map["trunk" := LedgerEntry(Trunk(100), true)]
    ensures Withdrawn() == InForce().(ledger := Withdrawn().ledger, journal := Withdrawn().journal)
  {
    assert ["trunk"][1..] == [];
  }

  /**
   Withdrawing the resource of a booking whose policy revalidates on its own leaves the booking
   marked current, and its entry in the index although the state no longer calls for one.
   */
  lemma WithdrawalLeavesBehind(policyOf: Record -> Policy, now: int)
    requires policyOf(Booking()).autoRevalidate
    ensures Run(Initial(1), [Stating(100), Admitting()])
            && Reached(Initial(1), [Stating(100), Admitting()]) == InForce()
    ensures var before: Ledgers := _ => InForce().ledger;
            var p := Passed(Pass(Withdrawn(), {}, {1}), before, [Key(1, 1)], true, policyOf, now);
            && p == Pass(Withdrawn(), {Key(1, 1)}, {1})
            && LeftBehind(p.state, Key(1, 1)) && Astray(p.state, before, Key(1, 1))
            && Indexed(p.state, before, p.pending) != Expected(p.state)
  {
    hide Indexed, Inv, Denoted, Run, Reached, Expected, BoundTo;
    InForceIsReached();
    WithdrawnLedger();
    var s, key := Withdrawn(), Key(1, 1);
    var before: Ledgers := _ => InForce().ledger;
    assert IsCurrent(InForce().ledger, Booking().refs[0]) && !IsCurrent(s.ledger, Booking().refs[0]);
    BookingPassedOver(Indexed(s, before, {1}), policyOf(Booking()));
    OneTurn(Pass(s, {}, {1}), before, key, policyOf, now);
    var k := EntryKey(Reservation, 1, "trunk");
    IndexedIs(s, before, {1}, k);
    ExpectedIs(s, k);
    assert Booking().Binds("trunk") by { assert Booking().refs[0].resource == "trunk"; }
    assert WantedIn(s, before, {1}, k).Some? && Wanted(s, k) == None;
  }

  lemma BookingPassedOver(m: Contents, policy: Policy)
    requires policy.autoRevalidate
    ensures PassedOver(Withdrawn(), m, Key(1, 1), true, policy)
  {
    WithdrawnLedger();
    hide BoundTo, Taken;
    var s := Withdrawn();
    assert !IsCurrent(s.ledger, Booking().refs[0]) && !Live(s.ledger, Booking().terms.resources[0]);
    forall refs | Rederives(s, m, Key(1, 1), policy, refs) ensures false {
      BoundIsLive(s.ledger, Booking().terms.resources, refs);
    }
  }

  lemma OneTurn(p: Pass, before: Ledgers, key: Key, policyOf: Record -> Policy, now: int)
    ensures Passed(p, before, [key], true, policyOf, now) == NextTurn(p, before, key, true, policyOf, now)
  {
    hide NextTurn;
    assert [key][1..] == [];
  }

  function Withdrawing(): Step { Ingest(CapacitySnapshot([], ["trunk"]), {}) }

  /** The booking is recalled while its resource is gone. */
  function Gone(): State {
    Withdrawn().(records := map[Key(1, 1) := Booking().(state := RecallPending, recallAt := 12)],
                 journal := Withdrawn().journal + [Recalling().d])
  }

  /** The resource is stated again as it was. */
  function Restated(): State {
    Gone().(ledger := Opened(100).ledger, journal := Gone().journal + [Stating(100).d])
  }

  lemma IsWithdrawn()
    ensures Enabled(InForce(), Withdrawing()) && Next(InForce(), Withdrawing()) == Withdrawn()
  {
    WithdrawnLedger();
    assert KnownNames(InForce().ledger, ["trunk"]) == ["trunk"] by { assert ["trunk"][1..] == []; }
    hide WithdrawnAll;
    assert HoldsReleased(Withdrawn(), {}) == Withdrawn();
  }

  lemma IsRecalled()
    ensures Enabled(Withdrawn(), Recall(Recalling().d, 0)) && Next(Withdrawn(), Recall(Recalling().d, 0)) == Gone()
  {
    WithdrawnLedger();
    hide WithdrawnAll;
    var s, d, key := Withdrawn(), Recalling().d, Key(1, 1);
    var after := Next(s, Recall(d, 0));
    NoteShape(s, d);
    assert Noted(s, d) == Gone().records;
    assert after == Gone();
  }

  lemma IsRestated()
    ensures Enabled(Gone(), Stating(100)) && Next(Gone(), Stating(100)) == Restated()
  {
    WithdrawnLedger();
    StatesAgain();
    hide WithdrawnAll, Stated;
    assert WithdrawnAll(Opened(100).ledger, []) == Opened(100).ledger by { NoneWithdrawn(Opened(100).ledger); }
    assert HoldsReleased(Restated(), {}) == Restated();
  }

  lemma NoneWithdrawn(ledger: Ledger)
    ensures WithdrawnAll(ledger, []) == ledger
  {
  }

  lemma RestatedIsReached()
    ensures Reaches(Initial(1), Restated(), false)
  {
    hide Enabled, Next, Reaches, Opened, InForce, Withdrawn, Gone, Restated, Stating, Admitting, Withdrawing;
    Opens(100);
    Books();
    IsWithdrawn();
    IsRecalled();
    IsRestated();
    ReachesByStep(Initial(1), Stating(100), false);
    ReachesFurther(Initial(1), Opened(100), Admitting(), false);
    ReachesFurther(Initial(1), InForce(), Withdrawing(), false);
    ReachesFurther(Initial(1), Withdrawn(), Recall(Recalling().d, 0), false);
    ReachesFurther(Initial(1), Gone(), Stating(100), false);
  }

  /**
   A booking passed over at a withdrawal and recalled since is out of the index; when its resource
   comes back at the same generation its turn changes nothing, and it consumes without being indexed.
   */
  lemma RestatementLeavesUnindexed(policyOf: Record -> Policy, now: int)
    ensures Reaches(Initial(1), Restated(), false)
    ensures var before: Ledgers := _ => Gone().ledger;
            var p := Passed(Pass(Restated(), {}, {1}), before, [Key(1, 1)], true, policyOf, now);
            && p == Pass(Restated(), {}, {1}) && Returns(Restated(), before, Key(1, 1))
            && Indexed(Restated(), before, {1}) == Expected(Gone()) == map[]
            && EntryKey(Reservation, 1, "trunk") in Expected(p.state)
  {
    hide Indexed, Expected, Reaches;
    RestatedIsReached();
    WithdrawnLedger();
    var s, key := Restated(), Key(1, 1);
    var before: Ledgers := _ => Gone().ledger;
    var r := s.records[key];
    assert IsCurrent(s.ledger, r.refs[0]) && !IsCurrent(Gone().ledger, r.refs[0]);
    OneTurn(Pass(s, {}, {1}), before, key, policyOf, now);
    forall k ensures Wanted(Gone(), k) == None && WantedIn(s, before, {1}, k) == None {
      assert k.kind == Reservation && s.HasCurrent(k.id) ==> k.id == 1;
    }
    NothingIndexed(s, before, {1});
    var k := EntryKey(Reservation, 1, "trunk");
    assert r.Binds("trunk") by { assert r.refs[0].resource == "trunk"; }
    ExpectedIs(s, k);
    ExpectedUnique(Gone(), map[]);
  }

  lemma NothingIndexed(s: State, before: Ledgers, pending: set<Identity>)
    requires forall k :: WantedIn(s, before, pending, k) == None
    ensures Indexed(s, before, pending) == map[]
  {
    hide Indexed;
    forall k ensures k !in Indexed(s, before, pending) {
      IndexedIs(s, before, pending, k);
    }
  }

  lemma StatesAgain()
    ensures Stated(Withdrawn().ledger, [Trunk(100)]) == Some(Opened(100).ledger)
  {
    WithdrawnLedger();
    assert [Trunk(100)][1..] == [];
    var gone := Withdrawn().ledger;
    assert gone["trunk" := LedgerEntry(Trunk(100), false)] == Opened(100).ledger;
  }

  // ---------------------------------------------------------------------------
  // A snapshot refused midway
  // ---------------------------------------------------------------------------

  /**
   What a refused snapshot leaves is what the journal denotes exactly when nothing before the refusal changed the
   ledger.
   */
  lemma RefusedMidway(s: State, resources: seq<Capacity>)
    requires Denoted(s) && Stated(s.ledger, resources).None?
    ensures Denoted(s.(ledger := StatedUntil(s.ledger, resources))) <==> StatedUntil(s.ledger, resources) == s.ledger
  {
    hide Replayed, Replayable, Stated, StatedUntil;
    SameLedger(s);
  }

  /** A good statement before one without capacity: the snapshot is refused, and a crash undoes what it left. */
  lemma HalfStated()
    ensures var resources := [Trunk(100), Capacity("spur", 1, 0, 0, [])];
            && Stated(Initial(1).ledger, resources).None?
            && StatedUntil(Initial(1).ledger, resources) == Opened(100).ledger
            && !Denoted(Initial(1).(ledger := StatedUntil(Initial(1).ledger, resources)))
  {
    hide Denoted;
    var bad := Capacity("spur", 1, 0, 0, []);
    var resources := [Trunk(100), bad];
    assert resources[1..] == [bad];
    assert !bad.Acceptable();
    StartsDenoted();
    RefusedMidway(Initial(1), resources);
  }

  // ---------------------------------------------------------------------------
  // An amendment after the end
  // ---------------------------------------------------------------------------

  /** The booking ran out at 20. */
  function Ended(): State {
    InForce().(records := map[Key(1, 1) := Booking().(state := Expired)],
               journal := InForce().journal + [StateMutation(Key(1, 1), Expired, 0, None)])
  }

  function Ending(): Step { Note(StateMutation(Key(1, 1), Expired, 0, None)) }

  /** At 25 its owner asks for the interval from 30 to 40 instead. */
  function Amending(): Amendment {
    Amendment(2, Key(1, 1), Booking().terms.(interval := Interval(30, 40)), false)
  }

  function Reviving(): DurableRecord { AmendmentRecord(Ended(), Amending(), Booking().refs, 25) }

  lemma IsEnded()
    ensures Enabled(InForce(), Ending()) && Next(InForce(), Ending()) == Ended()
  {
    var s, d := InForce(), Ending().d;
    NoteShape(s, d);
    assert Noted(s, d) == Ended().records;
    assert Next(s, Ending()) == Ended();
  }

  lemma NothingIsExpected()
    ensures Expected(Ended()) == map[]
  {
    forall k ensures Wanted(Ended(), k) == None {
      assert k.kind == Reservation && Ended().HasCurrent(k.id) ==> k.id == 1;
    }
    ExpectedUnique(Ended(), map[]);
  }

  lemma NoLoadFits(ledger: Ledger, names: seq<ResourceName>, window: Interval)
    requires ledger == Opened(100).ledger && names == ["trunk"]
    ensures FitsIn(ledger, map[], names, window, 1, 0)
  {
    forall t ensures LoadOn(map[], "trunk", Combined, t) == 0 {
      assert On(map[], "trunk") == map[];
    }
  }

  lemma RevivalIsEnabled()
    ensures Enabled(Ended(), Supersede(Reviving(), map[], 0))
  {
    var s, r := Ended(), Reviving().record;
    assert r.refs == Booking().refs && NamesOf(r.refs) == ["trunk"];
    assert IsCurrent(s.ledger, r.refs[0]);
    NoLoadFits(s.ledger, NamesOf(r.refs), r.terms.interval);
    hide FitsIn;
    assert Wellbound(s.ledger, r);
  }

  /**
   A request that arrives after the end raises no objection, time makes the booking expire, and the
   amendment puts the identity back in force under its next generation.
   */
  lemma AmendmentRevivesExpired()
    ensures AmendObjection(InForce(), Amending()) == None
    ensures Reconciled(Booking(), 25).state == Expired && Ended().records[Key(1, 1)] == Reconciled(Booking(), 25)
    ensures Reaches(Initial(1), Ended(), false) && Expected(Ended()) == map[]
    ensures Enabled(Ended(), Supersede(Reviving(), map[], 0))
    ensures var after := Next(Ended(), Supersede(Reviving(), map[], 0));
            after.HasCurrent(1) && after.current[1] == 2 && after.CurrentRecord(1).Consumes()
  {
    hide Reaches, Enabled, Next, Expected;
    IsEnded();
    NothingIsExpected();
    RevivalIsEnabled();
    EndedIsReached();
    RevivedRecord();
  }

  lemma EndedIsReached()
    ensures Reaches(Initial(1), Ended(), false)
  {
    hide Enabled, Next, Reaches, Opened, InForce, Ended, Stating, Admitting, Ending;
    Opens(100);
    Books();
    IsEnded();
    ReachesByStep(Initial(1), Stating(100), false);
    ReachesFurther(Initial(1), Opened(100), Admitting(), false);
    ReachesFurther(Initial(1), InForce(), Ending(), false);
  }

  lemma RevivedRecord()
    requires Enabled(Ended(), Supersede(Reviving(), map[], 0))
    ensures var after := Next(Ended(), Supersede(Reviving(), map[], 0));
            after.HasCurrent(1) && after.current[1] == 2 && after.CurrentRecord(1).Consumes()
  {
    hide FitsIn, Wellbound, Applied;
    SupersedeShape(Ended(), Reviving(), map[], 0);
  }

  // ---------------------------------------------------------------------------
  // A revalidation under recall
  // ---------------------------------------------------------------------------

  /**
   A record revalidated comes to the same end at every later time exactly when no recall was pending on it:
   the successor keeps the shortened window, but not the mark.
   */
  lemma RevalidationForgetsRecall(r: Record, refs: seq<ResourceRef>, now: int, later: int)
    requires r.Consumes() && !r.Window().Empty() && ValidInterval(r.terms.interval)
    requires Reconciled(r, now) == r && now <= later && (r.state == Active ==> r.terms.interval.start <= now)
    ensures var again := RevalidationRecord(r, refs, now).record;
            && again.Window() == r.Window()
            && (Reconciled(again, later).state == Reconciled(r, later).state <==> r.state != RecallPending)
  {
    var again := RevalidationRecord(r, refs, now).record;
    assert again.Window() == r.Window();
    assert r.(state := Active).Window() == again.(state := Active).Window() == r.Window();
    hide Record.Window;
    Deadlines.ReconciledSettles(r, now);
  }

  /** The booking is under recall. */
  function Called(): State {
    InForce().(records := map[Key(1, 1) := Booking().(state := RecallPending, recallAt := 12, grace := 5)],
               journal := InForce().journal + [Recalling().d])
  }

  function Restating(): Step { Ingest(CapacitySnapshot([Trunk(100).(generation := 2)], []), {}) }

  /** Its resource is stated again, under the next generation. */
  function Renewed(): State {
    Called().(ledger := map["trunk" := LedgerEntry(Trunk(100).(generation := 2), false)],
              journal := Called().journal + [Restating().d])
  }

  lemma IsCalled()
    ensures Enabled(InForce(), Recalling()) && Next(InForce(), Recalling()) == Called()
  {
    var s, d := InForce(), Recalling().d;
    var after := Next(s, Recalling());
    NoteShape(s, d);
    assert Noted(s, d)[Key(1, 1) := Noted(s, d)[Key(1, 1)].(grace := 5)] == Called().records;
    assert after == Called();
  }

  lemma IsRenewed()
    ensures Enabled(Called(), Restating()) && Next(Called(), Restating()) == Renewed()
  {
    var c := Trunk(100).(generation := 2);
    assert [c][1..] == [];
    assert Called().ledger["trunk" := LedgerEntry(c, false)] == Renewed().ledger;
    assert Stated(Called().ledger, [c]) == Some(Renewed().ledger);
    hide Stated;
    assert WithdrawnAll(Renewed().ledger, []) == Renewed().ledger;
    assert HoldsReleased(Renewed(), {}) == Renewed();
  }

  lemma RenewedIsReached()
    ensures Reaches(Initial(1), Renewed(), false)
  {
    hide Enabled, Next, Reaches, Opened, InForce, Called, Renewed, Stating, Admitting, Recalling, Restating;
    Opens(100);
    Books();
    IsCalled();
    IsRenewed();
    ReachesByStep(Initial(1), Stating(100), false);
    ReachesFurther(Initial(1), Opened(100), Admitting(), false);
    ReachesFurther(Initial(1), InForce(), Recalling(), false);
    ReachesFurther(Initial(1), Called(), Restating(), false);
  }

  /** At its turn the record is revalidated. */
  function Revalidation(): DurableRecord {
    RevalidationRecord(Renewed().records[Key(1, 1)], [ResourceRef("trunk", 2)], 11)
  }

  lemma NothingElseIndexed(before: Ledgers)
    ensures Without(Indexed(Renewed(), before, {1}), Reservation, 1) == map[]
  {
    hide Indexed;
    forall k: EntryKey | !(k.kind == Reservation && k.id == 1) ensures k !in Indexed(Renewed(), before, {1}) {
      IndexedIs(Renewed(), before, {1}, k);
    }
  }

  lemma NothingBesides(policy: Policy)
    requires policy.headroom < 100
    ensures BoundTo(Renewed().ledger, ["trunk"], [ResourceRef("trunk", 2)])
    ensures Verdict(Renewed().ledger, {}, map[], [ResourceRef("trunk", 2)], Interval(10, 20), 1, policy, 0)
            == Outcome.Committable
    ensures CanSupersede(Renewed(), Revalidation(), map[], policy.Slack())
  {
    var s, refs := Renewed(), [ResourceRef("trunk", 2)];
    assert NamesOf(refs) == ["trunk"];
    assert IsCurrent(s.ledger, refs[0]);
    forall t ensures LoadOn(map[], "trunk", Combined, t) == 0 {
      assert On(map[], "trunk") == map[];
    }
    hide LoadOn;
    assert Wellbound(s.ledger, Revalidation().record);
  }

  /** With the mark the booking ends at 12; without it, it is active then and expires at 17. */
  lemma EndsDiffer()
    ensures Revalidation().record.KeyOf() == Key(1, 2) && Revalidation().attempt == None
    ensures Reconciled(Renewed().records[Key(1, 1)], 12).state == Revoked
    ensures Reconciled(Revalidation().record, 12).state == Active
            && Reconciled(Revalidation().record, 17).state == Expired
  {
  }

  lemma TurnOfRenewed(policy: Policy, before: Ledgers)
    requires policy.autoRevalidate && policy.headroom < 100
    ensures Turned(Renewed(), Indexed(Renewed(), before, {1}), Key(1, 1), true, policy, 11)
            == Succeeded(Renewed(), Revalidation())
  {
    hide Turned, BoundTo, Verdict, CanSupersede, Succeeded, Indexed, Without;
    NothingElseIndexed(before);
    NothingBesides(policy);
    var s, r := Renewed(), Renewed().records[Key(1, 1)];
    assert !IsCurrent(s.ledger, r.refs[0]);
    TurnRederives(s, Indexed(s, before, {1}), Key(1, 1), policy, [ResourceRef("trunk", 2)], 11);
  }

  /**
   The run: a booking is recalled to instant 12, its resource is stated again, and the booking is
   revalidated at 11. At 12, where it was to be revoked, it is active, and at 17 it expires.
   */
  lemma MarkIsForgotten(policy: Policy, before: Ledgers)
    requires policy.autoRevalidate && policy.headroom < 100
    ensures Reaches(Initial(1), Renewed(), false)
    ensures Enabled(Renewed(), Supersede(Revalidation(), map[], policy.Slack()))
    ensures var after := Next(Renewed(), Supersede(Revalidation(), map[], policy.Slack()));
            && after == Turned(Renewed(), Indexed(Renewed(), before, {1}), Key(1, 1), true, policy, 11)
            && after.HasCurrent(1) && after.CurrentRecord(1) == Revalidation().record
    ensures Reconciled(Renewed().records[Key(1, 1)], 12).state == Revoked
    ensures Reconciled(Revalidation().record, 12).state == Active
            && Reconciled(Revalidation().record, 17).state == Expired
  {
    hide Reaches, Turned, BoundTo, Verdict, CanSupersede, Succeeded, Indexed, Without, Renewed, Reconciled;
    RenewedIsReached();
    EndsDiffer();
    NothingBesides(policy);
    TurnOfRenewed(policy, before);
    SucceededIsWritten(Renewed(), Revalidation(), map[], policy.Slack());
    SucceededShape(Renewed(), Revalidation(), map[], policy.Slack());
  }
}

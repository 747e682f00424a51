/** A life in which a crash takes back what a second recall had given away, and a ceiling is passed. */
module Regaining {
  import opened Timeline
  import opened Claims
  import opened Entries
  import opened Records
  import opened FabricState
  import opened Steps
  import opened Lineage
  import opened Closure
  import opened Replay
  import opened Histories
  import opened Rebuilding
  import opened Lifetimes
  import opened Effects
  import opened Admission
  import opened Successions
  import opened Witnesses

  // ---------------------------------------------------------------------------
  // The states of the life
  // ---------------------------------------------------------------------------

  /** The booking has been revalidated under recall: its successor is on record with the grace of five. */
  function Rebound(): State { Succeeded(Renewed(), Revalidation()) }

  function Hurrying(): Step { Recall(StateMutation(Key(1, 2), RecallPending, 12, None), 0) }

  /** It is recalled again, now without grace: what it took from 12 to 17 is free. */
  function Hurried(): State {
    Rebound().(records := Rebound().records[Key(1, 2) := Revalidation().record.(state := RecallPending, grace := 0)],
               journal := Rebound().journal + [Hurrying().d])
  }

  /** All there is of the resource, from 13 to 17. */
  function Filler(): Record {
    Record(2, 1, Booking().terms.(interval := Interval(13, 17), amount := 100), [ResourceRef("trunk", 2)], Committed,
           Current, NoReason, 0, 0, None, None)
  }

  function FilledBy(): DurableRecord {
    ReservationMutation(Filler(), [], false, [], None,
                        Some(Attempt(2, CreateRequest(Filler().terms, 2, []), Committable, Key(2, 1))))
  }

  function Filling(): Step { Admit(FilledBy(), {}, 0) }

  ghost function Filled(): State
    requires Enabled(Hurried(), Filling())
  {
    Next(Hurried(), Filling())
  }

  /** The resource as it was stated last. */
  function Restocked(): Ledger { map["trunk" := LedgerEntry(Capacity("trunk", 2, 100, 0, []), false)] }

  /** The booking after its second recall. */
  function Shortened(): Record {
    Record(1, 2, Booking().terms, [ResourceRef("trunk", 2)], RecallPending, Current, NoReason, 12, 0, Some(Key(1, 1)),
           None)
  }

  function NoHeadroom(): Policy {
    Policy(false, 0, 0, false, 0, false, false, 0, true, 0, 0, 0, 1, 0, 0, 0, true)
  }

  // ---------------------------------------------------------------------------
  // Each act is enabled and tame
  // ---------------------------------------------------------------------------

  lemma ReboundShape()
    ensures Enabled(Renewed(), Supersede(Revalidation(), map[], 0))
    ensures Next(Renewed(), Supersede(Revalidation(), map[], 0)) == Rebound()
    ensures Rebound().ledger == Renewed().ledger && Rebound().holds == map[] && Rebound().current == map[1 := 2]
    ensures Rebound().records == map[Key(1, 1) := Renewed().records[Key(1, 1)].(state := Superseded),
                                     Key(1, 2) := Revalidation().record]
    ensures Rebound().attempts == Renewed().attempts && Rebound().journal == Renewed().journal + [Revalidation()]
  {
    hide Succeeded, CanSupersede, BoundTo, Verdict;
    NothingBesides(NoHeadroom());
    SucceededIsWritten(Renewed(), Revalidation(), map[], 0);
    SucceededShape(Renewed(), Revalidation(), map[], 0);
    SucceededJournal(Renewed(), Revalidation());
    assert Renewed().current[1 := 2] == map[1 := 2];
  }

  lemma SucceededJournal(s: State, d: DurableRecord)
    requires d.ReservationMutation?
    ensures Succeeded(s, d).journal == s.journal + [d]
  {
  }

  /** Without the old booking nothing is called for, so nothing outweighs nothing. */
  lemma ReboundIsTame()
    requires Enabled(Renewed(), Supersede(Revalidation(), map[], 0))
    ensures Tame(Renewed(), Supersede(Revalidation(), map[], 0))
  {
    var before := WithState(Renewed(), Key(1, 1), Superseded);
    forall k ensures Wanted(before, k) == None {
      assert k.kind == Reservation && before.HasCurrent(k.id) ==> k.id == 1;
    }
    hide Expected, LoadOn;
    ExpectedUnique(before, map[]);
  }

  lemma HurryingIsEnabled()
    ensures Enabled(Rebound(), Hurrying()) && Applicable(Rebound(), Hurrying().d)
  {
    hide Succeeded, CanSupersede, Applied;
    ReboundShape();
    hide Rebound;
    assert Rebound().records[Key(1, 2)] == Revalidation().record;
  }

  lemma HurryingIsTame()
    requires Enabled(Rebound(), Hurrying())
    ensures Tame(Rebound(), Hurrying())
  {
    hide Succeeded, CanSupersede, Applied, Applicable;
    ReboundShape();
    hide Rebound;
    assert Rebound().records[Key(1, 2)] == Revalidation().record;
  }

  lemma HurriedIsReached()
    ensures Enabled(Rebound(), Hurrying()) && Next(Rebound(), Hurrying()) == Hurried() && Tame(Rebound(), Hurrying())
  {
    hide Enabled, Applicable;
    HurryingIsEnabled();
    HurryingIsTame();
    hide Tame;
    ReboundShape();
    hide Rebound;
    var s, d, key := Rebound(), Hurrying().d, Key(1, 2);
    NoteShape(s, d);
    assert Noted(s, d)[key := Noted(s, d)[key].(grace := 0)] == Hurried().records;
  }

  lemma RecallingIsTame()
    requires Enabled(InForce(), Recalling())
    ensures Tame(InForce(), Recalling())
  {
  }

  lemma RestatingIsTame()
    requires Enabled(Called(), Restating()) && Next(Called(), Restating()) == Renewed()
    ensures Tame(Called(), Restating())
  {
    hide Applied;
    assert Applied(Called(), Restating().d).ledger == Renewed().ledger;
  }

  lemma StatingIsTame()
    requires Enabled(Initial(1), Stating(100)) && Next(Initial(1), Stating(100)) == Opened(100)
    ensures Tame(Initial(1), Stating(100))
  {
    hide Applied;
    assert Applied(Initial(1), Stating(100).d).ledger == Opened(100).ledger;
  }

  lemma HurriedShape()
    ensures var s := Hurried();
            && s.ledger == Restocked() && s.holds == map[] && s.current == map[1 := 2]
            && s.attempts == map[1 := Booked()]
            && s.records.Keys == {Key(1, 1), Key(1, 2)} && s.records[Key(1, 2)] == Shortened()
            && s.journal == Renewed().journal + [Revalidation()] + [Hurrying().d]
    ensures Revalidation().record == Shortened().(state := Active, grace := 5)
    ensures Initial(1).maxAttempts == 1
  {
    ReboundShape();
    hide Rebound, Stating;
  }

  /** From 13 on the booking takes nothing any more. */
  lemma NothingTaken(s: State, t: int)
    requires 13 <= t && s.holds == map[] && s.current == map[1 := 2]
    requires Key(1, 2) in s.records && s.records[Key(1, 2)] == Shortened() && Keyed(Expected(s))
    ensures LoadOn(Expected(s), "trunk", Combined, t) <= 0
  {
    hide Expected, LoadOn;
    var none := s.(records := map[]);
    forall k ensures Wanted(none, k) == None && Pull(s, k, t) <= Pull(none, k, t) {
      if k.kind == Reservation && s.HasCurrent(k.id) {
        assert k.id == 1 && s.CurrentRecord(1).Window() == Interval(10, 12);
      }
    }
    assert Keyed(Expected(none)) by { ExpectedUnique(none, map[]); }
    LoadFollows(s, none, "trunk", t);
    NothingWantedNoLoad(none, "trunk", t);
  }

  lemma HurriedKeyed()
    ensures Keyed(Expected(Hurried()))
  {
    hide Enabled, Next, Inv, Denoted, LeadsTo, Hurried, Initial;
    HurriedIsLed();
    InitialDenoted(1);
    LeadsToKeeps(Initial(1), Hurried());
    ExpectedKeyed(Hurried());
  }

  lemma HurriedIsLed()
    ensures LeadsTo(Initial(1), Hurried())
  {
    hide Enabled, Next, LeadsTo, Tame, Opened, InForce, Called, Renewed, Rebound, Hurried, Stating, Admitting,
         Recalling, Restating, Hurrying, Revalidation;
    Opens(100);
    Books();
    IsCalled();
    IsRenewed();
    ReboundShape();
    HurriedIsReached();
    StatingIsTame();
    BookingIsTame();
    RecallingIsTame();
    RestatingIsTame();
    ReboundIsTame();
    LeadsToItself(Initial(1));
    LeadsFurther(Initial(1), Initial(1), Act(Stating(100)));
    LeadsFurther(Initial(1), Opened(100), Act(Admitting()));
    LeadsFurther(Initial(1), InForce(), Act(Recalling()));
    LeadsFurther(Initial(1), Called(), Act(Restating()));
    LeadsFurther(Initial(1), Renewed(), Act(Supersede(Revalidation(), map[], 0)));
    LeadsFurther(Initial(1), Rebound(), Act(Hurrying()));
  }

  lemma BookingIsTame()
    requires Enabled(Opened(100), Admitting())
    ensures Tame(Opened(100), Admitting())
  {
    hide Enabled, Opened;
  }

  lemma FillingIsTame()
    requires Enabled(Hurried(), Filling())
    ensures Tame(Hurried(), Filling())
  {
    hide Enabled, Hurried;
  }

  lemma FillerIsWellbound(s: State)
    requires s.ledger == Restocked()
    ensures Wellbound(s.ledger, Filler())
  {
    assert NamesOf(Filler().refs) == ["trunk"];
    assert IsCurrent(s.ledger, Filler().refs[0]);
  }

  lemma FillerFits()
    ensures FitsIn(Hurried().ledger, Expected(Cleared(Hurried(), [], {})), NamesOf(Filler().refs), Interval(13, 17),
                   100, 0)
  {
    HurriedShape();
    HurriedKeyed();
    hide Expected, LoadOn, Hurried;
    assert NamesOf(Filler().refs) == ["trunk"];
    assert HoldsReleased(Hurried(), {}) == Hurried();
    assert Cleared(Hurried(), [], {}) == Hurried();
    forall t | Interval(13, 17).Contains(t) ensures LoadOn(Expected(Hurried()), "trunk", Combined, t) <= 0 {
      NothingTaken(Hurried(), t);
    }
  }

  lemma FillerIsFresh()
    ensures FreshMembers(Hurried(), [Filler()])
  {
    HurriedShape();
    FillerIsWellbound(Hurried());
    hide Wellbound, Hurried, Booked;
  }

  lemma Fills()
    ensures Enabled(Hurried(), Filling())
  {
    HurriedShape();
    FillerIsFresh();
    FillerFits();
    hide FitsIn, FreshMembers, Hurried, Expected, Booked, Booking;
    assert [Filler()] + [] == [Filler()];
    assert CanAdmit(Hurried(), FilledBy(), {}, 0);
  }

  /** A commit of one record alone. */
  lemma AloneApplied(s: State, d: DurableRecord)
    requires d.ReservationMutation? && !d.supersedes && d.members == [] && d.companions == [] && d.seriesId == None
    requires Applicable(s, d) && d.attempt.Some?
    ensures Applied(s, d) == Remembered(Registered(s, d.record), d.attempt.value)
  {
    hide Remembered;
    assert RegisteredAll(Registered(s, d.record), []) == Registered(s, d.record);
  }

  lemma FilledShape()
    requires Enabled(Hurried(), Filling())
    ensures var s, s' := Hurried(), Filled();
            && s'.ledger == Restocked() && s'.journal == s.journal + [FilledBy()]
            && s'.current == map[1 := 2, 2 := 1] && s'.records == s.records[Key(2, 1) := Filler()]
            && s'.HasCurrent(1) && s'.records[Key(1, 2)] == Shortened()
            && s'.HasCurrent(2) && s'.records[Key(2, 1)] == Filler()
  {
    HurriedShape();
    hide Hurried, CanAdmit, Applied, Applicable;
    AdmitApplicable(Hurried(), FilledBy(), {}, 0);
    AloneApplied(Hurried(), FilledBy());
    RememberedKeeps(Registered(Hurried(), Filler()), FilledBy().attempt.value);
    hide Remembered;
    assert Hurried().current[2 := 1] == map[1 := 2, 2 := 1];
  }

  // ---------------------------------------------------------------------------
  // The crash
  // ---------------------------------------------------------------------------

  lemma GraceIsInscribed()
    requires Enabled(Hurried(), Filling())
    ensures InscribedGrace(Filled().journal, Key(1, 2)) == 5
  {
    FilledShape();
    HurriedShape();
    hide Hurried, WrittenIn, Filled, Renewed, LastFiled;
    var key := Key(1, 2);
    InscribedLast(Renewed().journal + [Revalidation()] + [Hurrying().d], FilledBy(), key);
    InscribedLast(Renewed().journal + [Revalidation()], Hurrying().d, key);
    InscribedLast(Renewed().journal, Revalidation(), key);
    OneFiled(Filler(), key);
    OneFiled(Revalidation().record, key);
  }

  lemma OneFiled(r: Record, key: Key)
    ensures LastFiled([r] + [], key) == if r.KeyOf() == key then Some(r) else None
  {
    assert [r] + [] == [r] && [r][1..] == [];
  }

  /** Two entries on a resource load it with at least what they take together. */
  lemma TwoTake(s: State, a: EntryKey, b: EntryKey, t: int)
    requires Keyed(Expected(s)) && a != b && a.resource == b.resource && Wanted(s, a).Some? && Wanted(s, b).Some?
    ensures LoadOn(Expected(s), a.resource, Combined, t) >= Pull(s, a, t) + Pull(s, b, t)
  {
    hide Wanted, Expected, Load, ClaimsOf;
    var m := On(Expected(s), a.resource);
    OnExpected(s, a.resource, a);
    OnExpected(s, a.resource, b);
    OnKeyed(Expected(s), a.resource);
    LoadOfSplit(m, a, Combined, t);
    LoadOfSplit(m - {a}, b, Combined, t);
    KeyedNonNegative(m - {a} - {b}, Combined, t);
  }

  /** After the crash the booking takes its capacity until 17 again, and the filler takes all there is. */
  lemma BothTake()
    requires Enabled(Hurried(), Filling()) && Inv(Filled()) && Denoted(Filled())
    ensures !Closed(Recovered(Filled())) && Regains(Filled(), 1)
  {
    hide Hurried, Filled, Denoted, Recovered, Inv, InscribedGrace, Closed, Filling, Enabled, Regains, Shortened,
         Filler, Restocked;
    FilledShape();
    GraceIsInscribed();
    var s, r := Filled(), Recovered(Filled());
    RecoveredAuthority(s, 1);
    RecoveredAuthority(s, 2);
    RegainsGrace(s);
    TakesAgain(s, r);
  }

  lemma RegainsGrace(s: State)
    requires s.ledger == Restocked() && s.HasCurrent(1) && s.CurrentRecord(1) == Shortened()
    requires InscribedGrace(s.journal, Key(1, s.current[1])) == 5
    ensures Regains(s, 1)
  {
    hide WrittenIn;
    assert IsCurrent(s.ledger, Shortened().refs[0]);
  }

  lemma TakesAgain(s: State, r: State)
    requires Inv(s) && Denoted(s) && r == Recovered(s) && r.ledger == Restocked() && r.HasCurrent(1) && r.HasCurrent(2)
    requires r.CurrentRecord(1) == Shortened().(grace := 5)
    requires r.CurrentRecord(2) == Filler().(grace := r.CurrentRecord(2).grace)
    ensures !Closed(r)
  {
    hide Denoted, Recovered, Inv, Expected, LoadOn, Pull, Wanted;
    RecoveredInv(s);
    ExpectedKeyed(r);
    BookingTakes(r);
    FillerTakes(r);
    TwoTake(r, EntryKey(Reservation, 1, "trunk"), EntryKey(Reservation, 2, "trunk"), 13);
    assert !ClosedOn(r, "trunk", 13);
  }

  lemma BookingTakes(s: State)
    requires s.ledger == Restocked() && s.HasCurrent(1) && s.CurrentRecord(1) == Shortened().(grace := 5)
    ensures Wanted(s, EntryKey(Reservation, 1, "trunk")).Some?
    ensures Pull(s, EntryKey(Reservation, 1, "trunk"), 13) == 1
  {
    var r := s.CurrentRecord(1);
    assert r.refs[0].resource == "trunk" && IsCurrent(s.ledger, r.refs[0]);
    assert r.Window() == Interval(10, 17);
  }

  lemma FillerTakes(s: State)
    requires s.ledger == Restocked() && s.HasCurrent(2)
    requires s.CurrentRecord(2) == Filler().(grace := s.CurrentRecord(2).grace)
    ensures Wanted(s, EntryKey(Reservation, 2, "trunk")).Some?
    ensures Pull(s, EntryKey(Reservation, 2, "trunk"), 13) == 100
  {
    var r := s.CurrentRecord(2);
    assert r.refs[0].resource == "trunk" && IsCurrent(s.ledger, r.refs[0]);
    assert r.Window() == Interval(13, 17);
  }

  /**
   A booking is recalled with a grace, revalidated, and recalled again without one; another fills what that
   frees. Every act is tame and every ceiling is respected, until a crash brings the grace back.
   */
  lemma CrashBreaksClosure()
    ensures exists events ::
              && Lives(Initial(1), events) && AllActsTame(Initial(1), events)
              && !Closed(Lived(Initial(1), events))
  {
    hide Enabled, Next, LeadsTo, Tame, Hurried, Filling, Filled, Inv, Denoted, Recovered, Lives, Lived, AllActsTame,
         Closed, Initial, Regains;
    Fills();
    HurriedIsLed();
    FillingIsTame();
    LeadsFurther(Initial(1), Hurried(), Act(Filling()));
    FilledIs();
    InitialDenoted(1);
    LeadsToKeeps(Initial(1), Filled());
    BothTake();
    LeadsFurther(Initial(1), Filled(), Crash);
    LedBy(Initial(1), Recovered(Filled()));
  }

  lemma FilledIs()
    requires Enabled(Hurried(), Filling())
    ensures Filling() == Admit(FilledBy(), {}, 0) && Filled() == Next(Hurried(), Filling())
  {
    hide Enabled, Next, Hurried;
  }

  lemma LedBy(s: State, s': State)
    requires LeadsTo(s, s')
    ensures exists events :: Lives(s, events) && AllActsTame(s, events) && Lived(s, events) == s'
  {
  }
}

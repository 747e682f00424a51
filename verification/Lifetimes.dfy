/** What crashes do to the ceilings: which lives keep them, and when a crash takes back capacity that was free. */
module Lifetimes {
  import opened Timeline
  import opened Claims
  import opened Entries
  import opened Records
  import opened FabricState
  import opened Steps
  import opened Lineage
  import opened Closure
  import opened Replay
  import opened Histories
  import opened Rebuilding

  // ---------------------------------------------------------------------------
  // One crash
  // ---------------------------------------------------------------------------

  /** The journal gives the authoritative record a longer grace than it has, and that moves the end of what it takes. */
  ghost predicate Regains(s: State, id: Identity) {
    && s.HasCurrent(id)
    && var r, inscribed := s.CurrentRecord(id), InscribedGrace(s.journal, Key(id, s.current[id]));
       GraceLost(s.ledger, r, inscribed) && r.grace < inscribed
  }

  /** Under the inscribed grace a record takes more than under its own exactly when the longer grace counts. */
  lemma WindowRegained(ledger: Ledger, live: Record, inscribed: int)
    requires live.refs != [] && ValidInterval(live.terms.interval)
    ensures var again := live.(grace := inscribed);
            if GraceLost(ledger, live, inscribed) && live.grace < inscribed then
              && Indexable(ledger, again) && again.Window().Contains(again.Window().end - 1)
              && !live.Window().Contains(again.Window().end - 1)
            else Indexable(ledger, again) ==> Indexable(ledger, live) && again.Window().Within(live.Window())
  {
  }

  lemma CrashPulls(s: State, k: EntryKey, t: int)
    requires Inv(s) && Denoted(s) && (k.kind == Reservation ==> !Regains(s, k.id))
    ensures Pull(Recovered(s), k, t) <= Pull(s, k, t)
  {
    hide Denoted, Recovered, GraceLost, Indexable, Inv, InscribedGrace, Record.Window;
    RecoveredAuthority(s, k.id);
    RecordAmount(s, k.id);
    HoldAmount(s, k.id);
    if k.kind == Reservation && s.HasCurrent(k.id) && s.CurrentRecord(k.id).refs != [] {
      CurrentIsValid(s, Key(k.id, s.current[k.id]));
      WindowRegained(s.ledger, s.CurrentRecord(k.id), InscribedGrace(s.journal, Key(k.id, s.current[k.id])));
    }
  }

  lemma RecordAmount(s: State, id: Identity)
    requires Inv(s)
    ensures s.HasCurrent(id) ==> 0 < s.CurrentRecord(id).terms.amount
  {
    if s.HasCurrent(id) { assert SoundRecord(s.ledger, s.CurrentRecord(id)); }
  }

  lemma HoldAmount(s: State, id: Identity)
    requires Inv(s)
    ensures id in s.holds ==> 0 < s.holds[id].amount
  {
    if id in s.holds { assert SoundHold(s.ledger, s.holds[id]); }
  }

  /** A crash takes nothing anywhere that was free exactly when no record regains a grace. */
  lemma CrashTakesNothing(s: State)
    requires Inv(s) && Denoted(s)
    ensures (forall k, t :: Pull(Recovered(s), k, t) <= Pull(s, k, t)) <==> forall id :: !Regains(s, id)
  {
    hide Inv, Denoted, Recovered, Pull, Regains;
    if id :| Regains(s, id) {
      var k, t := RegainedTakes(s, id);
    } else {
      forall k, t ensures Pull(Recovered(s), k, t) <= Pull(s, k, t) {
        CrashPulls(s, k, t);
      }
    }
  }

  lemma RegainedTakes(s: State, id: Identity) returns (k: EntryKey, t: int)
    requires Inv(s) && Denoted(s) && Regains(s, id)
    ensures Pull(Recovered(s), k, t) > Pull(s, k, t)
  {
    hide Denoted, Recovered, Indexable, Inv, InscribedGrace, Record.Window;
    RecoveredAuthority(s, id);
    RecordAmount(s, id);
    var r, r' := s.CurrentRecord(id), Recovered(s).CurrentRecord(id);
    CurrentIsValid(s, Key(id, s.current[id]));
    WindowRegained(s.ledger, r, InscribedGrace(s.journal, Key(id, s.current[id])));
    k, t := EntryKey(Reservation, id, r.refs[0].resource), r'.Window().end - 1;
    assert r.Binds(r.refs[0].resource) && r'.Binds(r.refs[0].resource);
  }

  /** If none does, a crash leaves every ceiling respected that was. */
  lemma CrashStaysClosed(s: State)
    requires Inv(s) && Denoted(s) && Closed(s) && forall id :: !Regains(s, id)
    ensures Closed(Recovered(s)) && Recovered(s).ledger == s.ledger
  {
    hide Inv, Denoted, Recovered, Pull, Closed, Regains;
    RecoveredInv(s);
    RecoveredAuthority(s, 0);
    CrashTakesNothing(s);
    ClosedFollows(s, Recovered(s));
  }

  // ---------------------------------------------------------------------------
  // Whole lives
  // ---------------------------------------------------------------------------

  ghost predicate TameEvent(s: State, e: Event)
    requires Possible(s, e)
  {
    e.Act? ==> Tame(s, e.step)
  }

  ghost predicate AllActsTame(s: State, events: seq<Event>)
    requires Lives(s, events)
    decreases |events|
  {
    events != [] ==> TameEvent(s, events[0]) && AllActsTame(After(s, events[0]), events[1..])
  }

  /** At no crash does a record regain a grace. */
  ghost predicate NothingRegained(s: State, events: seq<Event>)
    requires Lives(s, events)
    decreases |events|
  {
    events != [] ==>
      && (events[0] == Crash ==> forall id :: !Regains(s, id))
      && NothingRegained(After(s, events[0]), events[1..])
  }

  lemma {:induction false} LifeStaysClosed(s: State, events: seq<Event>)
    requires Inv(s) && Denoted(s) && Closed(s) && BelowCap(s.ledger)
    requires Lives(s, events) && AllActsTame(s, events) && NothingRegained(s, events)
    ensures Closed(Lived(s, events))
    decreases |events|
  {
    hide Inv, Denoted, Closed, BelowCap, Enabled, Next, Tame, Recovered, Regains;
    if events != [] {
      EventKeeps(s, events[0]);
      match events[0] {
        case Act(step) => StepStaysClosed(s, step);
        case Crash => CrashStaysClosed(s);
      }
      LifeStaysClosed(After(s, events[0]), events[1..]);
    }
  }

  /**
   Along any life of tame steps and crashes at which no record regains a grace, what reservations and
   holds take from a live resource stays within its ceiling at every instant.
   */
  lemma NeverOverCeilingInLife(maxAttempts: nat, events: seq<Event>, resource: ResourceName, t: int)
    requires Lives(Initial(maxAttempts), events) && AllActsTame(Initial(maxAttempts), events)
             && NothingRegained(Initial(maxAttempts), events)
    requires Live(Lived(Initial(maxAttempts), events).ledger, resource)
    ensures var s := Lived(Initial(maxAttempts), events);
            LoadOn(Expected(s), resource, Reserved, t) + LoadOn(Expected(s), resource, OnHold, t)
            <= s.ledger[resource].capacity.Ceiling()
  {
    InitialDenoted(maxAttempts);
    InitialClosed(maxAttempts);
    LifeStaysClosed(Initial(maxAttempts), events);
    var s := Lived(Initial(maxAttempts), events);
    assert ClosedOn(s, resource, t);
    CombinedIsSum(On(Expected(s), resource), t);
  }

  lemma InitialClosed(maxAttempts: nat)
    ensures Closed(Initial(maxAttempts)) && BelowCap(Initial(maxAttempts).ledger)
  {
  }

  /** Some life of tame acts leads from one state to the other. */
  ghost predicate LeadsTo(s: State, s': State) {
    exists events :: Lives(s, events) && AllActsTame(s, events) && Lived(s, events) == s'
  }

  lemma LeadsToKeeps(s: State, s': State)
    requires Inv(s) && Denoted(s) && LeadsTo(s, s')
    ensures Inv(s') && Denoted(s')
  {
    hide Lives, Lived, AllActsTame, Inv, Denoted;
    var events :| Lives(s, events) && AllActsTame(s, events) && Lived(s, events) == s';
    LifeKeeps(s, events);
  }

  lemma LeadsToItself(s: State)
    ensures LeadsTo(s, s)
  {
    assert Lives(s, []) && AllActsTame(s, []) && Lived(s, []) == s;
  }

  lemma LeadsFurther(s: State, mid: State, e: Event)
    requires LeadsTo(s, mid) && Possible(mid, e) && TameEvent(mid, e)
    ensures LeadsTo(s, After(mid, e))
  {
    hide Lives, Lived, AllActsTame, Possible, After;
    var events :| Lives(s, events) && AllActsTame(s, events) && Lived(s, events) == mid;
    LivesFurther(s, events, e);
    assert Lives(s, events + [e]) && AllActsTame(s, events + [e]) && Lived(s, events + [e]) == After(mid, e);
  }

  lemma {:induction false} LivesFurther(s: State, events: seq<Event>, e: Event)
    requires Lives(s, events) && AllActsTame(s, events)
    requires Possible(Lived(s, events), e) && TameEvent(Lived(s, events), e)
    ensures Lives(s, events + [e]) && AllActsTame(s, events + [e])
    ensures Lived(s, events + [e]) == After(Lived(s, events), e)
    decreases |events|
  {
    hide Possible, After, TameEvent;
    if events == [] {
      assert events + [e] == [e] && [e][1..] == [];
      assert Lives(After(s, e), []) && AllActsTame(After(s, e), []) && Lived(After(s, e), []) == After(s, e);
    } else {
      assert (events + [e])[0] == events[0] && (events + [e])[1..] == events[1..] + [e];
      LivesFurther(After(s, events[0]), events[1..], e);
    }
  }
}

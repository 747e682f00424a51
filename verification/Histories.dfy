/** Lives of the coordinator that include crashes: what survives a restart from the journal. */
module Histories {
  import opened Timeline
  import opened Claims
  import opened Entries
  import opened Records
  import opened FabricState
  import opened Steps
  import opened Lineage
  import opened Closure
  import opened Replay

  datatype Event = Act(step: Step) | Crash

  ghost predicate Possible(s: State, e: Event) {
    match e
    case Act(step) => Enabled(s, step)
    case Crash => Denoted(s)
  }

  ghost function After(s: State, e: Event): State
    requires Possible(s, e)
  {
    match e
    case Act(step) => Next(s, step)
    case Crash => Recovered(s)
  }

  ghost predicate Lives(s: State, events: seq<Event>)
    decreases |events|
  {
    events != [] ==> Possible(s, events[0]) && Lives(After(s, events[0]), events[1..])
  }

  ghost function Lived(s: State, events: seq<Event>): State
    requires Lives(s, events)
    decreases |events|
  {
    if events == [] then s else Lived(After(s, events[0]), events[1..])
  }

  /** No attempt is evicted: there is room to remember one more before every event. */
  ghost predicate NothingForgotten(s: State, events: seq<Event>)
    requires Lives(s, events)
    decreases |events|
  {
    events != [] ==> |s.attemptOrder| < s.maxAttempts && NothingForgotten(After(s, events[0]), events[1..])
  }

  // ---------------------------------------------------------------------------
  // Recovery keeps lineage and soundness
  // ---------------------------------------------------------------------------

  lemma RecoveredInv(s: State)
    requires Inv(s) && Denoted(s)
    ensures Inv(Recovered(s)) && Denoted(Recovered(s)) && Alike(s, Recovered(s))
  {
    hide Replayed, Replayable;
    var r := Recovered(s);
    assert Denoted(r);
    var mid := s.(records := r.records);
    forall k | k in s.records ensures RetouchedRecord(s.records[k], r.records[k]) {
      hide Chained;
      NoteKeepsRecall(s, k);
    }
    hide Denoted;
    RetouchKeepsInv(s, mid);
    WithoutHolds(mid, r);
  }

  lemma WithoutHolds(s: State, r: State)
    requires Inv(s) && r.records == s.records && r.current == s.current && r.ledger == s.ledger && r.holds == map[]
    ensures Inv(r)
  {
    hide Filed, GapFree, OneAuthority;
  }

  lemma EventKeeps(s: State, e: Event)
    requires Inv(s) && Denoted(s) && Possible(s, e)
    ensures Inv(After(s, e)) && Denoted(After(s, e)) && After(s, e).maxAttempts == s.maxAttempts
  {
    hide Inv, Denoted, Recovered, Enabled, Next;
    match e
    case Act(step) => NextKeepsInv(s, step); NextStaysDenoted(s, step);
    case Crash => RecoveredInv(s);
  }

  /** After any life, crashes included, lineage is intact and the journal denotes the state. */
  lemma {:induction false} LifeKeeps(s: State, events: seq<Event>)
    requires Inv(s) && Denoted(s) && Lives(s, events)
    ensures Inv(Lived(s, events)) && Denoted(Lived(s, events))
    decreases |events|
  {
    hide Inv, Denoted, Possible, After;
    if events != [] {
      EventKeeps(s, events[0]);
      LifeKeeps(After(s, events[0]), events[1..]);
    }
  }

  // ---------------------------------------------------------------------------
  // At most once
  // ---------------------------------------------------------------------------

  function AttemptOf(d: DurableRecord): Option<Identity> {
    match d
    case ReservationMutation(_, _, _, _, _, attempt) => if attempt.Some? then Some(attempt.value.id) else None
    case StateMutation(_, _, _, attempt) => if attempt.Some? then Some(attempt.value.id) else None
    case AttemptOutcome(attempt) => Some(attempt.id)
    case _ => None
  }

  /** Every attempt that reached the journal is still remembered. */
  ghost predicate Remembers(s: State) {
    forall i :: 0 <= i < |s.journal| && AttemptOf(s.journal[i]).Some? ==> AttemptOf(s.journal[i]).value in s.attempts
  }

  /** No two commits in the journal answer the same attempt. */
  ghost predicate CommitsOnce(journal: seq<DurableRecord>) {
    forall i, j :: 0 <= i < j < |journal| && journal[i].ReservationMutation? && journal[j].ReservationMutation? ==>
      AttemptOf(journal[i]).Some? ==> AttemptOf(journal[i]) != AttemptOf(journal[j])
  }

  lemma RememberedRoomy(s: State, a: Attempt)
    requires |s.attemptOrder| < s.maxAttempts
    ensures Remembered(s, a).attempts == s.attempts[a.id := a]
  {
  }

  lemma AppliedRemembers(s: State, d: DurableRecord)
    requires Applicable(s, d) && |s.attemptOrder| < s.maxAttempts
    ensures s.attempts.Keys <= Applied(s, d).attempts.Keys
    ensures AttemptOf(d).Some? ==> AttemptOf(d).value in Applied(s, d).attempts
  {
    hide Remembered, RegisteredAll, RevokedAll, Known, Stated, WithdrawnAll, Grouped;
    match d
    case ReservationMutation(_, _, _, _, _, attempt) => MutationRemembers(s, d);
    case StateMutation(key, to, recallAt, attempt) => TransitionRemembers(s, d);
    case AttemptOutcome(attempt) => RememberedRoomy(s, attempt);
    case _ =>
  }

  lemma TransitionRemembers(s: State, d: DurableRecord)
    requires d.StateMutation? && Applicable(s, d) && |s.attemptOrder| < s.maxAttempts
    ensures s.attempts.Keys <= Applied(s, d).attempts.Keys
    ensures d.attempt.Some? ==> d.attempt.value.id in Applied(s, d).attempts
  {
    hide Remembered;
    if d.attempt.Some? {
      TransitionShape(s, d.key, d.to, d.recallAt);
      RememberedRoomy(s.(records := Noted(s, d)), d.attempt.value);
    }
  }

  lemma MutationRemembers(s: State, d: DurableRecord)
    requires d.ReservationMutation? && Applicable(s, d) && |s.attemptOrder| < s.maxAttempts
    ensures s.attempts.Keys <= Applied(s, d).attempts.Keys
    ensures d.attempt.Some? ==> d.attempt.value.id in Applied(s, d).attempts
  {
    hide Remembered, RegisteredAll, RevokedAll, Predeceased, Grouped;
    var s1 := Registered(Predeceased(s, d), d.record);
    PredeceasedForgetsNothing(s, d);
    RegisteredAllKeepsRest(s1, d.members);
    var s2 := RegisteredAll(s1, d.members);
    GroupedKeeps(s2, d);
    GroupedKnown(s2, d);
    RevokedAllKeeps(Grouped(s2, d), d.companions);
    if d.attempt.Some? { RememberedRoomy(RevokedAll(Grouped(s2, d), d.companions), d.attempt.value); }
  }

  lemma PredeceasedForgetsNothing(s: State, d: DurableRecord)
    requires d.ReservationMutation?
    ensures var p := Predeceased(s, d);
            p.attempts == s.attempts && p.attemptOrder == s.attemptOrder && p.maxAttempts == s.maxAttempts
  {
  }

  /** What a step appends, if anything. */
  function Appends(step: Step): Option<DurableRecord> {
    match step
    case Admit(d, _, _) => Some(d)
    case Supersede(d, _, _) => Some(d)
    case Note(d) => Some(d)
    case Recall(d, _) => Some(d)
    case Ingest(d, _) => Some(d)
    case TakeHold(_, _) => None
    case DropHolds(_) => None
  }

  /** The two remember the same attempts, in the same order. */
  predicate SameAttempts(a: State, b: State) {
    a.attempts == b.attempts && a.attemptOrder == b.attemptOrder && a.maxAttempts == b.maxAttempts
  }

  lemma StepAppends(s: State, step: Step)
    requires Enabled(s, step)
    ensures match Appends(step)
            case None => Next(s, step).journal == s.journal && SameAttempts(Next(s, step), s)
            case Some(d) => Applicable(s, d) && Next(s, step).journal == s.journal + [d]
                            && SameAttempts(Next(s, step), Applied(s, d))
  {
    hide FitsIn, Wellbound, Applied;
    match step
    case Admit(d, consumed, allowance) => AdmitApplicable(s, d, consumed, allowance);
    case Supersede(d, measured, allowance) => SupersedeShape(s, d, measured, allowance);
    case _ =>
  }

  /** A commit is only ever enabled under an attempt nobody remembers. */
  lemma CommitIsNew(s: State, step: Step)
    requires Enabled(s, step) && Appends(step).Some? && Appends(step).value.ReservationMutation?
    ensures AttemptOf(Appends(step).value).Some? ==> AttemptOf(Appends(step).value).value !in s.attempts
  {
  }

  lemma StepCommitsOnce(s: State, step: Step)
    requires Enabled(s, step) && |s.attemptOrder| < s.maxAttempts && Remembers(s) && CommitsOnce(s.journal)
    ensures Remembers(Next(s, step)) && CommitsOnce(Next(s, step).journal)
  {
    hide Enabled, Next, Applicable, Applied;
    StepAppends(s, step);
    match Appends(step)
    case None =>
    case Some(d) =>
      AppliedRemembers(s, d);
      if d.ReservationMutation? { CommitIsNew(s, step); }
  }

  lemma {:induction false} LifeCommitsOnce(s: State, events: seq<Event>)
    requires Inv(s) && Denoted(s) && Lives(s, events) && NothingForgotten(s, events)
    requires Remembers(s) && CommitsOnce(s.journal)
    ensures CommitsOnce(Lived(s, events).journal)
    decreases |events|
  {
    hide Inv, Denoted, Enabled, Next, Remembers, CommitsOnce, Recovered;
    if events != [] {
      EventKeeps(s, events[0]);
      match events[0] {
        case Act(step) => StepCommitsOnce(s, step);
        case Crash => RecoveredRemembers(s);
      }
      LifeCommitsOnce(After(s, events[0]), events[1..]);
    }
  }

  lemma RecoveredRemembers(s: State)
    requires Denoted(s)
    ensures Recovered(s).journal == s.journal && Recovered(s).attempts == s.attempts
    ensures Remembers(s) ==> Remembers(Recovered(s))
  {
    hide Replayed, Replayable;
  }

  lemma InitialDenoted(maxAttempts: nat)
    ensures Inv(Initial(maxAttempts)) && Denoted(Initial(maxAttempts))
    ensures Remembers(Initial(maxAttempts)) && CommitsOnce(Initial(maxAttempts).journal)
  {
  }

  /**
   At most once: along any life without eviction, restarts included, no attempt
   identity commits twice.
   */
  lemma AtMostOnce(maxAttempts: nat, events: seq<Event>, i: nat, j: nat)
    requires Lives(Initial(maxAttempts), events) && NothingForgotten(Initial(maxAttempts), events)
    requires i < j < |Lived(Initial(maxAttempts), events).journal|
    ensures var journal := Lived(Initial(maxAttempts), events).journal;
            journal[i].ReservationMutation? && journal[j].ReservationMutation? && AttemptOf(journal[i]).Some? ==>
            AttemptOf(journal[i]) != AttemptOf(journal[j])
  {
    InitialDenoted(maxAttempts);
    LifeCommitsOnce(Initial(maxAttempts), events);
  }

  /**
   After any life, replaying the journal rebuilds ledger, lineage, series, claimants,
   attempts and every record up to the grace of a recall.
   */
  lemma JournalDenotesState(maxAttempts: nat, events: seq<Event>)
    requires Lives(Initial(maxAttempts), events)
    ensures var s := Lived(Initial(maxAttempts), events);
            Replayable(Initial(s.maxAttempts), s.journal) && Alike(s, Replayed(Initial(s.maxAttempts), s.journal))
  {
    InitialDenoted(maxAttempts);
    LifeKeeps(Initial(maxAttempts), events);
  }
}

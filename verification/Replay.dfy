/**
 Recovery from the journal: replaying the appended records rebuilds the live
 state, except for provisional holds and the grace of a recall.
 */
module Replay {
  import opened Timeline
  import opened Claims
  import opened Entries
  import opened Records
  import opened FabricState
  import opened Steps
  import opened Lineage

  /** Every record can be applied when its turn comes. */
  predicate Replayable(s: State, records: seq<DurableRecord>)
    decreases |records|
  {
    records != [] ==> Applicable(s, records[0]) && Replayable(Applied(s, records[0]), records[1..])
  }

  function Replayed(s: State, records: seq<DurableRecord>): State
    requires Replayable(s, records)
    decreases |records|
  {
    if records == [] then s else Replayed(Applied(s, records[0]), records[1..])
  }

  lemma {:induction false} ReplayedOneMore(s: State, records: seq<DurableRecord>, d: DurableRecord)
    requires Replayable(s, records) && Applicable(Replayed(s, records), d)
    ensures Replayable(s, records + [d])
    ensures Replayed(s, records + [d]) == Applied(Replayed(s, records), d)
    decreases |records|
  {
    hide Applicable, Applied;
    if records == [] {
      assert records + [d] == [d] && [d][1..] == [];
    } else {
      assert (records + [d])[0] == records[0] && (records + [d])[1..] == records[1..] + [d];
      ReplayedOneMore(Applied(s, records[0]), records[1..], d);
    }
  }

  // ---------------------------------------------------------------------------
  // Equal but for what the journal does not carry
  // ---------------------------------------------------------------------------

  predicate AlikeRecords(a: RecordTable, b: RecordTable) {
    a.Keys == b.Keys && forall k :: k in a ==> b[k] == a[k].(grace := b[k].grace)
  }

  /** Same state up to holds, the journal itself and the grace of recalls. */
  predicate Alike(a: State, b: State) {
    b == a.(holds := b.holds, journal := b.journal, records := b.records) && AlikeRecords(a.records, b.records)
  }

  lemma AlikeWithState(a: State, b: State, key: Key, to: ReservationState)
    requires Alike(a, b) && key in a.records
    ensures key in b.records && Alike(WithState(a, key, to), WithState(b, key, to))
  {
  }

  lemma AlikeRegistered(a: State, b: State, r: Record)
    requires Alike(a, b)
    ensures Alike(Registered(a, r), Registered(b, r))
  {
  }

  lemma {:induction false} AlikeRegisteredAll(a: State, b: State, rs: seq<Record>)
    requires Alike(a, b)
    ensures Alike(RegisteredAll(a, rs), RegisteredAll(b, rs))
    decreases |rs|
  {
    hide Registered, Alike;
    if rs != [] {
      AlikeRegistered(a, b, rs[0]);
      AlikeRegisteredAll(Registered(a, rs[0]), Registered(b, rs[0]), rs[1..]);
    }
  }

  lemma {:induction false} AlikeRevokedAll(a: State, b: State, keys: seq<Key>)
    requires Alike(a, b) && Known(a, keys)
    ensures Known(b, keys) && Alike(RevokedAll(a, keys), RevokedAll(b, keys))
    decreases |keys|
  {
    if keys != [] {
      AlikeWithState(a, b, keys[0], Revoked);
      AlikeRevokedAll(WithState(a, keys[0], Revoked), WithState(b, keys[0], Revoked), keys[1..]);
    }
  }

  lemma {:induction false} AlikeEvicted(a: State, b: State)
    requires Alike(a, b)
    ensures Alike(Evicted(a), Evicted(b))
    decreases |a.attemptOrder|
  {
    if |a.attemptOrder| > a.maxAttempts {
      AlikeEvicted(a.(attempts := a.attempts - {a.attemptOrder[0]}, attemptOrder := a.attemptOrder[1..]),
                   b.(attempts := b.attempts - {b.attemptOrder[0]}, attemptOrder := b.attemptOrder[1..]));
    }
  }

  /** The state in which an attempt has been noted but nothing evicted yet. */
  function Listed(s: State, a: Attempt): State {
    s.(attempts := s.attempts[a.id := a], attemptOrder := if a.id in s.attempts then s.attemptOrder
       else s.attemptOrder + [a.id])
  }

  lemma AlikeListed(a: State, b: State, x: Attempt)
    requires Alike(a, b)
    ensures Alike(Listed(a, x), Listed(b, x))
  {
  }

  lemma AlikeRememberedIf(a: State, b: State, attempt: Option<Attempt>)
    requires Alike(a, b)
    ensures Alike(RememberedIf(a, attempt), RememberedIf(b, attempt))
  {
    hide Evicted, Alike;
    match attempt
    case None =>
    case Some(x) => AlikeListed(a, b, x); AlikeEvicted(Listed(a, x), Listed(b, x));
  }

  lemma AlikePredeceased(a: State, b: State, d: DurableRecord)
    requires Alike(a, b) && d.ReservationMutation?
    ensures Alike(Predeceased(a, d), Predeceased(b, d))
  {
  }

  lemma AlikeGrouped(a: State, b: State, d: DurableRecord)
    requires Alike(a, b) && d.ReservationMutation?
    ensures Alike(Grouped(a, d), Grouped(b, d))
  {
  }

  lemma AlikeMutation(a: State, b: State, d: DurableRecord)
    requires d.ReservationMutation? && Alike(a, b) && Applicable(a, d)
    ensures Applicable(b, d) && Alike(Applied(a, d), Applied(b, d))
  {
    hide Alike, Predeceased, Registered, RegisteredAll, RevokedAll, Grouped, RememberedIf, Known;
    var a1, b1 := Registered(Predeceased(a, d), d.record), Registered(Predeceased(b, d), d.record);
    AlikePredeceased(a, b, d);
    AlikeRegistered(Predeceased(a, d), Predeceased(b, d), d.record);
    AlikeRegisteredAll(a1, b1, d.members);
    var a2, b2 := RegisteredAll(a1, d.members), RegisteredAll(b1, d.members);
    AlikeGrouped(a2, b2, d);
    GroupedKnown(a2, d);
    GroupedKnown(b2, d);
    AlikeRevokedAll(a2, b2, d.companions);
    AlikeRevokedAll(Grouped(a2, d), Grouped(b2, d), d.companions);
    AlikeRememberedIf(RevokedAll(Grouped(a2, d), d.companions), RevokedAll(Grouped(b2, d), d.companions), d.attempt);
    AlikeKeys(a, b);
  }

  lemma AlikeKeys(a: State, b: State)
    requires Alike(a, b)
    ensures a.records.Keys == b.records.Keys && a.ledger == b.ledger
  {
  }

  lemma GroupedKnown(s: State, d: DurableRecord)
    requires d.ReservationMutation?
    ensures Known(Grouped(s, d), d.companions) == Known(s, d.companions)
  {
  }

  /** A record does the same to states that are alike. */
  lemma AlikeRest(a: State, b: State, d: DurableRecord)
    requires Alike(a, b) && Applicable(a, d)
    requires !d.ReservationMutation? && !d.StateMutation? && !d.AttemptOutcome?
    ensures Applicable(b, d) && Alike(Applied(a, d), Applied(b, d))
  {
    hide Stated, WithdrawnAll;
  }

  lemma AlikeApplied(a: State, b: State, d: DurableRecord)
    requires Alike(a, b) && Applicable(a, d)
    ensures Applicable(b, d) && Alike(Applied(a, d), Applied(b, d))
  {
    if d.ReservationMutation? {
      AlikeMutation(a, b, d);
    } else if d.StateMutation? {
      AlikeStateMutation(a, b, d);
    } else if d.AttemptOutcome? {
      hide Evicted, Alike;
      AlikeRememberedIf(a, b, Some(d.outcome));
    } else {
      AlikeRest(a, b, d);
    }
  }

  lemma AlikeStateMutation(a: State, b: State, d: DurableRecord)
    requires d.StateMutation? && Alike(a, b) && Applicable(a, d)
    ensures Applicable(b, d) && Alike(Applied(a, d), Applied(b, d))
  {
    hide RememberedIf;
    var key, at := d.key, d.recallAt;
    var a1 := if at > 0 then a.(records := a.records[key := a.records[key].(recallAt := at)]) else a;
    var b1 := if at > 0 then b.(records := b.records[key := b.records[key].(recallAt := at)]) else b;
    assert Alike(a1, b1);
    AlikeWithState(a1, b1, key, d.to);
    AlikeRememberedIf(WithState(a1, key, d.to), WithState(b1, key, d.to), d.attempt);
  }

  // ---------------------------------------------------------------------------
  // The journal denotes the live state
  // ---------------------------------------------------------------------------

  /** Replaying the whole journal gives back the live state, up to what it does not carry. */
  ghost predicate Denoted(s: State) {
    && Replayable(Initial(s.maxAttempts), s.journal)
    && Alike(s, Replayed(Initial(s.maxAttempts), s.journal))
    && Replayed(Initial(s.maxAttempts), s.journal).holds == map[]
  }

  lemma WriteStaysDenoted(s: State, d: DurableRecord)
    requires Denoted(s) && Applicable(s, d)
    ensures Denoted(Written(s, d)) && Written(s, d).maxAttempts == s.maxAttempts
  {
    hide Applicable, Applied, Replayed, Replayable;
    var r := Replayed(Initial(s.maxAttempts), s.journal);
    AppliedKeepsBound(s, d);
    AlikeApplied(s, r, d);
    AppliedKeepsBound(r, d);
    ReplayedOneMore(Initial(s.maxAttempts), s.journal, d);
    AlikeTrans(Applied(s, d), Written(s, d), Applied(r, d));
  }

  lemma AlikeTrans(a: State, b: State, c: State)
    requires Alike(a, c) && b == a.(journal := b.journal)
    ensures Alike(b, c)
  {
  }

  /** Applying a record leaves the bound, the journal and the holds alone. */
  ghost predicate SameRest(s: State, s': State) {
    s'.maxAttempts == s.maxAttempts && s'.journal == s.journal && s'.holds == s.holds
  }

  lemma AppliedKeepsBound(s: State, d: DurableRecord)
    requires Applicable(s, d)
    ensures SameRest(s, Applied(s, d))
  {
    hide RegisteredAll, RevokedAll, Remembered, Known;
    match d
    case ReservationMutation(_, _, _, _, _, _) => MutationKeepsBound(s, d);
    case StateMutation(_, _, _, attempt) => StateShape(s, d);
    case AttemptOutcome(attempt) => RememberedKeeps(s, attempt);
    case _ =>
  }

  lemma MutationKeepsBound(s: State, d: DurableRecord)
    requires d.ReservationMutation? && Applicable(s, d)
    ensures SameRest(s, Applied(s, d))
  {
    hide RegisteredAll, RevokedAll, Remembered, Predeceased, Grouped, Registered;
    var s1 := Registered(Predeceased(s, d), d.record);
    assert SameRest(s, s1) by { PredeceasedKeepsRest(s, d); }
    RegisteredAllKeepsRest(s1, d.members);
    var s2 := RegisteredAll(s1, d.members);
    GroupedKeeps(s2, d);
    GroupedKnown(s2, d);
    RevokedAllKeeps(Grouped(s2, d), d.companions);
    if d.attempt.Some? { RememberedKeeps(RevokedAll(Grouped(s2, d), d.companions), d.attempt.value); }
  }

  lemma PredeceasedKeepsRest(s: State, d: DurableRecord)
    requires d.ReservationMutation?
    ensures SameRest(s, Registered(Predeceased(s, d), d.record))
  {
  }

  lemma {:induction false} RegisteredAllKeepsRest(s: State, rs: seq<Record>)
    ensures RegisteredAll(s, rs) == s.(records := RegisteredAll(s, rs).records, current := RegisteredAll(s, rs).current)
    decreases |rs|
  {
    if rs != [] {
      RegisteredAllKeepsRest(Registered(s, rs[0]), rs[1..]);
    }
  }

  lemma ReleasedStaysDenoted(s: State, ids: set<Identity>)
    requires Denoted(s)
    ensures Denoted(HoldsReleased(s, ids))
  {
    hide Replayed, Replayable;
  }

  /** Every step keeps the journal a faithful account of the state. */
  lemma NextStaysDenoted(s: State, step: Step)
    requires Denoted(s) && Enabled(s, step)
    ensures Denoted(Next(s, step)) && Next(s, step).maxAttempts == s.maxAttempts
  {
    hide Denoted, Applied, FitsIn, Wellbound;
    match step
    case Admit(d, consumed, allowance) =>
      AdmitApplicable(s, d, consumed, allowance);
      WriteStaysDenoted(s, d);
      ReleasedStaysDenoted(Written(s, d), consumed);
    case Supersede(d, measured, allowance) => SupersedeShape(s, d, measured, allowance); WriteStaysDenoted(s, d);
    case Note(d) => WriteStaysDenoted(s, d);
    case Recall(d, grace) => WriteStaysDenoted(s, d); GraceStaysDenoted(Written(s, d), d.key, grace);
    case Ingest(d, fenced) => WriteStaysDenoted(s, d); ReleasedStaysDenoted(Written(s, d), fenced);
    case TakeHold(hold, allowance) => HoldStaysDenoted(s, hold);
    case DropHolds(ids) => ReleasedStaysDenoted(s, ids);
  }

  lemma GraceStaysDenoted(s: State, key: Key, grace: int)
    requires Denoted(s)
    ensures Denoted(WithGrace(s, key, grace))
  {
    hide Replayed, Replayable;
  }

  lemma HoldStaysDenoted(s: State, h: Hold)
    requires Denoted(s)
    ensures Denoted(s.(holds := s.holds[h.id := h]))
  {
    hide Replayed, Replayable;
  }

  // ---------------------------------------------------------------------------
  // Recovery
  // ---------------------------------------------------------------------------

  /** The state after a crash: what the journal denotes, and no provisional holds. */
  ghost function Recovered(s: State): State
    requires Denoted(s)
  {
    Replayed(Initial(s.maxAttempts), s.journal).(journal := s.journal)
  }
}

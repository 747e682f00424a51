/**
 The index rebuilt from the journal after a crash, and when it differs from the
 live one: the grace of a recall is not in the journal.
 */
module Rebuilding {
  import opened Timeline
  import opened Claims
  import opened Entries
  import opened Records
  import opened FabricState
  import opened Steps
  import opened Lineage
  import opened Replay

  // ---------------------------------------------------------------------------
  // The grace a journal carries
  // ---------------------------------------------------------------------------

  /** The last of the records filed under a key. */
  function LastFiled(rs: seq<Record>, key: Key): Option<Record>
    decreases |rs|
  {
    if rs == [] then None
    else
      var later := LastFiled(rs[1..], key);
      if later.Some? then later else if rs[0].KeyOf() == key then Some(rs[0]) else None
  }

  function WrittenBy(d: DurableRecord, key: Key): Option<Record> {
    if d.ReservationMutation? then LastFiled([d.record] + d.members, key) else None
  }

  /** The record as a journal last wrote it under a key. */
  function WrittenIn(journal: seq<DurableRecord>, key: Key): Option<Record>
    decreases |journal|
  {
    if journal == [] then None
    else
      var later := WrittenIn(journal[1..], key);
      if later.Some? then later else WrittenBy(journal[0], key)
  }

  /** The grace the journal gives the record under a key. */
  function InscribedGrace(journal: seq<DurableRecord>, key: Key): int {
    var written := WrittenIn(journal, key);
    if written.None? then 0 else written.value.grace
  }

  /** Under a key, the state has the grace last written, or else the one it had before. */
  ghost predicate GraceAs(before: State, after: State, key: Key, written: Option<Record>) {
    && (key in after.records <==> key in before.records || written.Some?)
    && (key in after.records ==>
          after.records[key].grace == if written.Some? then written.value.grace else before.records[key].grace)
  }

  lemma {:induction false} RegisteredGrace(s: State, rs: seq<Record>, key: Key)
    ensures GraceAs(s, RegisteredAll(s, rs), key, LastFiled(rs, key))
    decreases |rs|
  {
    if rs != [] { RegisteredGrace(Registered(s, rs[0]), rs[1..], key); }
  }

  lemma MutationGrace(s: State, d: DurableRecord, key: Key)
    requires d.ReservationMutation? && Applicable(s, d)
    ensures GraceAs(s, Applied(s, d), key, WrittenBy(d, key))
  {
    hide RegisteredAll, RevokedAll, Known, Evicted;
    var p := Predeceased(s, d);
    assert GraceAs(s, p, key, None);
    var all := [d.record] + d.members;
    assert all[0] == d.record && all[1..] == d.members;
    RegisteredGrace(p, all, key);
    assert RegisteredAll(p, all) == RegisteredAll(Registered(p, d.record), d.members) by { RegistersFirst(p, all); }
    var s2 := RegisteredAll(Registered(p, d.record), d.members);
    GroupedKnown(s2, d);
    RevokedAllKeeps(Grouped(s2, d), d.companions);
    var s3 := RevokedAll(Grouped(s2, d), d.companions);
    if d.attempt.Some? { RememberedKeeps(s3, d.attempt.value); }
  }

  lemma RegistersFirst(s: State, rs: seq<Record>)
    requires rs != []
    ensures RegisteredAll(s, rs) == RegisteredAll(Registered(s, rs[0]), rs[1..])
  {
  }

  lemma AppliedGrace(s: State, d: DurableRecord, key: Key)
    requires Applicable(s, d)
    ensures GraceAs(s, Applied(s, d), key, WrittenBy(d, key))
  {
    hide Applied, Applicable, Known, RegisteredAll;
    if d.ReservationMutation? {
      MutationGrace(s, d, key);
    } else if d.CapacitySnapshot? {
      assert Applied(s, d).records == s.records by { IngestKeepsRecords(s, d); }
    } else {
      NoteShape(s, d);
    }
  }

  lemma IngestKeepsRecords(s: State, d: DurableRecord)
    requires d.CapacitySnapshot? && Applicable(s, d)
    ensures Applied(s, d).records == s.records
  {
    hide Stated, WithdrawnAll;
  }

  lemma {:induction false} ReplayedGrace(s: State, records: seq<DurableRecord>, key: Key)
    requires Replayable(s, records)
    ensures GraceAs(s, Replayed(s, records), key, WrittenIn(records, key))
    decreases |records|
  {
    hide Applied, Applicable, WrittenBy;
    if records != [] {
      AppliedGrace(s, records[0], key);
      ReplayedGrace(Applied(s, records[0]), records[1..], key);
    }
  }

  /** Recovery gives every record the grace its journal carries, and leaves the rest of it as it was. */
  lemma RecoveredRecord(s: State, key: Key)
    requires Denoted(s) && key in s.records
    ensures key in Recovered(s).records
    ensures Recovered(s).records[key] == s.records[key].(grace := InscribedGrace(s.journal, key))
  {
    hide Replayed, Replayable, WrittenIn;
    ReplayedGrace(Initial(s.maxAttempts), s.journal, key);
  }

  // ---------------------------------------------------------------------------
  // The rebuilt index
  // ---------------------------------------------------------------------------

  function ReservationsOf(m: Contents): Contents {
    map k | k in m && k.kind == Reservation :: m[k]
  }

  /**
   Under the grace in the journal the record frees its capacity at another instant than
   under its own: one of the two reaches past the start and not both reach the end.
   */
  predicate GraceLost(ledger: Ledger, r: Record, inscribed: int) {
    && r.Consumes() && AllCurrent(ledger, r.refs) && r.refs != []
    && 0 < r.recallAt < r.terms.interval.end && r.grace != inscribed
    && r.recallAt + Min(r.grace, inscribed) < r.terms.interval.end
    && r.terms.interval.start < r.recallAt + Max(r.grace, inscribed)
  }

  /** The authoritative record of an identity has lost its grace. */
  ghost predicate Loses(s: State, id: Identity) {
    s.HasCurrent(id) && GraceLost(s.ledger, s.CurrentRecord(id), InscribedGrace(s.journal, Key(id, s.current[id])))
  }

  lemma WindowsAgree(ledger: Ledger, live: Record, inscribed: int)
    requires live.refs != [] && ValidInterval(live.terms.interval)
    ensures var again := live.(grace := inscribed);
            if GraceLost(ledger, live, inscribed) then
              && (Indexable(ledger, live) || Indexable(ledger, again))
              && (Indexable(ledger, live) == Indexable(ledger, again) ==> live.Window() != again.Window())
            else
              && Indexable(ledger, live) == Indexable(ledger, again)
              && (Indexable(ledger, live) ==> live.Window() == again.Window())
  {
  }

  lemma RecoveredAuthority(s: State, id: Identity)
    requires Denoted(s)
    ensures Recovered(s).ledger == s.ledger && Recovered(s).current == s.current && Recovered(s).holds == map[]
    ensures Recovered(s).HasCurrent(id) == s.HasCurrent(id)
    ensures s.HasCurrent(id) ==>
      Recovered(s).CurrentRecord(id) == s.CurrentRecord(id).(grace := InscribedGrace(s.journal, Key(id, s.current[id])))
  {
    hide Replayed, Replayable, InscribedGrace;
    if s.HasCurrent(id) { RecoveredRecord(s, Key(id, s.current[id])); }
  }

  /** What recovery wants for one key, compared with what the live index holds. */
  lemma RebuiltKey(s: State, k: EntryKey)
    requires Denoted(s) && Inv(s)
    requires k.kind == Reservation ==> !Loses(s, k.id)
    ensures k.kind == Reservation ==> Wanted(Recovered(s), k) == Wanted(s, k)
    ensures k.kind == HolderKind.Hold ==> Wanted(Recovered(s), k) == None
  {
    hide Denoted, Recovered, GraceLost, Indexable, Inv, InscribedGrace;
    RecoveredAuthority(s, k.id);
    if k.kind == Reservation && s.HasCurrent(k.id) {
      CurrentIsValid(s, Key(k.id, s.current[k.id]));
      if s.CurrentRecord(k.id).refs != [] {
        WindowsAgree(s.ledger, s.CurrentRecord(k.id), InscribedGrace(s.journal, Key(k.id, s.current[k.id])));
      }
    }
  }

  lemma RebuiltDiffers(s: State, id: Identity)
    requires Denoted(s) && Inv(s) && Loses(s, id)
    ensures s.CurrentRecord(id).refs != []
    ensures var k := EntryKey(Reservation, id, s.CurrentRecord(id).refs[0].resource);
            Wanted(Recovered(s), k) != Wanted(s, k)
  {
    hide Denoted, Recovered, Inv, Indexable, InscribedGrace;
    RecoveredAuthority(s, id);
    var r, r' := s.CurrentRecord(id), Recovered(s).CurrentRecord(id);
    CurrentIsValid(s, Key(id, s.current[id]));
    WindowsAgree(s.ledger, r, InscribedGrace(s.journal, Key(id, s.current[id])));
    assert r.Binds(r.refs[0].resource) && r'.Binds(r.refs[0].resource);
  }

  lemma CurrentIsValid(s: State, key: Key)
    requires Inv(s) && key in s.records
    ensures ValidInterval(s.records[key].terms.interval)
  {
    assert SoundRecord(s.ledger, s.records[key]);
  }

  /** A crash would rebuild the live index, holds apart. */
  ghost predicate Rebuilds(s: State) {
    Denoted(s) && Expected(Recovered(s)) == ReservationsOf(Expected(s))
  }

  /**
   The index rebuilt after a crash is the live one without its holds, exactly
   when no authoritative record has lost its grace.
   */
  lemma RebuiltIndex(s: State)
    requires Denoted(s) && Inv(s)
    ensures Rebuilds(s) <==> forall id :: !Loses(s, id)
  {
    hide Denoted, Recovered, Inv, Wanted, Expected, Loses;
    if id :| Loses(s, id) {
      LosesCurrent(s, id);
      RebuiltDiffers(s, id);
      var k := EntryKey(Reservation, id, s.CurrentRecord(id).refs[0].resource);
      ExpectedIs(s, k);
      ExpectedIs(Recovered(s), k);
      assert k in ReservationsOf(Expected(s)) <==> k in Expected(s);
    } else {
      forall k
        ensures k in Expected(Recovered(s)) <==> k in ReservationsOf(Expected(s))
        ensures k in Expected(Recovered(s)) ==> Expected(Recovered(s))[k] == ReservationsOf(Expected(s))[k]
      {
        RebuiltKey(s, k);
        ExpectedIs(s, k);
        ExpectedIs(Recovered(s), k);
      }
    }
  }

  lemma LosesCurrent(s: State, id: Identity)
    requires Loses(s, id)
    ensures s.HasCurrent(id)
  {
  }

  // ---------------------------------------------------------------------------
  // Recalls
  // ---------------------------------------------------------------------------

  /** A grace other than the one in the journal moves the instant at which the recalled record frees its capacity. */
  predicate GraceCounts(ledger: Ledger, r: Record, recallAt: int, grace: int, inscribed: int) {
    && r.refs != [] && AllCurrent(ledger, r.refs) && recallAt < r.terms.interval.end && grace != inscribed
    && recallAt + Min(grace, inscribed) < r.terms.interval.end
    && r.terms.interval.start < recallAt + Max(grace, inscribed)
  }

  lemma RecalledRecord(s: State, d: DurableRecord, grace: int)
    requires CanRecall(s, d)
    ensures var after := Next(s, Recall(d, grace));
            && after.ledger == s.ledger && after.current == s.current && after.journal == s.journal + [d]
            && after.records.Keys == s.records.Keys
            && (forall k :: k in s.records && k != d.key ==> after.records[k] == s.records[k])
            && after.records[d.key] == s.records[d.key].(state := RecallPending, recallAt := d.recallAt, grace := grace)
  {
    hide Applied;
    NoteShape(s, d);
  }

  /** The last record that writes a key decides its grace; one that does not write it changes nothing. */
  lemma {:induction false} InscribedLast(journal: seq<DurableRecord>, d: DurableRecord, key: Key)
    ensures WrittenIn(journal + [d], key) == if WrittenBy(d, key).Some? then WrittenBy(d, key)
            else WrittenIn(journal, key)
    decreases |journal|
  {
    if journal == [] {
      assert journal + [d] == [d] && [d][1..] == [];
    } else {
      assert (journal + [d])[0] == journal[0] && (journal + [d])[1..] == journal[1..] + [d];
      InscribedLast(journal[1..], d, key);
    }
  }

  /** Only what consumes capacity can be recalled, so it is the authoritative generation. */
  lemma RecalledIsCurrent(s: State, key: Key)
    requires Inv(s) && key in s.records && s.records[key].Consumes()
    ensures key.id in s.current && s.current[key.id] == key.generation && s.records[key].KeyOf() == key
    ensures 0 <= s.records[key].recallAt
  {
    assert SoundRecord(s.ledger, s.records[key]);
  }

  lemma RecallLosesHere(s: State, d: DurableRecord, grace: int, id: Identity)
    requires Inv(s) && CanRecall(s, d)
    ensures Loses(Next(s, Recall(d, grace)), id) <==>
            if id == d.key.id
            then GraceCounts(s.ledger, s.records[d.key], d.recallAt, grace, InscribedGrace(s.journal, d.key))
            else Loses(s, id)
  {
    hide Inv, Next, WrittenIn;
    RecalledRecord(s, d, grace);
    RecalledIsCurrent(s, d.key);
    if id in s.current { InscribedLast(s.journal, d, Key(id, s.current[id])); }
  }

  /**
   A recall leaves an index that a crash would not rebuild exactly when its grace counts,
   if every other record was safe.
   */
  lemma RecallLosesGrace(s: State, d: DurableRecord, grace: int)
    requires Inv(s) && Denoted(s) && Enabled(s, Recall(d, grace))
    requires forall id :: id != d.key.id ==> !Loses(s, id)
    ensures Rebuilds(Next(s, Recall(d, grace))) <==>
            !GraceCounts(s.ledger, s.records[d.key], d.recallAt, grace, InscribedGrace(s.journal, d.key))
  {
    hide Denoted, Inv, Next, GraceCounts, Loses, Rebuilds, InscribedGrace;
    var step := Recall(d, grace);
    NextStaysDenoted(s, step);
    NextKeepsInv(s, step);
    RebuiltIndex(Next(s, step));
    forall id ensures Loses(Next(s, step), id) <==>
                      id == d.key.id && GraceCounts(s.ledger, s.records[d.key], d.recallAt, grace,
                                                    InscribedGrace(s.journal, d.key))
    {
      RecallLosesHere(s, d, grace, id);
    }
    assert Loses(Next(s, step), d.key.id)
           <==> GraceCounts(s.ledger, s.records[d.key], d.recallAt, grace, InscribedGrace(s.journal, d.key));
  }
}

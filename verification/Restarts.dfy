/**
 Restarting from the bytes on disk: the snapshot's image is decoded and loaded,
 the records above it are decoded and replayed, and what results is the state
 that was running, up to its holds and the grace of its recalls.
 */
module Restarts {
  import opened Timeline
  import opened Entries
  import opened Records
  import opened FabricState
  import opened Steps
  import opened Lineage
  import opened Replay
  import opened Histories
  import opened Images
  import opened ImagePayloads
  import opened Crc32c
  import Framing
  import opened Codecs
  import opened Schemas
  import opened Payloads
  import opened Storage

  // ---------------------------------------------------------------------------
  // Restarting
  // ---------------------------------------------------------------------------

  /** Decodes and applies the records in order; `None` when one is unreadable or refused. */
  function Resumed(p: Printing, s: State, rs: seq<Framing.JournalRecord>): Option<State>
    decreases |rs|
  {
    if rs == [] then Some(s)
    else
      match Meant(p, rs[0].kind, rs[0].payload)
      case Some(Effect(d)) => if Applicable(s, d) then Resumed(p, Applied(s, d), rs[1..]) else None
      case Some(Silent) => Resumed(p, s, rs[1..])
      case _ => None
  }

  function Base(p: Printing, maxAttempts: nat, image: Option<seq<Byte>>): Option<State> {
    if image.None? || image.value == [] then Some(Initial(maxAttempts))
    else
      var read := ReadImage(p, image.value);
      if read.None? then None else Some(Restored(maxAttempts, read.value))
  }

  /** The state a coordinator starts with, given what the store recovered. */
  function Restarted(p: Printing, maxAttempts: nat, r: Recovery): Option<State> {
    if r.Failed? then None
    else
      var base := Base(p, maxAttempts, r.image);
      if base.None? then None else Resumed(p, base.value, r.records)
  }

  /** The effects a sequence of records has on what the model covers; `None` when one is unreadable or outside it. */
  function Account(p: Printing, rs: seq<Framing.JournalRecord>): Option<seq<DurableRecord>>
    decreases |rs|
  {
    if rs == [] then Some([])
    else
      var rest := Account(p, rs[1..]);
      if rest.None? then None
      else
        match Meant(p, rs[0].kind, rs[0].payload)
        case Some(Effect(d)) => Some([d] + rest.value)
        case Some(Silent) => rest
        case _ => None
  }

  lemma {:induction false} ResumedIsReplayed(p: Printing, s: State, rs: seq<Framing.JournalRecord>)
    requires Account(p, rs).Some?
    ensures var ds := Account(p, rs).value;
            Resumed(p, s, rs) == if Replayable(s, ds) then Some(Replayed(s, ds)) else None
    decreases |rs|
  {
    hide Meant, Applicable, Applied;
    if rs != [] {
      var meant := Meant(p, rs[0].kind, rs[0].payload);
      if meant == Some(Silent) {
        ResumedIsReplayed(p, s, rs[1..]);
      } else {
        var d, rest := meant.value.d, Account(p, rs[1..]).value;
        assert ([d] + rest)[1..] == rest;
        if Applicable(s, d) { ResumedIsReplayed(p, Applied(s, d), rs[1..]); }
      }
    }
  }

  lemma {:induction false} AccountSplits(p: Printing, a: seq<Framing.JournalRecord>, b: seq<Framing.JournalRecord>)
    ensures Account(p, a + b)
            == if Account(p, a).Some? && Account(p, b).Some? then Some(Account(p, a).value + Account(p, b).value)
                else None
    decreases |a|
  {
    hide Meant;
    if a == [] {
      assert a + b == b;
      if Account(p, b).Some? { assert [] + Account(p, b).value == Account(p, b).value; }
    } else {
      assert (a + b)[1..] == a[1..] + b;
      AccountSplits(p, a[1..], b);
      if Account(p, a).Some? && Account(p, b).Some? && Meant(p, a[0].kind, a[0].payload).value.Effect? {
        var d := Meant(p, a[0].kind, a[0].payload).value.d;
        assert [d] + (Account(p, a[1..]).value + Account(p, b).value) == [d] + Account(p, a[1..]).value
               + Account(p, b).value;
      }
    }
  }

  lemma {:induction false} ReplaySplits(s: State, a: seq<DurableRecord>, b: seq<DurableRecord>)
    requires Replayable(s, a + b)
    ensures Replayable(s, a) && Replayable(Replayed(s, a), b) && Replayed(s, a + b) == Replayed(Replayed(s, a), b)
    decreases |a|
  {
    hide Applicable, Applied;
    if a == [] {
      assert a + b == b;
    } else {
      assert (a + b)[0] == a[0] && (a + b)[1..] == a[1..] + b;
      ReplaySplits(Applied(s, a[0]), a[1..], b);
    }
  }

  /** The records of a history up to a floor, and above it. */
  function UpTo(history: seq<Fact>, floor: nat): seq<Framing.JournalRecord>
    requires floor <= |history|
  {
    Numbered(history)[..floor]
  }

  /**
   The image of the first `floor` records: it is read back, it loads into what they
   amount to, and no attempt is forgotten in replaying the rest.
   */
  ghost predicate Faithful(p: Printing, maxAttempts: nat, image: seq<Byte>, history: seq<Fact>, floor: nat) {
    && floor <= |history| && image != []
    && Account(p, UpTo(history, floor)).Some? && Account(p, Numbered(history)[floor..]).Some?
    && var before, after := Account(p, UpTo(history, floor)).value, Account(p, Numbered(history)[floor..]).value;
       && Replayable(Initial(maxAttempts), before) && Replayable(Replayed(Initial(maxAttempts), before), after)
       && Roomy(Replayed(Initial(maxAttempts), before), after)
       && ReadImage(p, image).Some?
       && Echoes(Replayed(Initial(maxAttempts), before), Restored(maxAttempts, ReadImage(p, image).value))
       && Kept(Restored(maxAttempts, ReadImage(p, image).value))
  }

  /** The state is an echo of what its journal denotes. */
  ghost predicate Echoed(s: State) {
    Replayable(Initial(s.maxAttempts), s.journal) && Echoes(Replayed(Initial(s.maxAttempts), s.journal), s)
  }

  lemma DenotedIsEchoed(s: State)
    requires Denoted(s)
    ensures Echoed(s)
  {
    hide Replayed, Replayable;
    var z := Replayed(Initial(s.maxAttempts), s.journal);
    assert Reordered(s, z.attemptOrder) == s;
  }

  lemma EchoFlips(a: State, b: State)
    requires Echoes(a, b)
    ensures Echoes(b, a)
  {
  }

  lemma EchoPasses(a: State, b: State, c: State)
    requires Echoes(a, b) && Echoes(b, c)
    ensures Echoes(a, c)
  {
    hide AlikeRecords;
    AlikeRecordsPass(a.records, b.records, c.records);
  }

  lemma AlikeRecordsPass(a: RecordTable, b: RecordTable, c: RecordTable)
    requires AlikeRecords(a, b) && AlikeRecords(b, c)
    ensures AlikeRecords(a, c)
  {
  }

  /**
   The bytes of a live state's capture, written when its journal was the given history, are a faithful image of it.
   */
  lemma CaptureIsFaithful(p: Printing, s: State, history: seq<Fact>)
    requires Inv(s) && Kept(s) && Echoed(s) && Account(p, Numbered(history)) == Some(s.journal)
    requires ImageOk(p, Capture(s)) && ImageBytes(p, Capture(s)) != []
    ensures Faithful(p, s.maxAttempts, ImageBytes(p, Capture(s)), history, |history|)
  {
    hide Inv, Kept, Replayable, Replayed, Account, Numbered, Restored, Capture, ImageOk, ReadImage, ImageBytes,
         Ascending;
    WholeHistory(p, history);
    RestoreReturns(s);
    ImageReadsBack(p, Capture(s));
    KeptOrder(s);
    NothingToReplay(Replayed(Initial(s.maxAttempts), s.journal));
    EchoOfCapture(s, Replayed(Initial(s.maxAttempts), s.journal));
    RestoredKept(s);
  }

  lemma RestoredKept(s: State)
    requires Kept(s)
    ensures Kept(s.(holds := map[], journal := [], attemptOrder := Ascending(s.attempts.Keys)))
  {
    AsManyAsListed(s);
    AscendingRises(s.attempts.Keys);
    hide Ascending;
  }

  lemma WholeHistory(p: Printing, history: seq<Fact>)
    ensures UpTo(history, |history|) == Numbered(history) && Numbered(history)[|history|..] == []
    ensures Account(p, []) == Some([])
  {
  }

  lemma NothingToReplay(s: State)
    ensures Replayable(s, []) && Replayed(s, []) == s && Roomy(s, [])
  {
  }

  lemma KeptOrder(s: State)
    requires Kept(s)
    ensures |Ascending(s.attempts.Keys)| == |s.attemptOrder|
  {
    AsManyAsListed(s);
  }

  lemma EchoOfCapture(s: State, replayed: State)
    requires Echoes(replayed, s) && |Ascending(s.attempts.Keys)| == |s.attemptOrder|
    ensures Echoes(replayed, s.(holds := map[], journal := [], attemptOrder := Ascending(s.attempts.Keys)))
  {
    hide Ascending;
  }

  /** A disk restarts into a state: an echo of it, and exactly alike when no snapshot is involved. */
  ghost predicate RestartsInto(p: Printing, disk: Disk, maxPayload: nat, s: State) {
    var again := Restarted(p, s.maxAttempts, Decipher(disk, maxPayload));
    && again.Some? && Echoes(s, again.value)
    && (disk.snapshot.None? ==> Alike(s, again.value))
  }

  lemma EchoThrough(s: State, a: State, b: State)
    requires Alike(s, a) && Echoes(a, b)
    ensures Echoes(s, b)
  {
  }

  /** A disk restarts into an echo of what the history it tells denotes, and into that itself without a snapshot. */
  lemma DiskEchoes(p: Printing, disk: Disk, maxPayload: nat, image: seq<Fact> -> seq<Byte>, history: seq<Fact>,
                   maxAttempts: nat, journal: seq<DurableRecord>)
    requires Tells(disk, maxPayload, image, history) && Account(p, Numbered(history)) == Some(journal)
    requires Replayable(Initial(maxAttempts), journal)
    requires disk.snapshot.Some? ==>
      var floor := Decipher(disk, maxPayload).floor; Faithful(p, maxAttempts, image(history[..floor]), history, floor)
    ensures var z := Replayed(Initial(maxAttempts), journal);
            var again := Restarted(p, maxAttempts, Decipher(disk, maxPayload));
            && again.Some? && Echoes(z, again.value) && Kept(again.value) && again.value.holds == map[]
            && (disk.snapshot.None? ==> again.value == z)
  {
    hide Decipher, Account, Replayable, Replayed, Numbered, Resumed, Alike, Echoes, Roomy, ReadImage, Restored, Kept;
    var r := Decipher(disk, maxPayload);
    SnapshotGivesImage(disk, maxPayload);
    var floor := r.floor;
    var start := Initial(maxAttempts);
    InitialKept(maxAttempts);
    HistorySplits(p, history, floor);
    var before, after := Account(p, UpTo(history, floor)).value, Account(p, Numbered(history)[floor..]).value;
    ReplaySplits(start, before, after);
    var mid := Replayed(start, before);
    if disk.snapshot.None? {
      NothingBefore(p, history);
      NothingToReplay(start);
      ResumedIsReplayed(p, start, r.records);
      EchoesItself(Replayed(start, journal));
      assert [] + after == after;
      ReplayedKept(start, after);
      ReplayedRest(start, after);
    } else {
      var base := Restored(maxAttempts, ReadImage(p, image(history[..floor])).value);
      ReplayedEchoes(mid, base, after);
      ResumedIsReplayed(p, base, r.records);
      ReplayedKept(base, after);
      RestoredRest(maxAttempts, ReadImage(p, image(history[..floor])).value);
      ReplayedRest(base, after);
    }
  }

  lemma InitialKept(maxAttempts: nat)
    ensures Kept(Initial(maxAttempts)) && Initial(maxAttempts).holds == map[]
  {
  }

  lemma EchoesItself(s: State)
    ensures Echoes(s, s)
  {
    assert Reordered(s, s.attemptOrder) == s;
  }

  lemma {:induction false} ReplayedRest(s: State, records: seq<DurableRecord>)
    requires Replayable(s, records)
    ensures SameRest(s, Replayed(s, records))
    decreases |records|
  {
    hide Applicable, Applied;
    if records != [] {
      AppliedKeepsBound(s, records[0]);
      ReplayedRest(Applied(s, records[0]), records[1..]);
    }
  }

  lemma RestoredRest(maxAttempts: nat, image: Image)
    ensures Restored(maxAttempts, image).holds == map[] && Restored(maxAttempts, image).maxAttempts == maxAttempts
  {
    var loaded := Initial(maxAttempts).(ledger := LedgerOf(image.capacity), series := SeriesOf(image.series),
                                        edges := image.edges, claimants := ClaimantsOf(image.claimants),
                                        overcommitted := OvercommittedOf(image.overcommits));
    RegisteredAllKeepsRest(loaded, image.reservations);
    AllRememberedRest(RegisteredAll(loaded, image.reservations), image.attempts);
  }

  lemma {:induction false} AllRememberedRest(s: State, attempts: seq<Attempt>)
    ensures SameRest(s, RememberedAll(s, attempts))
    decreases |attempts|
  {
    hide Remembered;
    if attempts != [] {
      AllRememberedRest(s, attempts[..|attempts| - 1]);
      RememberedKeeps(RememberedAll(s, attempts[..|attempts| - 1]), attempts[|attempts| - 1]);
    }
  }

  /** A disk that tells a history restarts into whatever state that history denotes. */
  lemma DiskDenotesState(p: Printing, disk: Disk, maxPayload: nat, image: seq<Fact> -> seq<Byte>, history: seq<Fact>,
                         s: State)
    requires Tells(disk, maxPayload, image, history)
    requires Denoted(s) && Account(p, Numbered(history)) == Some(s.journal)
    requires disk.snapshot.Some? ==>
      var floor := Decipher(disk, maxPayload).floor; Faithful(p, s.maxAttempts, image(history[..floor]), history, floor)
    ensures RestartsInto(p, disk, maxPayload, s)
  {
    hide Tells, Decipher, Account, Replayable, Replayed, Numbered, Restarted, Alike, Echoes, Faithful, Kept;
    DiskEchoes(p, disk, maxPayload, image, history, s.maxAttempts, s.journal);
    EchoThrough(s, Replayed(Initial(s.maxAttempts), s.journal),
                Restarted(p, s.maxAttempts, Decipher(disk, maxPayload)).value);
  }

  lemma SnapshotGivesImage(disk: Disk, maxPayload: nat)
    requires Decipher(disk, maxPayload).Recovered?
    ensures Decipher(disk, maxPayload).image.None? <==> disk.snapshot.None?
  {
  }

  lemma NothingBefore(p: Printing, history: seq<Fact>)
    ensures UpTo(history, 0) == [] && Account(p, []) == Some([])
  {
  }

  lemma HistorySplits(p: Printing, history: seq<Fact>, floor: nat)
    requires floor <= |history| && Account(p, Numbered(history)).Some?
    ensures Account(p, UpTo(history, floor)).Some? && Account(p, Numbered(history)[floor..]).Some?
    ensures Account(p, Numbered(history)).value
            == Account(p, UpTo(history, floor)).value + Account(p, Numbered(history)[floor..]).value
  {
    hide Account;
    assert Numbered(history) == UpTo(history, floor) + Numbered(history)[floor..];
    AccountSplits(p, UpTo(history, floor), Numbered(history)[floor..]);
  }

  // ---------------------------------------------------------------------------
  // A crash at any byte of a step
  // ---------------------------------------------------------------------------

  /** What the disk's snapshot holds is the image of the records it stands for. */
  ghost predicate ImageHolds(p: Printing, disk: Disk, maxPayload: nat, image: seq<Fact> -> seq<Byte>,
                             history: seq<Fact>, s: State)
  {
    disk.snapshot.Some? ==>
      var r := Decipher(disk, maxPayload);
      r.Recovered? && r.floor <= |history| && Faithful(p, s.maxAttempts, image(history[..r.floor]), history, r.floor)
  }

  /** The account of a history one fact longer. */
  lemma AccountNext(p: Printing, history: seq<Fact>, f: Fact, journal: seq<DurableRecord>, d: DurableRecord)
    requires Account(p, Numbered(history)) == Some(journal) && Meant(p, f.kind, f.payload) == Some(Effect(d))
    ensures Account(p, Numbered(history + [f])) == Some(journal + [d])
  {
    hide Meant;
    var last := Framing.JournalRecord(f.kind, |history| + 1, f.payload);
    NumberedNext(history, f, 0);
    assert Numbered(history + [f]) == Numbered(history) + [last];
    hide Numbered;
    assert [last][1..] == [] && Account(p, []) == Some([]) && [d] + [] == [d];
    AccountSplits(p, Numbered(history), [last]);
  }

  lemma {:induction false} RoomyNext(s: State, records: seq<DurableRecord>, d: DurableRecord)
    requires Replayable(s, records) && Roomy(s, records) && FindsRoom(Replayed(s, records), d)
    requires Applicable(Replayed(s, records), d)
    ensures Replayable(s, records + [d]) && Roomy(s, records + [d])
    decreases |records|
  {
    hide Applicable, Applied;
    if records == [] {
      assert records + [d] == [d] && [d][1..] == [];
    } else {
      assert (records + [d])[0] == records[0] && (records + [d])[1..] == records[1..] + [d];
      BoundKept(s, records[0]);
      RoomyNext(Applied(s, records[0]), records[1..], d);
    }
  }

  lemma BoundKept(s: State, d: DurableRecord)
    requires Applicable(s, d)
    ensures Applied(s, d).maxAttempts == s.maxAttempts
  {
    hide Applied, Applicable;
    AppliedKeepsBound(s, d);
  }

  /** An image stays faithful while records are added that find room. */
  lemma FaithfulNext(p: Printing, maxAttempts: nat, image: seq<Byte>, history: seq<Fact>, f: Fact, floor: nat,
                     journal: seq<DurableRecord>, d: DurableRecord)
    requires Faithful(p, maxAttempts, image, history, floor) && Replayable(Initial(maxAttempts), journal)
    requires Account(p, Numbered(history)) == Some(journal) && Meant(p, f.kind, f.payload) == Some(Effect(d))
    requires var z := Replayed(Initial(maxAttempts), journal); Applicable(z, d) && FindsRoom(z, d)
    ensures Faithful(p, maxAttempts, image, history + [f], floor)
  {
    hide Account, Numbered, Meant, Replayable, Replayed, Roomy, Echoes, ReadImage, Restored, Applicable, Alike, Kept;
    var start := Initial(maxAttempts);
    var more := history + [f];
    HistorySplits(p, history, floor);
    var before, after := Account(p, UpTo(history, floor)).value, Account(p, Numbered(history)[floor..]).value;
    ReplaySplits(start, before, after);
    SamePast(history, f, floor);
    AccountNext(p, history, f, journal, d);
    HistorySplits(p, more, floor);
    var later := Account(p, Numbered(more)[floor..]).value;
    assert before + later == before + (after + [d]);
    assert later == (before + later)[|before|..] && after + [d] == (before + (after + [d]))[|before|..];
    var mid := Replayed(start, before);
    ReplayedBound(start, before);
    RoomyNext(mid, after, d);
  }

  lemma SamePast(history: seq<Fact>, f: Fact, floor: nat)
    requires floor <= |history|
    ensures UpTo(history + [f], floor) == UpTo(history, floor)
  {
  }

  lemma AlikeKeeps(s: State, replayed: State, d: DurableRecord)
    requires Alike(s, replayed) && Applicable(s, d)
    ensures Applicable(replayed, d) && (FindsRoom(replayed, d) <==> FindsRoom(s, d))
  {
    hide Applied, Applicable;
    AlikeApplied(s, replayed, d);
  }

  /** What can be applied to a state can be applied to what its journal denotes, and finds as much room. */
  lemma DenotedFinds(s: State, d: DurableRecord)
    requires Denoted(s) && Applicable(s, d)
    ensures Replayable(Initial(s.maxAttempts), s.journal)
    ensures var z := Replayed(Initial(s.maxAttempts), s.journal);
            Applicable(z, d) && (FindsRoom(z, d) <==> FindsRoom(s, d))
  {
    hide Replayed, Replayable, Applicable, Alike;
    AlikeKeeps(s, Replayed(Initial(s.maxAttempts), s.journal), d);
  }

  lemma {:induction false} ReplayedBound(s: State, records: seq<DurableRecord>)
    requires Replayable(s, records)
    ensures Replayed(s, records).maxAttempts == s.maxAttempts
    decreases |records|
  {
    hide Applicable, Applied;
    if records != [] {
      BoundKept(s, records[0]);
      ReplayedBound(Applied(s, records[0]), records[1..]);
    }
  }

  /**
   A step writes its record, in any bytes that mean it, at the end of the journal. A crash
   after any number of them restarts into the state before the step or, with the last byte,
   into the state after it.
   */
  lemma CrashWhileWriting(p: Printing, disk: Disk, kept: seq<Framing.JournalRecord>, maxPayload: nat,
                          image: seq<Fact> -> seq<Byte>, history: seq<Fact>, s: State, step: Step, f: Fact, n: nat)
    requires Inv(s) && Denoted(s) && Account(p, Numbered(history)) == Some(s.journal)
    requires Intact(disk, kept, maxPayload, image, history) && ImageHolds(p, disk, maxPayload, image, history, s)
    requires Enabled(s, step) && Appends(step).Some? && (disk.snapshot.Some? ==> FindsRoom(s, Appends(step).value))
    requires Meant(p, f.kind, f.payload) == Some(Effect(Appends(step).value))
    requires var r := Framing.JournalRecord(f.kind, |history| + 1, f.payload);
             Framing.Sound(r, maxPayload) && n <= |Framing.Frame(r)|
    ensures var frame := Framing.Frame(Framing.JournalRecord(f.kind, |history| + 1, f.payload));
            RestartsInto(p, TornAt(disk, kept, frame, n), maxPayload, if n < |frame| then s else Next(s, step))
  {
    hide *;
    var frame := Framing.Frame(Framing.JournalRecord(f.kind, |history| + 1, f.payload));
    var torn := TornAt(disk, kept, frame, n);
    IntactTells(disk, kept, maxPayload, image, history);
    TornTells(disk, kept, f, n, maxPayload, image, history);
    if n < |frame| {
      TornHolds(p, disk, torn, maxPayload, image, history, history, s);
      HoldsAt(p, torn, maxPayload, image, history, s);
      DiskDenotesState(p, torn, maxPayload, image, history, s);
    } else {
      NextStaysDenoted(s, step);
      StepWrites(p, s, step, history, f);
      LongerHolds(p, disk, torn, maxPayload, image, history, f, s, step);
      HoldsAt(p, torn, maxPayload, image, history + [f], Next(s, step));
      DiskDenotesState(p, torn, maxPayload, image, history + [f], Next(s, step));
    }
  }

  lemma TornTells(disk: Disk, kept: seq<Framing.JournalRecord>, f: Fact, n: nat, maxPayload: nat,
                  image: seq<Fact> -> seq<Byte>, history: seq<Fact>)
    requires Intact(disk, kept, maxPayload, image, history)
    requires var r := Framing.JournalRecord(f.kind, |history| + 1, f.payload);
             Framing.Sound(r, maxPayload) && n <= |Framing.Frame(r)|
    ensures var frame := Framing.Frame(Framing.JournalRecord(f.kind, |history| + 1, f.payload));
            var torn := TornAt(disk, kept, frame, n);
            && torn.snapshot == disk.snapshot
            && Tells(torn, maxPayload, image, if n < |frame| then history else history + [f])
  {
    hide Tells, Framing.Sound, Framing.Frame, Framing.SoundAll, Framing.InSequence, Framing.Journal;
    AppendTells(disk, kept, f, n, maxPayload, image, history);
  }

  /** Two disks with one snapshot have the same floor. */
  lemma TornHolds(p: Printing, disk: Disk, torn: Disk, maxPayload: nat, image: seq<Fact> -> seq<Byte>,
                  history: seq<Fact>, history': seq<Fact>, s: State)
    requires torn.snapshot == disk.snapshot && ImageHolds(p, disk, maxPayload, image, history, s)
    requires Tells(disk, maxPayload, image, history) && Tells(torn, maxPayload, image, history')
    ensures Decipher(torn, maxPayload).floor == Decipher(disk, maxPayload).floor
    ensures history' == history ==> ImageHolds(p, torn, maxPayload, image, history, s)
  {
    hide Decipher, Tells, Numbered, Faithful;
    FloorOf(disk, torn, maxPayload, image, history, history');
    ToldRecovers(torn, maxPayload, image, history');
  }

  lemma HoldsAt(p: Printing, disk: Disk, maxPayload: nat, image: seq<Fact> -> seq<Byte>, history: seq<Fact>, s: State)
    requires ImageHolds(p, disk, maxPayload, image, history, s) && Tells(disk, maxPayload, image, history)
    ensures Decipher(disk, maxPayload).Recovered? && Decipher(disk, maxPayload).floor <= |history|
    ensures disk.snapshot.Some? ==>
      var floor := Decipher(disk, maxPayload).floor; Faithful(p, s.maxAttempts, image(history[..floor]), history, floor)
  {
    hide Decipher, Faithful, Numbered;
  }

  lemma StepWrites(p: Printing, s: State, step: Step, history: seq<Fact>, f: Fact)
    requires Enabled(s, step) && Appends(step).Some? && Meant(p, f.kind, f.payload) == Some(Effect(Appends(step).value))
    requires Account(p, Numbered(history)) == Some(s.journal)
    ensures Applicable(s, Appends(step).value)
    ensures Account(p, Numbered(history + [f])) == Some(Next(s, step).journal)
  {
    hide Account, Numbered, Meant, Enabled, Next, Applicable, Applied;
    StepAppends(s, step);
    AccountNext(p, history, f, s.journal, Appends(step).value);
  }

  lemma LongerHolds(p: Printing, disk: Disk, torn: Disk, maxPayload: nat, image: seq<Fact> -> seq<Byte>,
                    history: seq<Fact>, f: Fact, s: State, step: Step)
    requires torn.snapshot == disk.snapshot && ImageHolds(p, disk, maxPayload, image, history, s)
    requires Tells(disk, maxPayload, image, history) && Tells(torn, maxPayload, image, history + [f])
    requires Denoted(s) && Account(p, Numbered(history)) == Some(s.journal)
    requires Enabled(s, step) && Appends(step).Some? && (disk.snapshot.Some? ==> FindsRoom(s, Appends(step).value))
    requires Meant(p, f.kind, f.payload) == Some(Effect(Appends(step).value))
    ensures ImageHolds(p, torn, maxPayload, image, history + [f], Next(s, step))
  {
    hide Account, Numbered, Meant, Enabled, Next, Applicable, Applied, Denoted, Tells, Decipher, Faithful;
    TornHolds(p, disk, torn, maxPayload, image, history, history + [f], s);
    HoldsAt(p, disk, maxPayload, image, history, s);
    ToldRecovers(torn, maxPayload, image, history + [f]);
    NextStaysDenoted(s, step);
    StepWrites(p, s, step, history, f);
    if disk.snapshot.Some? {
      var floor := Decipher(disk, maxPayload).floor;
      assert (history + [f])[..floor] == history[..floor];
      DenotedFinds(s, Appends(step).value);
      FaithfulNext(p, s.maxAttempts, image(history[..floor]), history, f, floor, s.journal, Appends(step).value);
    }
  }

  // ---------------------------------------------------------------------------
  // A crash at any point of compaction
  // ---------------------------------------------------------------------------

  /** A disk whose snapshot is the capture of the running state, taken at the end of the history, restarts into it. */
  lemma CaptureRestarts(p: Printing, disk: Disk, maxPayload: nat, image: seq<Fact> -> seq<Byte>, history: seq<Fact>,
                        s: State)
    requires Tells(disk, maxPayload, image, history) && Decipher(disk, maxPayload).floor == |history|
    requires Inv(s) && Kept(s) && Denoted(s) && Account(p, Numbered(history)) == Some(s.journal)
    requires ImageOk(p, Capture(s)) && image(history) == ImageBytes(p, Capture(s)) && image(history) != []
    ensures RestartsInto(p, disk, maxPayload, s)
  {
    hide *;
    DenotedIsEchoed(s);
    CaptureIsFaithful(p, s, history);
    assert history[..|history|] == history;
    DiskDenotesState(p, disk, maxPayload, image, history, s);
  }

  /**
   Compaction writes the capture of the running state beside the snapshot, puts it in the
   snapshot's place, and replaces the journal by an empty one. A crash at any byte or
   between any two of these restarts into the running state.
   */
  lemma CrashWhileCompacting(p: Printing, disk: Disk, kept: seq<Framing.JournalRecord>, maxPayload: nat,
                             image: seq<Fact> -> seq<Byte>, history: seq<Fact>, s: State, bytes: seq<Byte>)
    requires Intact(disk, kept, maxPayload, image, history) && ImageHolds(p, disk, maxPayload, image, history, s)
    requires Inv(s) && Kept(s) && Denoted(s) && Account(p, Numbered(history)) == Some(s.journal)
    requires ImageOk(p, Capture(s)) && image(history) == ImageBytes(p, Capture(s)) && image(history) != []
    requires |history| < Framing.U64_LIMIT && |image(history)| < Framing.U64_LIMIT
    ensures RestartsInto(p, disk.(temporary := bytes), maxPayload, s)
    ensures var sealed := SealedDisk(disk, |history|, image(history));
            && RestartsInto(p, sealed, maxPayload, s)
            && RestartsInto(p, sealed.(journal := None), maxPayload, s)
            && RestartsInto(p, sealed.(journal := Some([])), maxPayload, s)
  {
    hide *;
    Compacts(disk, kept, maxPayload, image, history, bytes);
    var written := disk.(temporary := bytes);
    TornHolds(p, disk, written, maxPayload, image, history, history, s);
    HoldsAt(p, written, maxPayload, image, history, s);
    DiskDenotesState(p, written, maxPayload, image, history, s);
    var sealed := SealedDisk(disk, |history|, image(history));
    CaptureRestarts(p, sealed, maxPayload, image, history, s);
    CaptureRestarts(p, sealed.(journal := None), maxPayload, image, history, s);
    CaptureRestarts(p, sealed.(journal := Some([])), maxPayload, image, history, s);
  }

  lemma Compacts(disk: Disk, kept: seq<Framing.JournalRecord>, maxPayload: nat, image: seq<Fact> -> seq<Byte>,
                 history: seq<Fact>, bytes: seq<Byte>)
    requires Intact(disk, kept, maxPayload, image, history)
    requires |history| < Framing.U64_LIMIT && |image(history)| < Framing.U64_LIMIT
    ensures Tells(disk, maxPayload, image, history) && Tells(disk.(temporary := bytes), maxPayload, image, history)
    ensures var sealed := SealedDisk(disk, |history|, image(history));
            && Tells(sealed, maxPayload, image, history) && Decipher(sealed, maxPayload).floor == |history|
            && Tells(sealed.(journal := None), maxPayload, image, history)
            && Decipher(sealed.(journal := None), maxPayload).floor == |history|
            && Tells(sealed.(journal := Some([])), maxPayload, image, history)
            && Decipher(sealed.(journal := Some([])), maxPayload).floor == |history|
  {
    hide Tells, Decipher, Framing.SoundAll, Framing.InSequence, Framing.Journal;
    TemporaryIgnored(disk, bytes, maxPayload, image, history);
    SnapshotTells(disk, kept, maxPayload, image, history);
    RotationTells(SealedDisk(disk, |history|, image(history)), kept, maxPayload, image, history);
    AllTold(history);
    var sealed := SealedDisk(disk, |history|, image(history));
    FloorOf(sealed, sealed.(journal := None), maxPayload, image, history, history);
  }
}

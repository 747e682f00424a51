/** The store: what it leaves on disk at every byte and step, and what opening it again makes of that. */
module Storage {
  import opened Timeline
  import opened Crc32c
  import opened Framing
  import opened Snapshots

  /** What survives a crash. A missing journal is told from an empty one; the temporary snapshot is never read. */
  datatype Disk = Disk(snapshot: Option<seq<Byte>>, temporary: seq<Byte>, journal: Option<seq<Byte>>)

  /** One durable record of the history; its sequence number is its place, counted from one. */
  datatype Fact = Fact(kind: nat, payload: seq<Byte>)

  function Numbered(history: seq<Fact>): (rs: seq<JournalRecord>)
    ensures |rs| == |history|
  {
    seq(|history|, i requires 0 <= i < |history| => JournalRecord(history[i].kind, i + 1, history[i].payload))
  }

  function JournalBytes(disk: Disk): seq<Byte> {
    if disk.journal.None? then [] else disk.journal.value
  }

  /** The records a snapshot does not account for. */
  function Above(rs: seq<JournalRecord>, floor: nat): seq<JournalRecord>
    decreases |rs|
  {
    if rs == [] then []
    else
      var init, last := rs[..|rs| - 1], rs[|rs| - 1];
      if last.sequence <= floor then Above(init, floor) else Above(init, floor) + [last]
  }

  function LastOf(rs: seq<JournalRecord>, floor: nat): nat {
    if rs == [] then floor else rs[|rs| - 1].sequence
  }

  datatype Recovery =
    | Recovered(image: Option<seq<Byte>>, floor: nat, records: seq<JournalRecord>, last: nat, torn: nat)
    | Failed(error: ReadError)

  /** What the bytes of a disk say: the snapshot first, then the journal above it. */
  function Decipher(disk: Disk, maxPayload: nat): Recovery {
    var loading := if disk.snapshot.None? then Loaded(0, []) else ReadSnapshot(disk.snapshot.value);
    match loading
    case NotLoaded(error) => Failed(error)
    case Loaded(floor, image) =>
      match Scan(JournalBytes(disk), maxPayload, None)
      case Refused(error) => Failed(error)
      case Read(records, torn) =>
        var effective := Above(records, floor);
        Recovered(if disk.snapshot.None? then None else Some(image), floor, effective, LastOf(effective, floor), torn)
  }

  /** What opening a disk finds: files beyond the size that is read at all are refused. */
  function Recover(disk: Disk, maxPayload: nat): Recovery {
    var loading := if disk.snapshot.None? then Loaded(0, []) else ReadSnapshotFile(disk.snapshot.value);
    match loading
    case NotLoaded(error) => Failed(error)
    case Loaded(floor, image) =>
      match ReadJournalFile(JournalBytes(disk), maxPayload)
      case Refused(error) => Failed(error)
      case Read(records, torn) =>
        var effective := Above(records, floor);
        Recovered(if disk.snapshot.None? then None else Some(image), floor, effective, LastOf(effective, floor), torn)
  }

  /** Both files are small enough to be read. */
  predicate Readable(disk: Disk) {
    && (disk.snapshot.Some? ==> |disk.snapshot.value| <= SNAPSHOT_FILE_LIMIT)
    && |JournalBytes(disk)| <= JOURNAL_FILE_LIMIT
  }

  /** A disk that tells a history can be opened exactly when both files are small enough. */
  lemma ReopensWhenReadable(disk: Disk, maxPayload: nat, image: seq<Fact> -> seq<Byte>, history: seq<Fact>)
    requires Tells(disk, maxPayload, image, history)
    ensures Recover(disk, maxPayload) == if Readable(disk) then Decipher(disk, maxPayload) else Failed(Exhausted)
  {
    hide Scan, ReadSnapshot, Above, Numbered;
  }

  lemma ToldReopens(disk: Disk, maxPayload: nat, image: seq<Fact> -> seq<Byte>, history: seq<Fact>)
    requires Tells(disk, maxPayload, image, history)
    ensures Recover(disk, maxPayload).Recovered? <==> Readable(disk)
  {
    hide Recover, Readable, Scan, ReadSnapshot, Above, Numbered;
    ReopensWhenReadable(disk, maxPayload, image, history);
  }

  /** A longer journal beside a readable snapshot can be opened exactly up to the limit on its file. */
  lemma LongerReopens(disk: Disk, bytes: seq<Byte>, maxPayload: nat, image: seq<Fact> -> seq<Byte>, history: seq<Fact>)
    requires Readable(disk) && Tells(WithJournal(disk, bytes), maxPayload, image, history)
    ensures Recover(WithJournal(disk, bytes), maxPayload).Recovered? <==> |bytes| <= JOURNAL_FILE_LIMIT
  {
    hide Recover, Tells;
    ToldReopens(WithJournal(disk, bytes), maxPayload, image, history);
  }

  /** A snapshot beside a readable journal can be opened exactly up to the limit on its file. */
  lemma SealedReopens(disk: Disk, payload: seq<Byte>, maxPayload: nat, image: seq<Fact> -> seq<Byte>,
                      history: seq<Fact>)
    requires |history| < U64_LIMIT && |payload| < U64_LIMIT
    requires Readable(disk) && Tells(SealedDisk(disk, |history|, payload), maxPayload, image, history)
    ensures Recover(SealedDisk(disk, |history|, payload), maxPayload).Recovered?
            <==> |payload| + SNAPSHOT_HEADER + SNAPSHOT_FOOTER <= SNAPSHOT_FILE_LIMIT
  {
    hide Recover, Tells, SnapshotFile, ReadSnapshotFile;
    SnapshotReopens(|history|, payload);
    ToldReopens(SealedDisk(disk, |history|, payload), maxPayload, image, history);
  }

  lemma SealedReadable(before: Disk, sealed: Disk, payload: seq<Byte>, maxPayload: nat, image: seq<Fact> -> seq<Byte>,
                       history: seq<Fact>)
    requires |history| < U64_LIMIT && |payload| < U64_LIMIT && Readable(before)
    requires sealed == SealedDisk(before.(temporary := sealed.temporary), |history|, payload)
    requires Tells(sealed, maxPayload, image, history)
    ensures Recover(sealed, maxPayload).Recovered? <==>
      |payload| + SNAPSHOT_HEADER + SNAPSHOT_FOOTER <= SNAPSHOT_FILE_LIMIT
  {
    hide Recover, Tells, SnapshotFile;
    SealedReopens(before.(temporary := sealed.temporary), payload, maxPayload, image, history);
  }

  /** Opening finds what the bytes say, or refuses. */
  lemma RecoversAsDeciphered(disk: Disk, maxPayload: nat)
    ensures Recover(disk, maxPayload).Recovered? ==> Recover(disk, maxPayload) == Decipher(disk, maxPayload)
  {
    hide Scan, ReadSnapshot, Above;
  }

  /**
   The disk tells the whole history: an image of its beginning, and every
   record after that, under the sequence numbers they were given.
   */
  ghost predicate Tells(disk: Disk, maxPayload: nat, image: seq<Fact> -> seq<Byte>, history: seq<Fact>) {
    var r := Decipher(disk, maxPayload);
    && r.Recovered? && r.floor <= |history|
    && (if r.image.None? then r.floor == 0 else r.image.value == image(history[..r.floor]))
    && r.records == Numbered(history)[r.floor..] && r.last == |history|
  }

  // ---------------------------------------------------------------------------
  // Records and their numbers
  // ---------------------------------------------------------------------------

  lemma {:induction false} AboveKeeps(rs: seq<JournalRecord>, floor: nat, limit: nat)
    requires floor <= limit && forall i :: 0 <= i < |rs| ==> rs[i].sequence <= limit
    ensures forall i :: 0 <= i < |Above(rs, floor)| ==> floor < Above(rs, floor)[i].sequence <= limit
    ensures floor == limit ==> Above(rs, floor) == []
    decreases |rs|
  {
    if rs != [] { AboveKeeps(rs[..|rs| - 1], floor, limit); }
  }

  /** In a rising sequence the last record above the floor bounds them all. */
  lemma {:induction false} AboveBounds(rs: seq<JournalRecord>, floor: nat, last: Option<nat>)
    requires InSequence(rs, last)
    ensures forall i :: 0 <= i < |rs| ==> rs[i].sequence <= LastOf(Above(rs, floor), floor) || rs[i].sequence <= floor
    decreases |rs|
  {
    if rs != [] {
      var n := |rs| - 1;
      RisingPart(rs, n, last);
      AboveBounds(rs[..n], floor, last);
      forall i | 0 <= i < n ensures rs[i].sequence < rs[n].sequence {
        RisingOrder(rs, i, n, last);
      }
      assert forall i :: 0 <= i < n ==> rs[..n][i] == rs[i];
    }
  }

  lemma {:induction false} RisingOrder(rs: seq<JournalRecord>, i: nat, j: nat, last: Option<nat>)
    requires InSequence(rs, last) && i < j < |rs|
    ensures rs[i].sequence < rs[j].sequence
    decreases |rs|
  {
    RisingAbove(rs[1..], Some(rs[0].sequence));
    if i == 0 {
      assert rs[1..][j - 1] == rs[j];
    } else {
      RisingOrder(rs[1..], i - 1, j - 1, Some(rs[0].sequence));
    }
  }

  lemma {:induction false} RisingAbove(rs: seq<JournalRecord>, last: Option<nat>)
    requires InSequence(rs, last) && last.Some?
    ensures forall i :: 0 <= i < |rs| ==> last.value < rs[i].sequence
    decreases |rs|
  {
    if rs != [] {
      RisingAbove(rs[1..], Some(rs[0].sequence));
      forall i | 0 <= i < |rs| ensures last.value < rs[i].sequence {
        if i > 0 { assert rs[1..][i - 1] == rs[i]; }
      }
    }
  }

  lemma {:induction false} RisingMore(rs: seq<JournalRecord>, r: JournalRecord, last: Option<nat>)
    requires InSequence(rs, last) && (last.Some? ==> last.value < r.sequence) && forall i :: 0 <= i < |rs| ==>
      rs[i].sequence < r.sequence
    ensures InSequence(rs + [r], last)
    decreases |rs|
  {
    if rs == [] {
      assert (rs + [r])[1..] == [];
    } else {
      assert (rs + [r])[1..] == rs[1..] + [r];
      assert forall i :: 0 <= i < |rs[1..]| ==> rs[1..][i] == rs[i + 1];
      RisingMore(rs[1..], r, Some(rs[0].sequence));
    }
  }

  lemma {:induction false} JournalMore(rs: seq<JournalRecord>, r: JournalRecord)
    ensures Journal(rs + [r]) == Journal(rs) + Frame(r)
    decreases |rs|
  {
    hide Frame;
    if rs == [] {
      assert (rs + [r])[1..] == [];
    } else {
      assert (rs + [r])[1..] == rs[1..] + [r];
      JournalMore(rs[1..], r);
    }
  }

  lemma NumberedNext(history: seq<Fact>, f: Fact, floor: nat)
    requires floor <= |history|
    ensures Numbered(history + [f])[floor..] == Numbered(history)[floor..]
            + [JournalRecord(f.kind, |history| + 1, f.payload)]
    ensures (history + [f])[..floor] == history[..floor]
  {
  }

  // ---------------------------------------------------------------------------
  // Appending at every byte
  // ---------------------------------------------------------------------------

  /** The journal on disk is the frames of `kept`, and with the snapshot they tell the history. */
  ghost predicate Intact(disk: Disk, kept: seq<JournalRecord>, maxPayload: nat, image: seq<Fact> -> seq<Byte>,
                         history: seq<Fact>)
  {
    && Tells(disk, maxPayload, image, history)
    && JournalBytes(disk) == Journal(kept) && SoundAll(kept, maxPayload) && InSequence(kept, None)
    && forall i :: 0 <= i < |kept| ==> kept[i].sequence <= |history|
  }

  function WithJournal(disk: Disk, bytes: seq<Byte>): Disk { disk.(journal := Some(bytes)) }

  /**
   The journal, cut anywhere within one more frame, reads as before; with the whole frame it reads one record more.
   */
  lemma AppendScans(kept: seq<JournalRecord>, r: JournalRecord, n: nat, maxPayload: nat)
    requires SoundAll(kept, maxPayload) && Sound(r, maxPayload) && InSequence(kept, None) && n <= |Frame(r)|
    requires forall i :: 0 <= i < |kept| ==> kept[i].sequence < r.sequence
    ensures Scan(Journal(kept) + Frame(r)[..n], maxPayload, None) ==
            if n < |Frame(r)| then Read(kept, n) else Read(kept + [r], 0)
    ensures SoundAll(kept + [r], maxPayload) && InSequence(kept + [r], None)
  {
    hide Scan, Sound, Frame;
    var more := kept + [r];
    RisingMore(kept, r, None);
    JournalMore(kept, r);
    hide InSequence;
    assert Journal(more)[..|Journal(kept)| + n] == Journal(kept) + Frame(r)[..n];
    PrefixReads(more, |Journal(kept)| + n, maxPayload, None);
    if n < |Frame(r)| {
      CompletePart(kept, r, n);
      assert more[..|kept|] == kept;
    } else {
      CompleteAll(more);
      assert more[..|more|] == more;
    }
  }

  lemma {:induction false} CompletePart(kept: seq<JournalRecord>, r: JournalRecord, n: nat)
    requires n < |Frame(r)|
    ensures Complete(kept + [r], |Journal(kept)| + n) == |kept|
    decreases |kept|
  {
    hide Frame;
    if kept != [] {
      assert (kept + [r])[1..] == kept[1..] + [r];
      CompletePart(kept[1..], r, n);
    }
  }

  /** A crash while a frame is being appended leaves the old history, or, with the last byte, the new one. */
  lemma AppendTells(disk: Disk, kept: seq<JournalRecord>, f: Fact, n: nat, maxPayload: nat,
                    image: seq<Fact> -> seq<Byte>, history: seq<Fact>)
    requires Intact(disk, kept, maxPayload, image, history)
    requires var r := JournalRecord(f.kind, |history| + 1, f.payload); Sound(r, maxPayload) && n <= |Frame(r)|
    ensures var r := JournalRecord(f.kind, |history| + 1, f.payload);
    var torn := WithJournal(disk, Journal(kept) + Frame(r)[..n]);
            if n < |Frame(r)| then Tells(torn, maxPayload, image, history)
               else Intact(torn, kept + [r], maxPayload, image, history + [f])
  {
    hide Scan, Sound, Frame, InSequence, Journal, ReadSnapshot;
    var r := JournalRecord(f.kind, |history| + 1, f.payload);
    AppendScans(kept, r, n, maxPayload);
    var floor := Decipher(disk, maxPayload).floor;
    WholeReads(kept, maxPayload, None);
    if n == |Frame(r)| {
      assert Frame(r)[..n] == Frame(r);
      JournalMore(kept, r);
      assert (kept + [r])[..|kept|] == kept;
      NumberedNext(history, f, floor);
      hide Numbered;
    }
  }

  /** The disk after a crash `n` bytes into a frame. */
  function TornAt(disk: Disk, kept: seq<JournalRecord>, frame: seq<Byte>, n: nat): Disk
    requires n <= |frame|
  {
    WithJournal(disk, Journal(kept) + frame[..n])
  }

  // ---------------------------------------------------------------------------
  // Snapshot, then rotation
  // ---------------------------------------------------------------------------

  function SealedDisk(disk: Disk, sequence: nat, payload: seq<Byte>): Disk {
    disk.(snapshot := Some(SnapshotFile(sequence, payload)))
  }

  /** Once the sealed image of the whole history is in place, the journal below it no longer matters. */
  lemma SnapshotTells(disk: Disk, kept: seq<JournalRecord>, maxPayload: nat, image: seq<Fact> -> seq<Byte>,
                      history: seq<Fact>)
    requires JournalBytes(disk) == Journal(kept) && SoundAll(kept, maxPayload) && InSequence(kept, None)
    requires forall i :: 0 <= i < |kept| ==> kept[i].sequence <= |history|
    requires |history| < U64_LIMIT && |image(history)| < U64_LIMIT
    ensures var sealed := SealedDisk(disk, |history|, image(history));
            Intact(sealed, kept, maxPayload, image, history) && Decipher(sealed, maxPayload).floor == |history|
  {
    hide Scan, ReadSnapshot, SnapshotFile, InSequence, Sound, Numbered, Above, Journal, SoundAll;
    SnapshotReadsBack(|history|, image(history));
    WholeReads(kept, maxPayload, None);
    AboveKeeps(kept, |history|, |history|);
    AllTold(history);
  }

  lemma AllTold(history: seq<Fact>)
    ensures history[..|history|] == history && Numbered(history)[|history|..] == []
  {
  }

  lemma NoneReads(maxPayload: nat)
    ensures Scan([], maxPayload, None) == Read([], 0) && Journal([]) == [] && InSequence([], None)
            && SoundAll([], maxPayload)
  {
  }

  /** A temporary file, however much of it was written, tells nothing. */
  lemma TemporaryIgnored(disk: Disk, bytes: seq<Byte>, maxPayload: nat, image: seq<Fact> -> seq<Byte>,
                         history: seq<Fact>)
    ensures Tells(disk.(temporary := bytes), maxPayload, image, history) == Tells(disk, maxPayload, image, history)
  {
    hide Scan, ReadSnapshot, Above, Numbered;
  }

  /** Cutting the torn tail away changes nothing that is told. */
  lemma TruncationTells(disk: Disk, maxPayload: nat, image: seq<Fact> -> seq<Byte>, history: seq<Fact>)
    returns (kept: seq<JournalRecord>)
    requires Tells(disk, maxPayload, image, history)
    ensures var r := Decipher(disk, maxPayload); var bytes := JournalBytes(disk);
            && r.torn <= |bytes|
            && Intact(WithJournal(disk, bytes[..|bytes| - r.torn]), kept, maxPayload, image, history)
            && (r.torn == 0 ==> Intact(disk, kept, maxPayload, image, history))
            && Scan(bytes, maxPayload, None) == Read(kept, r.torn)
  {
    hide Scan, ReadSnapshot, Sound, Numbered, InSequence, Above, SoundAll, Journal;
    var bytes := JournalBytes(disk);
    kept := Scan(bytes, maxPayload, None).records;
    ReadsOnlyFrames(bytes, maxPayload, None);
    WholeReads(kept, maxPayload, None);
    AboveBounds(kept, Decipher(disk, maxPayload).floor, None);
    if Decipher(disk, maxPayload).torn == 0 { assert bytes[..|bytes|] == bytes; }
  }

  // ---------------------------------------------------------------------------
  // The store
  // ---------------------------------------------------------------------------

  class Store {
    const maxPayload: nat
    const maxSnapshot: nat
    ghost const image: seq<Fact> -> seq<Byte>
    var disk: Disk
    var lastSequence: nat
    var snapshotSequence: nat
    var snapshotPayload: seq<Byte>
    var records: seq<JournalRecord>
    ghost var kept: seq<JournalRecord>
    ghost var history: seq<Fact>
    /** Every disk a crash during the last operation could have left. */
    ghost var crashes: iset<Disk>

    ghost predicate Valid()
      reads this
    {
      && HEADER + maxPayload < 0x1_0000_0000 && maxSnapshot < U64_LIMIT
      && Intact(disk, kept, maxPayload, image, history)
      && lastSequence == |history| && snapshotSequence == Decipher(disk, maxPayload).floor
    }

    constructor (disk: Disk, maxPayload: nat, maxSnapshot: nat, floor: nat, payload: seq<Byte>,
                 records: seq<JournalRecord>, last: nat, ghost image: seq<Fact> -> seq<Byte>,
                 ghost kept: seq<JournalRecord>, ghost history: seq<Fact>, ghost crashes: iset<Disk>)
      ensures this.disk == disk && this.maxPayload == maxPayload && this.maxSnapshot == maxSnapshot
              && this.image == image
      ensures lastSequence == last && snapshotSequence == floor && snapshotPayload == payload && this.records == records
      ensures this.kept == kept && this.history == history && this.crashes == crashes
    {
      this.disk, this.maxPayload, this.maxSnapshot, this.image := disk, maxPayload, maxSnapshot, image;
      this.lastSequence, this.snapshotSequence, this.snapshotPayload, this.records := last, floor, payload, records;
      this.kept, this.history, this.crashes := kept, history, crashes;
    }

    /** Appends one record; a crash at any byte leaves the old history or the new one. */
    method Append(kind: nat, payload: seq<Byte>) returns (sequence: Option<nat>)
      requires Valid() && 1 <= kind <= KINDS && |history| + 1 < U64_LIMIT
      modifies this
      ensures Valid()
      ensures sequence == if |payload| > maxPayload then None else Some(|old(history)| + 1)
      ensures history == if sequence.None? then old(history) else old(history) + [Fact(kind, payload)]
      ensures records == if sequence.None? then old(records)
              else old(records) + [JournalRecord(kind, |history|, payload)]
      ensures sequence.Some? && Readable(old(disk)) ==>
        (Recover(disk, maxPayload).Recovered? <==> |JournalBytes(old(disk))| + HEADER + |payload| <= JOURNAL_FILE_LIMIT)
      ensures old(disk) in crashes && disk in crashes
      ensures forall d :: d in crashes ==>
        Tells(d, maxPayload, image, old(history)) || (sequence.Some? && Tells(d, maxPayload, image, history))
    {
      hide Tells, Frame, Journal, Decipher, Recover, Readable, SoundAll, InSequence;
      crashes := iset{disk};
      if |payload| > maxPayload { return None; }
      ghost var before, f := disk, Fact(kind, payload);
      var next := lastSequence + 1;
      var record := JournalRecord(kind, next, payload);
      var frame := Frame(record);
      ghost var rs := kept;
      forall n: nat | n <= |frame|
        ensures if n < |frame| then Tells(TornAt(before, rs, frame, n), maxPayload, image, history)
                else Intact(TornAt(before, rs, frame, n), rs + [record], maxPayload, image, history + [f])
      {
        AppendTells(before, rs, f, n, maxPayload, image, history);
      }
      disk := WithJournal(disk, JournalBytes(disk) + frame);
      assert frame[..|frame|] == frame && disk == TornAt(before, rs, frame, |frame|);
      FloorOf(before, disk, maxPayload, image, history, history + [f]);
      if Readable(before) { LongerReopens(before, Journal(rs) + frame, maxPayload, image, history + [f]); }
      crashes := iset n: nat | n <= |frame| :: TornAt(before, rs, frame, n);
      assert TornAt(before, rs, frame, |frame|) in crashes;
      lastSequence := next;
      records := records + [record];
      history := history + [f];
      kept := kept + [record];
      crashes := crashes + iset{before};
      return Some(next);
    }

    /**
     The image goes to a temporary file that then takes the snapshot's place at once; no crash changes what is told.
     */
    method WriteSnapshot(payload: seq<Byte>) returns (sequence: Option<nat>)
      requires Valid() && payload == image(history) && |history| < U64_LIMIT
      modifies this
      ensures Valid() && history == old(history) && records == old(records)
      ensures sequence == if |payload| > maxSnapshot then None else Some(|history|)
      ensures sequence.Some? ==> snapshotSequence == |history|
      ensures sequence.Some? && Readable(old(disk)) ==>
        (Recover(disk, maxPayload).Recovered? <==> |payload| + SNAPSHOT_HEADER + SNAPSHOT_FOOTER <= SNAPSHOT_FILE_LIMIT)
      ensures forall d :: d in crashes ==> Tells(d, maxPayload, image, history)
    {
      hide Tells, Decipher, Recover, Readable, Journal, SoundAll, InSequence, SnapshotFile;
      crashes := iset{disk};
      if |payload| > maxSnapshot { return None; }
      ghost var before := disk;
      var file := SnapshotFile(lastSequence, payload);
      forall n: nat | n <= |file| ensures Tells(before.(temporary := file[..n]), maxPayload, image, history) {
        TemporaryIgnored(before, file[..n], maxPayload, image, history);
      }
      disk := disk.(temporary := file);
      crashes := crashes + iset n: nat | n <= |file| :: before.(temporary := file[..n]);
      disk := disk.(snapshot := Some(disk.temporary), temporary := []);
      SnapshotTells(disk, kept, maxPayload, image, history);
      assert disk == SealedDisk(disk, |history|, image(history));
      if Readable(before) { SealedReadable(before, disk, payload, maxPayload, image, history); }
      crashes := crashes + iset{disk};
      snapshotSequence, snapshotPayload := lastSequence, payload;
      return Some(snapshotSequence);
    }

    /**
     Removes the journal and begins a new one. What is told then ends with the snapshot, so nothing is lost
     exactly when that covers the whole history.
     */
    method RotateJournal()
      requires Valid()
      modifies this
      ensures history == old(history) && records == [] && snapshotSequence == old(snapshotSequence) <= |history|
      ensures Valid() <==> snapshotSequence == |history|
      ensures Tells(disk, maxPayload, image, history[..snapshotSequence])
      ensures old(disk) in crashes && disk in crashes
      ensures forall d :: d in crashes ==> d == old(disk) || Tells(d, maxPayload, image, history[..snapshotSequence])
    {
      hide Tells, Decipher, Journal, SoundAll, InSequence, Scan;
      ghost var before := disk;
      ToldRecovers(before, maxPayload, image, history);
      RotationTells(before, kept, maxPayload, image, history);
      disk := disk.(journal := None);
      crashes := iset{before, disk};
      disk := disk.(journal := Some([]));
      crashes := crashes + iset{disk};
      records, kept := [], [];
      AllTold(history);
      if Tells(disk, maxPayload, image, history) { ToldRecovers(disk, maxPayload, image, history); }
      ToldRecovers(disk, maxPayload, image, history[..snapshotSequence]);
    }
  }

  lemma RotationTells(disk: Disk, kept: seq<JournalRecord>, maxPayload: nat, image: seq<Fact> -> seq<Byte>,
                      history: seq<Fact>)
    requires Intact(disk, kept, maxPayload, image, history)
    ensures var floor := Decipher(disk, maxPayload).floor;
            && floor <= |history|
            && Intact(disk.(journal := None), [], maxPayload, image, history[..floor])
            && Intact(disk.(journal := Some([])), [], maxPayload, image, history[..floor])
            && Decipher(disk.(journal := Some([])), maxPayload).floor == floor
  {
    hide Scan, ReadSnapshot, Numbered, SoundAll, Journal, InSequence, Above;
    IntactTells(disk, kept, maxPayload, image, history);
    EmptyTells(disk, disk.(journal := None), maxPayload, image, history);
    EmptyTells(disk, disk.(journal := Some([])), maxPayload, image, history);
  }

  lemma EmptyTells(disk: Disk, empty: Disk, maxPayload: nat, image: seq<Fact> -> seq<Byte>, history: seq<Fact>)
    requires Tells(disk, maxPayload, image, history)
    requires empty.snapshot == disk.snapshot && JournalBytes(empty) == []
    ensures var floor := Decipher(disk, maxPayload).floor;
            && floor <= |history| && Intact(empty, [], maxPayload, image, history[..floor])
            && Decipher(empty, maxPayload).floor == floor
  {
    hide Scan, ReadSnapshot, Numbered, SoundAll, Journal, InSequence;
    var floor := Decipher(disk, maxPayload).floor;
    NoneReads(maxPayload);
    AllTold(history[..floor]);
  }

  // ---------------------------------------------------------------------------
  // Opening
  // ---------------------------------------------------------------------------

  /** Keeps the records above the floor, in order, and finds the last sequence number. */
  method DropCovered(rs: seq<JournalRecord>, floor: nat) returns (effective: seq<JournalRecord>, last: nat)
    ensures effective == Above(rs, floor) && last == LastOf(effective, floor)
  {
    effective, last := [], floor;
    var i := 0;
    while i < |rs|
      invariant i <= |rs| && effective == Above(rs[..i], floor) && last == LastOf(effective, floor)
    {
      assert rs[..i + 1][..i] == rs[..i];
      if rs[i].sequence > floor {
        effective := effective + [rs[i]];
        last := rs[i].sequence;
      }
      i := i + 1;
    }
    assert rs[..i] == rs;
  }

  /**
   Opens whatever a crash left: the snapshot, then the journal, whose torn tail
   is cut away. A readable disk that tells a history is opened, and the store
   continues that history with the next unused sequence number.
   */
  method Open(disk: Disk, maxPayload: nat, maxSnapshot: nat, ghost image: seq<Fact> -> seq<Byte>,
              ghost history: seq<Fact>)
    returns (store: Option<Store>)
    requires HEADER + maxPayload < 0x1_0000_0000 && maxSnapshot < U64_LIMIT
    ensures store.None? <==> Recover(disk, maxPayload).Failed?
    ensures store.Some? ==> fresh(store.value) && store.value.maxPayload == maxPayload && store.value.image == image
    ensures var r := Recover(disk, maxPayload);
            store.Some? ==>
              && store.value.records == r.records
              && store.value.lastSequence == r.last
              && store.value.snapshotSequence == r.floor
              && store.value.snapshotPayload == (if r.image.None? then [] else r.image.value)
    ensures Tells(disk, maxPayload, image, history) ==> (store.Some? <==> Readable(disk))
    ensures Tells(disk, maxPayload, image, history) && store.Some? ==>
      && store.value.Valid() && store.value.history == history && store.value.lastSequence == |history|
      && Readable(store.value.disk)
      && forall d :: d in store.value.crashes ==> Tells(d, maxPayload, image, history) && Readable(d)
  {
    hide Tells, Above, Scan, ReadSnapshot, Intact;
    if Tells(disk, maxPayload, image, history) {
      ToldRecovers(disk, maxPayload, image, history);
      ReopensWhenReadable(disk, maxPayload, image, history);
    }
    RecoversAsDeciphered(disk, maxPayload);
    var floor, payload := 0, [];
    if disk.snapshot.Some? {
      var loading := ReadSnapshotFile(disk.snapshot.value);
      if loading.NotLoaded? { return None; }
      floor, payload := loading.sequence, loading.payload;
    }
    var scanned, good := ReadJournal(JournalBytes(disk), maxPayload);
    if scanned.Refused? { return None; }
    var repaired := disk;
    if scanned.torn > 0 {
      repaired := WithJournal(disk, JournalBytes(disk)[..good]);
    }
    var effective, last := DropCovered(scanned.records, floor);
    ghost var kept := scanned.records;
    if Tells(disk, maxPayload, image, history) {
      kept := TruncationTells(disk, maxPayload, image, history);
      IntactTells(repaired, kept, maxPayload, image, history);
      FloorOf(disk, repaired, maxPayload, image, history, history);
    }
    var opening := new Store(repaired, maxPayload, maxSnapshot, floor, payload, effective, last, image, kept, history,
                             iset{disk, repaired});
    return Some(opening);
  }

  // ---------------------------------------------------------------------------
  // What is written but can never be opened again
  // ---------------------------------------------------------------------------

  /** The largest snapshot payload the store accepts unless told otherwise. */
  const DEFAULT_SNAPSHOT_PAYLOAD := 0x1000_0000

  /** A payload the store accepts by default, sealed into a file that it refuses to read. */
  lemma SealedButUnreadable(payload: seq<Byte>, journal: Option<seq<Byte>>, sequence: nat, maxPayload: nat)
    requires DEFAULT_SNAPSHOT_PAYLOAD - 39 <= |payload| <= DEFAULT_SNAPSHOT_PAYLOAD && sequence < U64_LIMIT
    ensures Recover(Disk(Some(SnapshotFile(sequence, payload)), [], journal), maxPayload) == Failed(Exhausted)
  {
    hide SnapshotFile, ReadSnapshot, Scan;
    SnapshotReopens(sequence, payload);
  }

  lemma SomePayloadIsUnreadable()
    ensures exists payload: seq<Byte> :: |payload| <= DEFAULT_SNAPSHOT_PAYLOAD
              && forall sequence: nat, journal: Option<seq<Byte>>, maxPayload: nat :: sequence < U64_LIMIT ==>
                   Recover(Disk(Some(SnapshotFile(sequence, payload)), [], journal), maxPayload) == Failed(Exhausted)
  {
    hide Recover, SnapshotFile;
    var payload: seq<Byte> := seq(DEFAULT_SNAPSHOT_PAYLOAD, i => 0);
    forall sequence: nat, journal, maxPayload: nat | sequence < U64_LIMIT
      ensures Recover(Disk(Some(SnapshotFile(sequence, payload)), [], journal), maxPayload) == Failed(Exhausted)
    {
      SealedButUnreadable(payload, journal, sequence, maxPayload);
    }
  }

  /** A history of records without payload, and the disk whose journal holds just those. */
  function Plain(n: nat): seq<Fact> { seq(n, i => Fact(1, [])) }

  function PlainDisk(n: nat): Disk { Disk(None, [], Some(Journal(Numbered(Plain(n))))) }

  lemma {:induction false} PlainTells(n: nat, maxPayload: nat, image: seq<Fact> -> seq<Byte>)
    requires n < U64_LIMIT
    ensures Intact(PlainDisk(n), Numbered(Plain(n)), maxPayload, image, Plain(n))
    ensures |JournalBytes(PlainDisk(n))| == HEADER * n
  {
    hide Scan, Sound, SoundAll, Frame, Journal, InSequence, Tells, Plain, Numbered, Intact;
    if n == 0 {
      NothingTells(PlainDisk(0), maxPayload, image);
    } else {
      PlainTells(n - 1, maxPayload, image);
      SoundPlain(n, maxPayload);
      PlainNext(n);
      var r := JournalRecord(1, n, []);
      AppendTells(PlainDisk(n - 1), Numbered(Plain(n - 1)), Fact(1, []), |Frame(r)|, maxPayload, image, Plain(n - 1));
      assert Frame(r)[..|Frame(r)|] == Frame(r);
    }
  }

  lemma PlainNext(n: nat)
    requires n > 0
    ensures var r := JournalRecord(1, n, []);
            && Plain(n) == Plain(n - 1) + [Fact(1, [])] && |Plain(n - 1)| == n - 1
            && Numbered(Plain(n)) == Numbered(Plain(n - 1)) + [r]
            && Journal(Numbered(Plain(n))) == Journal(Numbered(Plain(n - 1))) + Frame(r)
  {
    hide Frame, Journal;
    assert Plain(n) == Plain(n - 1) + [Fact(1, [])];
    assert Numbered(Plain(n)) == Numbered(Plain(n - 1)) + [JournalRecord(1, n, [])];
    JournalMore(Numbered(Plain(n - 1)), JournalRecord(1, n, []));
  }

  lemma SoundPlain(n: nat, maxPayload: nat)
    requires n < U64_LIMIT
    ensures Sound(JournalRecord(1, n, []), maxPayload)
  {
  }

  lemma NothingTells(disk: Disk, maxPayload: nat, image: seq<Fact> -> seq<Byte>)
    requires disk == PlainDisk(0)
    ensures Intact(disk, Numbered(Plain(0)), maxPayload, image, Plain(0)) && JournalBytes(disk) == []
  {
    hide Scan, InSequence, SoundAll;
    NoneReads(maxPayload);
    assert Numbered(Plain(0)) == [];
  }

  /** Some journal is opened, takes one more record, and can then never be opened again. */
  lemma SomeJournalOutgrows(maxPayload: nat, image: seq<Fact> -> seq<Byte>)
    ensures exists n: nat ::
              && Recover(PlainDisk(n), maxPayload).Recovered?
              && Tells(PlainDisk(n + 1), maxPayload, image, Plain(n + 1))
              && Recover(PlainDisk(n + 1), maxPayload).Failed?
  {
    hide Tells, Recover, Numbered, Journal;
    var n := JOURNAL_FILE_LIMIT / HEADER;
    PlainTells(n, maxPayload, image);
    PlainTells(n + 1, maxPayload, image);
    ToldReopens(PlainDisk(n), maxPayload, image, Plain(n));
    ToldReopens(PlainDisk(n + 1), maxPayload, image, Plain(n + 1));
    assert Recover(PlainDisk(n), maxPayload).Recovered?;
  }

  lemma ToldRecovers(disk: Disk, maxPayload: nat, image: seq<Fact> -> seq<Byte>, history: seq<Fact>)
    requires Tells(disk, maxPayload, image, history)
    ensures Decipher(disk, maxPayload).Recovered? && Decipher(disk, maxPayload).last == |history|
            && Decipher(disk, maxPayload).floor <= |history|
  {
    hide Scan, ReadSnapshot, Above;
  }

  lemma IntactTells(disk: Disk, kept: seq<JournalRecord>, maxPayload: nat, image: seq<Fact> -> seq<Byte>,
                    history: seq<Fact>)
    requires Intact(disk, kept, maxPayload, image, history)
    ensures Tells(disk, maxPayload, image, history)
  {
  }

  /** What a disk tells begins where its snapshot ends. */
  lemma FloorOf(disk: Disk, repaired: Disk, maxPayload: nat, image: seq<Fact> -> seq<Byte>, history: seq<Fact>,
                history': seq<Fact>)
    requires Tells(disk, maxPayload, image, history) && Tells(repaired, maxPayload, image, history')
    requires repaired.snapshot == disk.snapshot
    ensures Decipher(repaired, maxPayload).floor == Decipher(disk, maxPayload).floor
  {
    hide Scan, ReadSnapshot, Above, Numbered;
  }
}

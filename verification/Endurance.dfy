/**
 A coordinator on its disk, for as long as it is used: steps are written, the journal is compacted, and
 the machine may stop at any byte of either and be started again. Whatever happens, the disk restarts
 into an echo of the state that was running.
 */
module Endurance {
  import opened Timeline
  import opened Records
  import opened FabricState
  import opened Steps
  import opened Lineage
  import opened Replay
  import opened Histories
  import opened Images
  import opened ImagePayloads
  import opened Crc32c
  import Framing
  import opened Codecs
  import opened Schemas
  import opened Payloads
  import opened Storage
  import opened Restarts

  /** What is in memory, what is on disk, and every fact that was written since the beginning. */
  datatype Machine = Machine(state: State, disk: Disk, history: seq<Fact>)

  /** Where a compaction may stop: in the temporary file, after the renaming, without a journal, with a new one. */
  datatype Stage = Writing(bytes: seq<Byte>) | Renamed | Removed | Begun

  datatype Happening =
    | Acts(step: Step, fact: Fact)
    | StopsWriting(step: Step, fact: Fact, n: nat)
    | Compacts
    | StopsCompacting(stage: Stage)
    | Stops

  // ---------------------------------------------------------------------------
  // What may happen, and what comes of it
  // ---------------------------------------------------------------------------

  function FrameOf(m: Machine, fact: Fact): seq<Byte> {
    Framing.Frame(Framing.JournalRecord(fact.kind, |m.history| + 1, fact.payload))
  }

  /** The fact means the record and fits into a frame. */
  ghost predicate Writes(p: Printing, maxPayload: nat, m: Machine, d: DurableRecord, fact: Fact) {
    && Meant(p, fact.kind, fact.payload) == Some(Effect(d))
    && Framing.Sound(Framing.JournalRecord(fact.kind, |m.history| + 1, fact.payload), maxPayload)
  }

  /** A step is taken whose attempt, if it has one, is remembered without forgetting another. */
  ghost predicate CanAct(p: Printing, maxPayload: nat, m: Machine, step: Step, fact: Fact) {
    && Enabled(m.state, step)
    && (Appends(step).Some? ==>
          FindsRoom(m.state, Appends(step).value) && Writes(p, maxPayload, m, Appends(step).value, fact))
  }

  ghost predicate CanCompact(p: Printing, m: Machine) {
    && ImageOk(p, Capture(m.state)) && ImageBytes(p, Capture(m.state)) != []
    && |m.history| < Framing.U64_LIMIT && |ImageBytes(p, Capture(m.state))| < Framing.U64_LIMIT
  }

  ghost predicate CanHappen(p: Printing, maxPayload: nat, m: Machine, e: Happening) {
    match e
    case Acts(step, fact) => CanAct(p, maxPayload, m, step, fact)
    case StopsWriting(step, fact, n) =>
      CanAct(p, maxPayload, m, step, fact) && Appends(step).Some? && n <= |FrameOf(m, fact)|
    case Compacts => CanCompact(p, m)
    case StopsCompacting(_) => CanCompact(p, m)
    case Stops => true
  }

  /** The disk with so much of a frame at the end of its journal. */
  function WithBytes(m: Machine, fact: Fact, n: nat): Disk {
    var frame := FrameOf(m, fact);
    WithJournal(m.disk, JournalBytes(m.disk) + frame[..if n < |frame| then n else |frame|])
  }

  ghost function Sealed(p: Printing, m: Machine): Disk {
    SealedDisk(m.disk, |m.history|, ImageBytes(p, Capture(m.state)))
  }

  ghost function LeftAt(p: Printing, m: Machine, stage: Stage): Disk {
    match stage
    case Writing(bytes) => m.disk.(temporary := bytes)
    case Renamed => Sealed(p, m)
    case Removed => Sealed(p, m).(journal := None)
    case Begun => Sealed(p, m).(journal := Some([]))
  }

  /** Opening a disk cuts a torn tail away. */
  function Mended(disk: Disk, maxPayload: nat): Disk {
    var torn, bytes := TornOf(disk, maxPayload), JournalBytes(disk);
    if 0 < torn <= |bytes| then WithJournal(disk, bytes[..|bytes| - torn]) else disk
  }

  function TornOf(disk: Disk, maxPayload: nat): nat {
    var r := Decipher(disk, maxPayload);
    if r.Recovered? then r.torn else 0
  }

  /** A coordinator started on a disk; its journal is the one the disk tells of. */
  function Started(p: Printing, maxPayload: nat, disk: Disk, history: seq<Fact>, journal: seq<DurableRecord>,
                   maxAttempts: nat): Machine
  {
    var again := Restarted(p, maxAttempts, Decipher(disk, maxPayload));
    Machine(if again.Some? then again.value.(journal := journal) else Initial(maxAttempts), Mended(disk, maxPayload),
            history)
  }

  ghost function Acted(m: Machine, step: Step, fact: Fact): Machine {
    if !Enabled(m.state, step) then m
    else if Appends(step).Some? then
      Machine(Next(m.state, step), WithBytes(m, fact, |FrameOf(m, fact)|), m.history + [fact])
    else m.(state := Next(m.state, step))
  }

  ghost function Then(p: Printing, maxPayload: nat, m: Machine, e: Happening): Machine {
    match e
    case Acts(step, fact) => Acted(m, step, fact)
    case StopsWriting(step, fact, n) =>
      var told := if n < |FrameOf(m, fact)| then m else Acted(m, step, fact);
      Started(p, maxPayload, WithBytes(m, fact, n), told.history, told.state.journal, m.state.maxAttempts)
    case Compacts => m.(disk := LeftAt(p, m, Begun))
    case StopsCompacting(stage) =>
      Started(p, maxPayload, LeftAt(p, m, stage), m.history, m.state.journal, m.state.maxAttempts)
    case Stops => Started(p, maxPayload, m.disk, m.history, m.state.journal, m.state.maxAttempts)
  }

  /** The state that is in memory, or was when the machine stopped: before the step, or after its last byte. */
  ghost function Running(m: Machine, e: Happening): State {
    match e
    case Acts(step, fact) => Acted(m, step, fact).state
    case StopsWriting(step, fact, n) => if n < |FrameOf(m, fact)| then m.state else Acted(m, step, fact).state
    case _ => m.state
  }

  // ---------------------------------------------------------------------------
  // What every happening keeps
  // ---------------------------------------------------------------------------

  /** Disk and memory agree: the disk tells the history, and the state is an echo of what that denotes. */
  ghost predicate Agrees(p: Printing, maxPayload: nat, m: Machine) {
    exists image, kept :: AgreesBy(p, maxPayload, m, image, kept)
  }

  ghost predicate AgreesBy(p: Printing, maxPayload: nat, m: Machine, image: seq<Fact> -> seq<Byte>,
                           kept: seq<Framing.JournalRecord>)
  {
    && Intact(m.disk, kept, maxPayload, image, m.history)
    && Account(p, Numbered(m.history)) == Some(m.state.journal)
    && ImageHolds(p, m.disk, maxPayload, image, m.history, m.state)
    && Echoed(m.state) && Inv(m.state) && Kept(m.state)
  }

  // ---------------------------------------------------------------------------
  // Steps
  // ---------------------------------------------------------------------------

  /** What a step does besides applying its record is no part of what the journal denotes. */
  lemma NextAlike(s: State, step: Step)
    requires Enabled(s, step)
    ensures match Appends(step)
            case None => Alike(s, Next(s, step)) && Next(s, step).journal == s.journal
            case Some(d) => Applicable(s, d) && Alike(Applied(s, d), Next(s, step))
                            && Next(s, step).journal == s.journal + [d]
    ensures Next(s, step).maxAttempts == s.maxAttempts
  {
    hide FitsIn, Wellbound, Applied;
    if Appends(step).Some? {
      StepApplies(s, step, Appends(step).value);
      AppliedKeepsBound(s, Appends(step).value);
    }
  }

  lemma StepApplies(s: State, step: Step, d: DurableRecord)
    requires Enabled(s, step) && Appends(step) == Some(d)
    ensures Applicable(s, d)
  {
    hide FitsIn, Wellbound, Applied;
    match step
    case Admit(_, consumed, allowance) => AdmitApplicable(s, d, consumed, allowance);
    case Supersede(_, measured, allowance) => SupersedeShape(s, d, measured, allowance);
    case _ =>
  }

  lemma AlikeIsEcho(a: State, b: State)
    requires Alike(a, b)
    ensures Echoes(a, b)
  {
    assert Reordered(b, a.attemptOrder) == b;
  }

  /** A step leaves an echo of what the longer journal denotes, and its record finds room there. */
  lemma StepEchoed(s: State, step: Step)
    requires Echoed(s) && Enabled(s, step) && (Appends(step).Some? ==> FindsRoom(s, Appends(step).value))
    ensures Echoed(Next(s, step)) && Replayable(Initial(s.maxAttempts), s.journal)
    ensures var z := Replayed(Initial(s.maxAttempts), s.journal);
            Appends(step).Some? ==> Applicable(z, Appends(step).value) && FindsRoom(z, Appends(step).value)
  {
    hide Enabled, Next, Applicable, Applied, Replayable, Replayed, Echoes, Alike;
    var z, s' := Replayed(Initial(s.maxAttempts), s.journal), Next(s, step);
    EchoOrders(z, s);
    NextAlike(s, step);
    match Appends(step) {
      case None =>
        AlikeIsEcho(s, s');
        EchoPasses(z, s, s');
      case Some(d) =>
        EchoFlips(z, s);
        AppliedEchoes(s, z, d);
        EchoFlips(Applied(s, d), Applied(z, d));
        AlikeIsEcho(Applied(s, d), s');
        EchoPasses(Applied(z, d), Applied(s, d), s');
        ReplayedOneMore(Initial(s.maxAttempts), s.journal, d);
    }
  }

  lemma EchoOrders(a: State, b: State)
    requires Echoes(a, b)
    ensures |a.attemptOrder| == |b.attemptOrder| && a.maxAttempts == b.maxAttempts
    ensures forall d :: FindsRoom(a, d) <==> FindsRoom(b, d)
  {
  }

  lemma ActAgrees(p: Printing, maxPayload: nat, m: Machine, step: Step, fact: Fact)
    requires Agrees(p, maxPayload, m) && CanAct(p, maxPayload, m, step, fact)
    ensures Agrees(p, maxPayload, Acted(m, step, fact))
  {
    hide *;
    var image, kept := AgreeingBy(p, maxPayload, m);
    CanActParts(p, maxPayload, m, step, fact);
    ActedIs(m, step, fact);
    StepEchoed(m.state, step);
    NextKeepsInv(m.state, step);
    NextKept(m.state, step);
    NextAlike(m.state, step);
    if Appends(step).Some? {
      var d := Appends(step).value;
      WholeFrame(p, maxPayload, m, fact, image, kept, d);
      WrittenAgrees(p, maxPayload, m, fact, image, kept, d, Acted(m, step, fact));
    } else {
      SilentAgrees(p, maxPayload, m, image, kept, Acted(m, step, fact));
    }
  }

  lemma AgreeingBy(p: Printing, maxPayload: nat, m: Machine)
    returns (image: seq<Fact> -> seq<Byte>, kept: seq<Framing.JournalRecord>)
    requires Agrees(p, maxPayload, m)
    ensures AgreesBy(p, maxPayload, m, image, kept)
    ensures Intact(m.disk, kept, maxPayload, image, m.history) && Tells(m.disk, maxPayload, image, m.history)
    ensures Restarts.Account(p, Numbered(m.history)) == Some(m.state.journal)
    ensures ImageHolds(p, m.disk, maxPayload, image, m.history, m.state)
    ensures Echoed(m.state) && Inv(m.state) && Kept(m.state)
  {
    hide Intact, Restarts.Account, ImageHolds, Echoed, Inv, Kept, Numbered, Tells;
    image, kept :| AgreesBy(p, maxPayload, m, image, kept);
    IntactTells(m.disk, kept, maxPayload, image, m.history);
  }

  lemma CanActParts(p: Printing, maxPayload: nat, m: Machine, step: Step, fact: Fact)
    requires CanAct(p, maxPayload, m, step, fact)
    ensures Enabled(m.state, step)
    ensures Appends(step).Some? ==>
      FindsRoom(m.state, Appends(step).value) && Writes(p, maxPayload, m, Appends(step).value, fact)
  {
    hide Enabled, Writes;
  }

  lemma ActedIs(m: Machine, step: Step, fact: Fact)
    requires Enabled(m.state, step)
    ensures var m' := Acted(m, step, fact);
            && m'.state == Next(m.state, step)
            && m'.history == (if Appends(step).Some? then m.history + [fact] else m.history)
            && m'.disk == if Appends(step).Some? then WithBytes(m, fact, |FrameOf(m, fact)|) else m.disk
  {
    hide Enabled, Next, WithBytes, FrameOf;
  }

  lemma WholeFrame(p: Printing, maxPayload: nat, m: Machine, fact: Fact, image: seq<Fact> -> seq<Byte>,
                   kept: seq<Framing.JournalRecord>, d: DurableRecord)
    requires Intact(m.disk, kept, maxPayload, image, m.history) && Writes(p, maxPayload, m, d, fact)
    ensures var torn := WithBytes(m, fact, |FrameOf(m, fact)|);
            var r := Framing.JournalRecord(fact.kind, |m.history| + 1, fact.payload);
            && Intact(torn, kept + [r], maxPayload, image, m.history + [fact]) && torn.snapshot == m.disk.snapshot
            && Tells(torn, maxPayload, image, m.history + [fact])
    ensures forall n :: 0 <= n < |FrameOf(m, fact)| ==>
      Tells(WithBytes(m, fact, n), maxPayload, image, m.history) && WithBytes(m, fact, n).snapshot == m.disk.snapshot
    ensures Meant(p, fact.kind, fact.payload) == Some(Effect(d))
  {
    hide Tells, Framing.Sound, Framing.Frame, Framing.SoundAll, Framing.InSequence, Framing.Journal, Meant;
    forall n: nat | n <= |FrameOf(m, fact)|
      ensures var r := Framing.JournalRecord(fact.kind, |m.history| + 1, fact.payload);
              if n < |FrameOf(m, fact)| then Tells(WithBytes(m, fact, n), maxPayload, image, m.history)
              else Intact(WithBytes(m, fact, n), kept + [r], maxPayload, image, m.history + [fact])
    {
      AppendTells(m.disk, kept, fact, n, maxPayload, image, m.history);
    }
  }

  lemma WrittenAgrees(p: Printing, maxPayload: nat, m: Machine, fact: Fact, image: seq<Fact> -> seq<Byte>,
                      kept: seq<Framing.JournalRecord>, d: DurableRecord, m': Machine)
    requires Tells(m.disk, maxPayload, image, m.history) && ImageHolds(p, m.disk, maxPayload, image, m.history, m.state)
    requires Restarts.Account(p, Numbered(m.history)) == Some(m.state.journal)
    requires Meant(p, fact.kind, fact.payload) == Some(Effect(d))
    requires m'.history == m.history + [fact] && m'.disk.snapshot == m.disk.snapshot
    requires Tells(m'.disk, maxPayload, image, m'.history)
    requires var r := Framing.JournalRecord(fact.kind, |m.history| + 1, fact.payload);
             Intact(m'.disk, kept + [r], maxPayload, image, m'.history)
    requires m'.state.journal == m.state.journal + [d] && m'.state.maxAttempts == m.state.maxAttempts
    requires Replayable(Initial(m.state.maxAttempts), m.state.journal)
    requires var z := Replayed(Initial(m.state.maxAttempts), m.state.journal);
             Applicable(z, d) && FindsRoom(z, d)
    requires Echoed(m'.state) && Inv(m'.state) && Kept(m'.state)
    ensures Agrees(p, maxPayload, m')
  {
    hide *;
    AccountNext(p, m.history, fact, m.state.journal, d);
    HoldsLonger(p, maxPayload, m, fact, image, d, m');
    var r := Framing.JournalRecord(fact.kind, |m.history| + 1, fact.payload);
    AgreesSo(p, maxPayload, m', image, kept + [r]);
  }

  lemma AgreesSo(p: Printing, maxPayload: nat, m: Machine, image: seq<Fact> -> seq<Byte>,
                 kept: seq<Framing.JournalRecord>)
    requires Intact(m.disk, kept, maxPayload, image, m.history)
    requires Restarts.Account(p, Numbered(m.history)) == Some(m.state.journal)
    requires ImageHolds(p, m.disk, maxPayload, image, m.history, m.state)
    requires Echoed(m.state) && Inv(m.state) && Kept(m.state)
    ensures Agrees(p, maxPayload, m)
  {
    hide Intact, Restarts.Account, ImageHolds, Echoed, Inv, Kept, Numbered;
    assert AgreesBy(p, maxPayload, m, image, kept);
  }

  lemma HoldsLonger(p: Printing, maxPayload: nat, m: Machine, fact: Fact, image: seq<Fact> -> seq<Byte>,
                    d: DurableRecord, m': Machine)
    requires Tells(m.disk, maxPayload, image, m.history) && ImageHolds(p, m.disk, maxPayload, image, m.history, m.state)
    requires Restarts.Account(p, Numbered(m.history)) == Some(m.state.journal)
    requires Meant(p, fact.kind, fact.payload) == Some(Effect(d))
    requires m'.history == m.history + [fact] && m'.disk.snapshot == m.disk.snapshot
    requires Tells(m'.disk, maxPayload, image, m'.history) && m'.state.maxAttempts == m.state.maxAttempts
    requires Replayable(Initial(m.state.maxAttempts), m.state.journal)
    requires var z := Replayed(Initial(m.state.maxAttempts), m.state.journal);
             Applicable(z, d) && FindsRoom(z, d)
    ensures ImageHolds(p, m'.disk, maxPayload, image, m'.history, m'.state)
  {
    hide Restarts.Account, Numbered, Meant, Replayable, Replayed, Applicable, Tells, Decipher, Faithful;
    FloorOf(m.disk, m'.disk, maxPayload, image, m.history, m'.history);
    HoldsAt(p, m.disk, maxPayload, image, m.history, m.state);
    ToldRecovers(m'.disk, maxPayload, image, m'.history);
    if m.disk.snapshot.Some? {
      var floor := Decipher(m.disk, maxPayload).floor;
      assert (m.history + [fact])[..floor] == m.history[..floor];
      FaithfulNext(p, m.state.maxAttempts, image(m.history[..floor]), m.history, fact, floor, m.state.journal, d);
    }
  }

  lemma SilentAgrees(p: Printing, maxPayload: nat, m: Machine, image: seq<Fact> -> seq<Byte>,
                     kept: seq<Framing.JournalRecord>, m': Machine)
    requires AgreesBy(p, maxPayload, m, image, kept) && m'.disk == m.disk && m'.history == m.history
    requires m'.state.journal == m.state.journal && m'.state.maxAttempts == m.state.maxAttempts
    requires Echoed(m'.state) && Inv(m'.state) && Kept(m'.state)
    ensures Agrees(p, maxPayload, m')
  {
    hide Intact, Restarts.Account, Echoed, Inv, Kept, Numbered, Faithful, Decipher;
    AgreesSo(p, maxPayload, m', image, kept);
  }

  // ---------------------------------------------------------------------------
  // Starting again
  // ---------------------------------------------------------------------------

  /** Soundness does not depend on graces, holds or the order of attempts. */
  lemma EchoInv(s: State, b: State)
    requires Inv(s) && Echoes(s, b) && b.holds == map[]
    ensures Inv(b)
  {
    var mid := s.(records := b.records);
    forall k | k in s.records ensures RetouchedRecord(s.records[k], b.records[k]) {
      hide Chained;
      NoteKeepsRecall(s, k);
    }
    RetouchKeepsInv(s, mid);
    WithoutHolds(mid, b);
  }

  /** A machine started on a disk that tells a history agrees with it, and echoes the state that wrote it. */
  lemma StartAgrees(p: Printing, maxPayload: nat, disk: Disk, image: seq<Fact> -> seq<Byte>, history: seq<Fact>,
                    s: State)
    requires Tells(disk, maxPayload, image, history) && Restarts.Account(p, Numbered(history)) == Some(s.journal)
    requires ImageHolds(p, disk, maxPayload, image, history, s) && Echoed(s) && Inv(s)
    ensures var m := Started(p, maxPayload, disk, history, s.journal, s.maxAttempts);
            Agrees(p, maxPayload, m) && Echoes(s, m.state)
    ensures Restarted(p, s.maxAttempts, Decipher(disk, maxPayload)).Some?
  {
    hide *;
    var m := Started(p, maxPayload, disk, history, s.journal, s.maxAttempts);
    StartedState(p, maxPayload, disk, image, history, s);
    var kept := MendedIntact(disk, maxPayload, image, history);
    StartedIs(p, maxPayload, disk, history, s.journal, s.maxAttempts);
    IntactTells(m.disk, kept, maxPayload, image, history);
    TornHolds(p, disk, m.disk, maxPayload, image, history, history, s);
    SameHolds(p, m.disk, maxPayload, image, history, s, m.state);
    AgreesSo(p, maxPayload, m, image, kept);
  }

  lemma StartedIs(p: Printing, maxPayload: nat, disk: Disk, history: seq<Fact>, journal: seq<DurableRecord>,
                  maxAttempts: nat)
    ensures var m := Started(p, maxPayload, disk, history, journal, maxAttempts);
            m.disk == Mended(disk, maxPayload) && m.history == history
  {
    hide Mended, Decipher, Restarted;
  }

  lemma SameHolds(p: Printing, disk: Disk, maxPayload: nat, image: seq<Fact> -> seq<Byte>, history: seq<Fact>,
                  s: State, b: State)
    requires ImageHolds(p, disk, maxPayload, image, history, s) && b.maxAttempts == s.maxAttempts
    ensures ImageHolds(p, disk, maxPayload, image, history, b)
  {
    hide Decipher, Faithful;
  }

  lemma StartedState(p: Printing, maxPayload: nat, disk: Disk, image: seq<Fact> -> seq<Byte>, history: seq<Fact>,
                     s: State)
    requires Tells(disk, maxPayload, image, history) && Restarts.Account(p, Numbered(history)) == Some(s.journal)
    requires ImageHolds(p, disk, maxPayload, image, history, s) && Echoed(s) && Inv(s)
    ensures Restarted(p, s.maxAttempts, Decipher(disk, maxPayload)).Some?
    ensures var b := Started(p, maxPayload, disk, history, s.journal, s.maxAttempts).state;
            && b.journal == s.journal && b.maxAttempts == s.maxAttempts
            && Echoed(b) && Inv(b) && Kept(b) && Echoes(s, b)
  {
    hide Tells, Decipher, Restarts.Account, Replayable, Replayed, Numbered, Restarted, Echoes, Faithful, Kept, Inv,
         ImageHolds, Mended;
    HoldsAt(p, disk, maxPayload, image, history, s);
    DiskEchoes(p, disk, maxPayload, image, history, s.maxAttempts, s.journal);
    var again, z := Restarted(p, s.maxAttempts, Decipher(disk, maxPayload)).value,
        Replayed(Initial(s.maxAttempts), s.journal);
    var b := again.(journal := s.journal);
    WithJournalEchoes(z, again, s.journal);
    EchoOrders(z, s);
    EchoOrders(z, b);
    EchoFlips(z, s);
    EchoPasses(s, z, b);
    EchoInv(s, b);
  }

  lemma WithJournalEchoes(z: State, a: State, journal: seq<DurableRecord>)
    requires Echoes(z, a)
    ensures Echoes(z, a.(journal := journal)) && (Kept(a) ==> Kept(a.(journal := journal)))
  {
  }

  lemma MendedIntact(disk: Disk, maxPayload: nat, image: seq<Fact> -> seq<Byte>, history: seq<Fact>)
    returns (kept: seq<Framing.JournalRecord>)
    requires Tells(disk, maxPayload, image, history)
    ensures Intact(Mended(disk, maxPayload), kept, maxPayload, image, history)
    ensures Mended(disk, maxPayload).snapshot == disk.snapshot
  {
    hide *;
    kept := TruncationTells(disk, maxPayload, image, history);
    ToldRecovers(disk, maxPayload, image, history);
    MendedIs(disk, maxPayload);
  }

  lemma MendedIs(disk: Disk, maxPayload: nat)
    ensures var bytes, torn := JournalBytes(disk), TornOf(disk, maxPayload);
            Mended(disk, maxPayload) == if 0 < torn <= |bytes| then WithJournal(disk, bytes[..|bytes| - torn]) else disk
    ensures Mended(disk, maxPayload).snapshot == disk.snapshot
    ensures Decipher(disk, maxPayload).Recovered? ==> Decipher(disk, maxPayload).torn == TornOf(disk, maxPayload)
  {
    hide Decipher, JournalBytes;
  }

  // ---------------------------------------------------------------------------
  // Compaction
  // ---------------------------------------------------------------------------

  lemma LeftIs(p: Printing, m: Machine, stage: Stage)
    ensures var left, sealed := LeftAt(p, m, stage), Sealed(p, m);
            match stage
            case Writing(bytes) => left == m.disk.(temporary := bytes) && left.snapshot == m.disk.snapshot
            case Renamed => left == sealed
            case Removed => left == sealed.(journal := None)
            case Begun => left == sealed.(journal := Some([]))
    ensures Sealed(p, m) == SealedDisk(m.disk, |m.history|, ImageBytes(p, Capture(m.state)))
  {
    hide SealedDisk, ImageBytes, Capture;
  }

  lemma CanCompactParts(p: Printing, m: Machine) returns (payload: seq<Byte>)
    requires CanCompact(p, m)
    ensures payload == ImageBytes(p, Capture(m.state)) && payload != [] && ImageOk(p, Capture(m.state))
    ensures |m.history| < Framing.U64_LIMIT && |payload| < Framing.U64_LIMIT
  {
    hide ImageOk, ImageBytes, Capture;
    payload := ImageBytes(p, Capture(m.state));
  }

  lemma IntactParts(disk: Disk, kept: seq<Framing.JournalRecord>, maxPayload: nat, image: seq<Fact> -> seq<Byte>,
                    history: seq<Fact>)
    requires Intact(disk, kept, maxPayload, image, history)
    ensures JournalBytes(disk) == Framing.Journal(kept) && Framing.SoundAll(kept, maxPayload)
    ensures Framing.InSequence(kept, None) && forall i :: 0 <= i < |kept| ==> kept[i].sequence <= |history|
  {
    hide Tells, JournalBytes, Framing.SoundAll, Framing.InSequence, Framing.Journal;
  }

  /** Once the new snapshot is in its place, it tells the whole history alone. */
  lemma Overwritten(disk: Disk, kept: seq<Framing.JournalRecord>, maxPayload: nat, image: seq<Fact> -> seq<Byte>,
                    history: seq<Fact>)
    requires JournalBytes(disk) == Framing.Journal(kept) && Framing.SoundAll(kept, maxPayload)
    requires Framing.InSequence(kept, None) && forall i :: 0 <= i < |kept| ==> kept[i].sequence <= |history|
    requires |history| < Framing.U64_LIMIT && |image(history)| < Framing.U64_LIMIT
    ensures var sealed := SealedDisk(disk, |history|, image(history));
            && Tells(sealed, maxPayload, image, history) && Decipher(sealed, maxPayload).floor == |history|
            && Tells(sealed.(journal := None), maxPayload, image, history)
            && Decipher(sealed.(journal := None), maxPayload).floor == |history|
            && Intact(sealed.(journal := Some([])), [], maxPayload, image, history)
            && Tells(sealed.(journal := Some([])), maxPayload, image, history)
            && Decipher(sealed.(journal := Some([])), maxPayload).floor == |history|
  {
    hide Tells, Decipher, Framing.SoundAll, Framing.InSequence, Framing.Journal, JournalBytes;
    SnapshotTells(disk, kept, maxPayload, image, history);
    var sealed := SealedDisk(disk, |history|, image(history));
    RotationTells(sealed, kept, maxPayload, image, history);
    AllTold(history);
    FloorOf(sealed, sealed.(journal := None), maxPayload, image, history, history);
  }

  lemma FloorHolds(p: Printing, disk: Disk, maxPayload: nat, image: seq<Fact> -> seq<Byte>, history: seq<Fact>,
                   s: State)
    requires Tells(disk, maxPayload, image, history) && Decipher(disk, maxPayload).floor == |history|
    requires Faithful(p, s.maxAttempts, image(history), history, |history|)
    ensures ImageHolds(p, disk, maxPayload, image, history, s)
  {
    hide Decipher, Faithful, Tells;
    ToldRecovers(disk, maxPayload, image, history);
    assert history[..|history|] == history;
  }

  /** Whatever a compaction leaves behind tells the history, and what its snapshot holds is faithful. */
  lemma CompactedAgrees(p: Printing, maxPayload: nat, m: Machine, stage: Stage)
    returns (image: seq<Fact> -> seq<Byte>, kept: seq<Framing.JournalRecord>)
    requires Agrees(p, maxPayload, m) && CanCompact(p, m)
    ensures Tells(LeftAt(p, m, stage), maxPayload, image, m.history)
    ensures ImageHolds(p, LeftAt(p, m, stage), maxPayload, image, m.history, m.state)
    ensures stage.Begun? ==> Intact(LeftAt(p, m, stage), kept, maxPayload, image, m.history)
  {
    hide *;
    var image0, kept0 := AgreeingBy(p, maxPayload, m);
    LeftIs(p, m, stage);
    kept := [];
    if stage.Writing? {
      image := image0;
      TemporaryIgnored(m.disk, stage.bytes, maxPayload, image, m.history);
      TornHolds(p, m.disk, LeftAt(p, m, stage), maxPayload, image, m.history, m.history, m.state);
    } else {
      var payload := CanCompactParts(p, m);
      image := h => if h == m.history then payload else image0(h);
      IntactParts(m.disk, kept0, maxPayload, image0, m.history);
      Overwritten(m.disk, kept0, maxPayload, image, m.history);
      CaptureIsFaithful(p, m.state, m.history);
      FloorHolds(p, LeftAt(p, m, stage), maxPayload, image, m.history, m.state);
    }
  }

  // ---------------------------------------------------------------------------
  // Every happening
  // ---------------------------------------------------------------------------

  /** The disk restarts into an echo of the state. */
  ghost predicate Brings(p: Printing, maxPayload: nat, disk: Disk, s: State) {
    var again := Restarted(p, s.maxAttempts, Decipher(disk, maxPayload));
    again.Some? && Echoes(s, again.value)
  }

  /** The machine agrees again after a stop, with what ran before it. */
  lemma StopAgrees(p: Printing, maxPayload: nat, m: Machine)
    requires Agrees(p, maxPayload, m)
    ensures var m' := Started(p, maxPayload, m.disk, m.history, m.state.journal, m.state.maxAttempts);
            Agrees(p, maxPayload, m') && Echoes(m.state, m'.state)
  {
    hide *;
    var image, kept := AgreeingBy(p, maxPayload, m);
    StartAgrees(p, maxPayload, m.disk, image, m.history, m.state);
  }

  /** Less than a whole frame is cut away again; a whole one counts. */
  lemma TornAgrees(p: Printing, maxPayload: nat, m: Machine, step: Step, fact: Fact, n: nat)
    requires Agrees(p, maxPayload, m) && CanAct(p, maxPayload, m, step, fact) && Appends(step).Some?
    requires n <= |FrameOf(m, fact)|
    ensures var told := if n < |FrameOf(m, fact)| then m else Acted(m, step, fact);
            var m' := Started(p, maxPayload, WithBytes(m, fact, n), told.history, told.state.journal,
                              m.state.maxAttempts);
            Agrees(p, maxPayload, m') && Echoes(told.state, m'.state)
  {
    hide *;
    CanActParts(p, maxPayload, m, step, fact);
    if n < |FrameOf(m, fact)| {
      var image, kept := AgreeingBy(p, maxPayload, m);
      WholeFrame(p, maxPayload, m, fact, image, kept, Appends(step).value);
      var torn := WithBytes(m, fact, n);
      TornHolds(p, m.disk, torn, maxPayload, image, m.history, m.history, m.state);
      StartAgrees(p, maxPayload, torn, image, m.history, m.state);
    } else {
      ActAgrees(p, maxPayload, m, step, fact);
      ActedIs(m, step, fact);
      NextAlike(m.state, step);
      StopAgrees(p, maxPayload, Acted(m, step, fact));
    }
  }

  lemma LeftAgrees(p: Printing, maxPayload: nat, m: Machine, stage: Stage)
    requires Agrees(p, maxPayload, m) && CanCompact(p, m)
    ensures var m' := Started(p, maxPayload, LeftAt(p, m, stage), m.history, m.state.journal, m.state.maxAttempts);
            Agrees(p, maxPayload, m') && Echoes(m.state, m'.state)
    ensures stage.Begun? ==> Agrees(p, maxPayload, m.(disk := LeftAt(p, m, stage)))
  {
    hide *;
    var image0, kept0 := AgreeingBy(p, maxPayload, m);
    var image, kept := CompactedAgrees(p, maxPayload, m, stage);
    StartAgrees(p, maxPayload, LeftAt(p, m, stage), image, m.history, m.state);
    if stage.Begun? { AgreesSo(p, maxPayload, m.(disk := LeftAt(p, m, stage)), image, kept); }
  }

  /**
   Whatever happens next, memory and disk agree again, and the machine's state is an echo of the
   one that was running.
   */
  lemma HappeningKeeps(p: Printing, maxPayload: nat, m: Machine, e: Happening)
    requires Agrees(p, maxPayload, m) && CanHappen(p, maxPayload, m, e)
    ensures Agrees(p, maxPayload, Then(p, maxPayload, m, e))
    ensures Echoes(Running(m, e), Then(p, maxPayload, m, e).state)
  {
    hide Agrees, CanAct, CanCompact, Echoes, Started, LeftAt, Acted, WithBytes, FrameOf;
    EchoesItself(Running(m, e));
    match e
    case Acts(step, fact) => ActAgrees(p, maxPayload, m, step, fact);
    case StopsWriting(step, fact, n) => TornAgrees(p, maxPayload, m, step, fact, n);
    case Compacts => LeftAgrees(p, maxPayload, m, Begun);
    case StopsCompacting(stage) => LeftAgrees(p, maxPayload, m, stage);
    case Stops => StopAgrees(p, maxPayload, m);
  }

  // ---------------------------------------------------------------------------
  // A whole life
  // ---------------------------------------------------------------------------

  function NewMachine(maxAttempts: nat): Machine {
    Machine(Initial(maxAttempts), Disk(None, [], None), [])
  }

  ghost predicate CanLive(p: Printing, maxPayload: nat, m: Machine, life: seq<Happening>)
    decreases |life|
  {
    life != [] ==>
      && CanHappen(p, maxPayload, m, life[0])
      && CanLive(p, maxPayload, Then(p, maxPayload, m, life[0]), life[1..])
  }

  ghost function Lived(p: Printing, maxPayload: nat, m: Machine, life: seq<Happening>): Machine
    decreases |life|
  {
    if life == [] then m else Lived(p, maxPayload, Then(p, maxPayload, m, life[0]), life[1..])
  }

  lemma NewAgrees(p: Printing, maxPayload: nat, maxAttempts: nat)
    ensures Agrees(p, maxPayload, NewMachine(maxAttempts))
  {
    hide *;
    var image: seq<Fact> -> seq<Byte> := h => [];
    NewTells(p, maxPayload, maxAttempts, image);
    NewState(maxAttempts);
    AgreesSo(p, maxPayload, NewMachine(maxAttempts), image, []);
  }

  lemma NewTells(p: Printing, maxPayload: nat, maxAttempts: nat, image: seq<Fact> -> seq<Byte>)
    ensures var m := NewMachine(maxAttempts);
            && Intact(m.disk, [], maxPayload, image, m.history)
            && Restarts.Account(p, Numbered(m.history)) == Some(m.state.journal)
            && ImageHolds(p, m.disk, maxPayload, image, m.history, m.state)
  {
    hide Framing.Scan, Framing.InSequence, Framing.SoundAll, Faithful;
    NoneReads(maxPayload);
  }

  lemma NewState(maxAttempts: nat)
    ensures var s := NewMachine(maxAttempts).state; Echoed(s) && Inv(s) && Kept(s)
  {
    InitialDenoted(maxAttempts);
    DenotedIsEchoed(Initial(maxAttempts));
  }

  lemma {:induction false} LifeAgrees(p: Printing, maxPayload: nat, m: Machine, life: seq<Happening>)
    requires Agrees(p, maxPayload, m) && CanLive(p, maxPayload, m, life)
    ensures Agrees(p, maxPayload, Lived(p, maxPayload, m, life))
    decreases |life|
  {
    hide Agrees, CanHappen, Then;
    if life != [] {
      HappeningKeeps(p, maxPayload, m, life[0]);
      LifeAgrees(p, maxPayload, Then(p, maxPayload, m, life[0]), life[1..]);
    }
  }

  /**
   A coordinator that began on an empty disk: after any steps, compactions and stops, in any order and
   at any byte, what was written denotes the state in memory, and its disk restarts into an echo of it.
   */
  lemma DiskOutlives(p: Printing, maxPayload: nat, maxAttempts: nat, life: seq<Happening>)
    requires CanLive(p, maxPayload, NewMachine(maxAttempts), life)
    ensures var m := Lived(p, maxPayload, NewMachine(maxAttempts), life);
            && Brings(p, maxPayload, m.disk, m.state) && Inv(m.state)
            && Restarts.Account(p, Numbered(m.history)) == Some(m.state.journal) && Echoed(m.state)
            && Recover(m.disk, maxPayload)
               == if Readable(m.disk) then Decipher(m.disk, maxPayload) else Failed(Framing.Exhausted)
  {
    hide *;
    NewAgrees(p, maxPayload, maxAttempts);
    LifeAgrees(p, maxPayload, NewMachine(maxAttempts), life);
    var m := Lived(p, maxPayload, NewMachine(maxAttempts), life);
    var image, kept := AgreeingBy(p, maxPayload, m);
    StartAgrees(p, maxPayload, m.disk, image, m.history, m.state);
    BringsSo(p, maxPayload, m.disk, m.history, m.state);
    ReopensWhenReadable(m.disk, maxPayload, image, m.history);
  }

  lemma BringsSo(p: Printing, maxPayload: nat, disk: Disk, history: seq<Fact>, s: State)
    requires var m := Started(p, maxPayload, disk, history, s.journal, s.maxAttempts); Echoes(s, m.state)
    requires Restarted(p, s.maxAttempts, Decipher(disk, maxPayload)).Some?
    ensures Brings(p, maxPayload, disk, s)
  {
    hide Decipher, Restarted, Mended;
  }
}

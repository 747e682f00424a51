/** The bytes of the journal and of the snapshot file, and how they are read back. */
module Framing {
  import opened Timeline
  import opened Crc32c

  /** The version of both durable formats. */
  const FORMAT_VERSION := 1

  const U64_LIMIT := 0x1_0000_0000_0000_0000

  // ---------------------------------------------------------------------------
  // Little-endian numbers
  // ---------------------------------------------------------------------------

  function Set(on: bool, bit: Byte): Byte { if on then bit else 0 }

  function Count(on: bool, bit: nat): nat { if on then bit else 0 }

  function HalfOf(n: nat): nat { n / 2 }

  predicate IsOdd(n: nat) { n % 2 == 1 }

  /** The byte of a number, bit by bit; what does not fit is dropped. */
  function ByteOf(n: nat): Byte {
    var n1 := HalfOf(n); var n2 := HalfOf(n1); var n3 := HalfOf(n2); var n4 := HalfOf(n3);
    var n5 := HalfOf(n4); var n6 := HalfOf(n5); var n7 := HalfOf(n6);
    FromBits(IsOdd(n), IsOdd(n1), IsOdd(n2), IsOdd(n3), IsOdd(n4), IsOdd(n5), IsOdd(n6), IsOdd(n7))
  }

  function FromBits(a: bool, b: bool, c: bool, d: bool, e: bool, f: bool, g: bool, h: bool): Byte {
    Set(a, 1) | Set(b, 2) | Set(c, 4) | Set(d, 8) | Set(e, 16) | Set(f, 32) | Set(g, 64) | Set(h, 128)
  }

  predicate Bit(b: Byte, mask: Byte) { b & mask != 0 }

  function ValueOfByte(b: Byte): nat {
    Sum(Bit(b, 1), Bit(b, 2), Bit(b, 4), Bit(b, 8), Bit(b, 16), Bit(b, 32), Bit(b, 64), Bit(b, 128))
  }

  function Sum(a: bool, b: bool, c: bool, d: bool, e: bool, f: bool, g: bool, h: bool): nat {
    Count(a, 1) + Count(b, 2) + Count(c, 4) + Count(d, 8) + Count(e, 16) + Count(f, 32) + Count(g, 64) + Count(h, 128)
  }

  lemma BitsKept(a: bool, b: bool, c: bool, d: bool, e: bool, f: bool, g: bool, h: bool)
    ensures var x := FromBits(a, b, c, d, e, f, g, h);
            && Bit(x, 1) == a && Bit(x, 2) == b && Bit(x, 4) == c && Bit(x, 8) == d
            && Bit(x, 16) == e && Bit(x, 32) == f && Bit(x, 64) == g && Bit(x, 128) == h
  {
  }

  lemma BitsAll(x: Byte)
    ensures FromBits(Bit(x, 1), Bit(x, 2), Bit(x, 4), Bit(x, 8), Bit(x, 16), Bit(x, 32), Bit(x, 64), Bit(x, 128)) == x
  {
  }

  lemma OneDigit(n: nat, bit: nat)
    ensures bit * n == Count(IsOdd(n), bit) + 2 * bit * HalfOf(n)
  {
    assert n == n % 2 + 2 * (n / 2);
  }

  lemma ByteRoundTrip(n: nat)
    requires n < 256
    ensures ValueOfByte(ByteOf(n)) == n
  {
    EightDigits(n);
    hide HalfOf, IsOdd, Count, Bit, FromBits;
    var n1 := HalfOf(n); var n2 := HalfOf(n1); var n3 := HalfOf(n2); var n4 := HalfOf(n3);
    var n5 := HalfOf(n4); var n6 := HalfOf(n5); var n7 := HalfOf(n6);
    BitsKept(IsOdd(n), IsOdd(n1), IsOdd(n2), IsOdd(n3), IsOdd(n4), IsOdd(n5), IsOdd(n6), IsOdd(n7));
  }

  lemma EightDigits(n: nat)
    requires n < 256
    ensures var n1 := HalfOf(n); var n2 := HalfOf(n1); var n3 := HalfOf(n2); var n4 := HalfOf(n3);
            var n5 := HalfOf(n4); var n6 := HalfOf(n5); var n7 := HalfOf(n6);
            Sum(IsOdd(n), IsOdd(n1), IsOdd(n2), IsOdd(n3), IsOdd(n4), IsOdd(n5), IsOdd(n6), IsOdd(n7)) == n
  {
    hide HalfOf, IsOdd, Count;
    var n1 := HalfOf(n); var n2 := HalfOf(n1); var n3 := HalfOf(n2); var n4 := HalfOf(n3);
    var n5 := HalfOf(n4); var n6 := HalfOf(n5); var n7 := HalfOf(n6);
    OneDigit(n, 1); OneDigit(n1, 2); OneDigit(n2, 4); OneDigit(n3, 8);
    OneDigit(n4, 16); OneDigit(n5, 32); OneDigit(n6, 64); OneDigit(n7, 128);
    SeventhHalf(n);
    NoMore(n7);
  }

  lemma SeventhHalf(n: nat)
    requires n < 256
    ensures HalfOf(HalfOf(HalfOf(HalfOf(HalfOf(HalfOf(HalfOf(n))))))) <= 1
  {
  }

  lemma NoMore(n: nat)
    requires n <= 1
    ensures HalfOf(n) == 0
  {
  }

  lemma FirstDigit(a: bool, n: nat, rest: nat)
    requires n == Count(a, 1) + 2 * rest
    ensures IsOdd(n) == a && HalfOf(n) == rest
  {
  }

  lemma DigitsOfSum(a: bool, b: bool, c: bool, d: bool, e: bool, f: bool, g: bool, h: bool)
    ensures var n := Sum(a, b, c, d, e, f, g, h); n < 256 && ByteOf(n) == FromBits(a, b, c, d, e, f, g, h)
  {
    var n := Sum(a, b, c, d, e, f, g, h);
    var h1 := Count(h, 1);
    var g1 := Count(g, 1) + 2 * h1;
    var f1 := Count(f, 1) + 2 * g1;
    var e1 := Count(e, 1) + 2 * f1;
    var d1 := Count(d, 1) + 2 * e1;
    var c1 := Count(c, 1) + 2 * d1;
    var b1 := Count(b, 1) + 2 * c1;
    assert n == Count(a, 1) + 2 * b1;
    hide HalfOf, IsOdd, Count, FromBits;
    FirstDigit(a, n, b1); FirstDigit(b, b1, c1); FirstDigit(c, c1, d1); FirstDigit(d, d1, e1);
    FirstDigit(e, e1, f1); FirstDigit(f, f1, g1); FirstDigit(g, g1, h1); FirstDigit(h, h1, 0);
  }

  lemma ByteBack(b: Byte)
    ensures ValueOfByte(b) < 256 && ByteOf(ValueOfByte(b)) == b
  {
    hide Sum, Bit, FromBits, ByteOf;
    BitsAll(b);
    DigitsOfSum(Bit(b, 1), Bit(b, 2), Bit(b, 4), Bit(b, 8), Bit(b, 16), Bit(b, 32), Bit(b, 64), Bit(b, 128));
  }

  /** The low `n` bytes of a number, lowest first. */
  function Little(v: nat, n: nat): seq<Byte>
    decreases n
  {
    if n == 0 then [] else [ByteOf(v % 256)] + Little(v / 256, n - 1)
  }

  function FromLittle(bytes: seq<Byte>): nat {
    if bytes == [] then 0 else ValueOfByte(bytes[0]) + 256 * FromLittle(bytes[1..])
  }

  function Pow256(n: nat): nat { if n == 0 then 1 else 256 * Pow256(n - 1) }

  lemma {:induction false} LittleRoundTrip(v: nat, n: nat)
    ensures |Little(v, n)| == n && (v < Pow256(n) ==> FromLittle(Little(v, n)) == v)
    decreases n
  {
    hide ByteOf, ValueOfByte;
    if n > 0 {
      LittleRoundTrip(v / 256, n - 1);
      ByteRoundTrip(v % 256);
      assert Little(v, n)[1..] == Little(v / 256, n - 1);
    }
  }

  lemma {:induction false} LittleBack(bytes: seq<Byte>)
    ensures FromLittle(bytes) < Pow256(|bytes|) && Little(FromLittle(bytes), |bytes|) == bytes
  {
    hide ByteOf, ValueOfByte;
    if bytes != [] {
      ByteBack(bytes[0]);
      LittleBack(bytes[1..]);
      LowDigit(ValueOfByte(bytes[0]), FromLittle(bytes[1..]));
    }
  }

  lemma LowDigit(low: nat, rest: nat)
    requires low < 256
    ensures (low + 256 * rest) % 256 == low && (low + 256 * rest) / 256 == rest
  {
  }

  lemma Widths()
    ensures Pow256(2) == 0x1_0000 && Pow256(4) == 0x1_0000_0000 && Pow256(8) == 0x1_0000_0000_0000_0000
  {
    assert Pow256(4) == 256 * Pow256(3) && Pow256(8) == 256 * (256 * (256 * (256 * Pow256(4))));
  }

  function ChecksumOf(bytes: seq<Byte>): nat { Checksum(bytes) as int }

  lemma ChecksumFits(bytes: seq<Byte>)
    ensures ChecksumOf(bytes) < 0x1_0000_0000
  {
    hide Checksum;
  }

  /** One changed byte changes the checksum as a number. */
  lemma ChecksumShows(bytes: seq<Byte>, i: nat, value: Byte)
    requires i < |bytes| && value != bytes[i]
    ensures ChecksumOf(bytes[i := value]) != ChecksumOf(bytes)
  {
    OneByteShows(bytes, i, value);
    hide Checksum;
    var a, b := Checksum(bytes), Checksum(bytes[i := value]);
    assert (a as int) as bv32 == a && (b as int) as bv32 == b;
  }

  // ---------------------------------------------------------------------------
  // Journal records
  // ---------------------------------------------------------------------------

  const JOURNAL_MAGIC: seq<Byte> := [0x42, 0x52, 0x46, 0x4A]
  const HEADER := 22
  const KINDS := 14

  datatype JournalRecord = JournalRecord(kind: nat, sequence: nat, payload: seq<Byte>)

  /** A record the store can have appended under a payload bound. */
  predicate Sound(r: JournalRecord, maxPayload: nat) {
    && 1 <= r.kind <= KINDS && r.sequence < 0x1_0000_0000_0000_0000
    && |r.payload| <= maxPayload && HEADER + |r.payload| < 0x1_0000_0000
  }

  function FrameHeader(r: JournalRecord): (h: seq<Byte>)
    ensures |h| == HEADER
  {
    LittleRoundTrip(HEADER + |r.payload|, 4);
    LittleRoundTrip(r.sequence, 8);
    LittleRoundTrip(r.kind, 2);
    LittleRoundTrip(ChecksumOf(r.payload), 4);
    JOURNAL_MAGIC + Little(HEADER + |r.payload|, 4) + Little(r.sequence, 8) + Little(r.kind, 2)
        + Little(ChecksumOf(r.payload), 4)
  }

  /** A record as it lies in the journal file. */
  function Frame(r: JournalRecord): (f: seq<Byte>)
    ensures |f| == HEADER + |r.payload|
  {
    FrameHeader(r) + r.payload
  }

  function Journal(rs: seq<JournalRecord>): seq<Byte> {
    if rs == [] then [] else Frame(rs[0]) + Journal(rs[1..])
  }

  predicate SoundAll(rs: seq<JournalRecord>, maxPayload: nat) {
    forall i :: 0 <= i < |rs| ==> Sound(rs[i], maxPayload)
  }

  /** Sequence numbers rise strictly, and above `last` if there was one before. */
  predicate InSequence(rs: seq<JournalRecord>, last: Option<nat>)
    decreases |rs|
  {
    rs == [] || ((last.Some? ==> last.value < rs[0].sequence) && InSequence(rs[1..], Some(rs[0].sequence)))
  }

  // ---------------------------------------------------------------------------
  // Reading a journal
  // ---------------------------------------------------------------------------

  datatype ReadError = Corrupt | Exhausted | Unsupported

  /** Either the complete records and the number of bytes of a torn tail, or a refusal. */
  datatype Scanned = Read(records: seq<JournalRecord>, torn: nat) | Refused(error: ReadError)

  datatype Header = Header(length: nat, sequence: nat, kind: nat, crc: nat)

  function HeaderOf(file: seq<Byte>): Header
    requires |file| >= HEADER
  {
    Header(FromLittle(file[4..8]), FromLittle(file[8..16]), FromLittle(file[16..18]), FromLittle(file[18..22]))
  }

  /** Why the record at the head of `file` is refused; `None` if it is complete and good, or only torn. */
  function HeadObjection(file: seq<Byte>, maxPayload: nat, last: Option<nat>): Option<ReadError>
    requires |file| >= HEADER
  {
    var h := HeaderOf(file);
    if file[..4] != JOURNAL_MAGIC then Some(Corrupt)
    else if h.length < HEADER then Some(Corrupt)
    else if h.length - HEADER > maxPayload then Some(Exhausted)
    else if |file| < h.length then None
    else if ChecksumOf(file[HEADER..h.length]) != h.crc then Some(Corrupt)
    else if last.Some? && h.sequence <= last.value then Some(Corrupt)
    else if h.kind < 1 || h.kind > KINDS then Some(Corrupt)
    else None
  }

  function Scan(file: seq<Byte>, maxPayload: nat, last: Option<nat>): Scanned
    decreases |file|
  {
    if |file| < HEADER then Read([], |file|)
    else if HeadObjection(file, maxPayload, last).Some? then Refused(HeadObjection(file, maxPayload, last).value)
    else
      var h := HeaderOf(file);
      if |file| < h.length then Read([], |file|)
      else
        match Scan(file[h.length..], maxPayload, Some(h.sequence))
        case Refused(error) => Refused(error)
        case Read(records, torn) => Read([JournalRecord(h.kind, h.sequence, file[HEADER..h.length])] + records, torn)
  }

  /** Largest journal file that is read at all, one gibibyte. */
  const JOURNAL_FILE_LIMIT := 0x4000_0000

  /** A journal file as it is read when the store opens. */
  function ReadJournalFile(file: seq<Byte>, maxPayload: nat): Scanned {
    if |file| > JOURNAL_FILE_LIMIT then Refused(Exhausted) else Scan(file, maxPayload, None)
  }

  /** Reads a whole journal file; `good` is where the complete records end. */
  method ReadJournal(file: seq<Byte>, maxPayload: nat) returns (result: Scanned, good: nat)
    ensures result == ReadJournalFile(file, maxPayload)
    ensures result.Read? ==> good + result.torn == |file|
  {
    hide ChecksumOf, FromLittle;
    if |file| > JOURNAL_FILE_LIMIT { return Refused(Exhausted), 0; }
    var records: seq<JournalRecord>, offset: nat := [], 0;
    var last: Option<nat> := None;
    assert file[0..] == file;
    while |file| - offset >= HEADER
      invariant offset <= |file|
      invariant Scan(file, maxPayload, None) == Behind(records, Scan(file[offset..], maxPayload, last))
      decreases |file| - offset
    {
      var rest := file[offset..];
      var length, sequence := FromLittle(rest[4..8]), FromLittle(rest[8..16]);
      var kind, crc := FromLittle(rest[16..18]), FromLittle(rest[18..22]);
      if rest[..4] != JOURNAL_MAGIC { return Refused(Corrupt), offset; }
      if length < HEADER { return Refused(Corrupt), offset; }
      if length - HEADER > maxPayload { return Refused(Exhausted), offset; }
      if |file| - offset < length { return Read(records, |rest|), offset; }
      var payload := rest[HEADER..length];
      if ChecksumOf(payload) != crc { return Refused(Corrupt), offset; }
      if last.Some? && sequence <= last.value { return Refused(Corrupt), offset; }
      if kind < 1 || kind > KINDS { return Refused(Corrupt), offset; }
      last := Some(sequence);
      BehindNext(records, JournalRecord(kind, sequence, payload), Scan(rest[length..], maxPayload, last));
      assert rest[length..] == file[offset + length..];
      records := records + [JournalRecord(kind, sequence, payload)];
      offset := offset + length;
    }
    return Read(records, |file| - offset), offset;
  }

  /** A scan seen behind records already read. */
  function Behind(records: seq<JournalRecord>, rest: Scanned): Scanned {
    match rest
    case Refused(error) => Refused(error)
    case Read(more, torn) => Read(records + more, torn)
  }

  lemma BehindNext(records: seq<JournalRecord>, r: JournalRecord, rest: Scanned)
    ensures Behind(records, Behind([r], rest)) == Behind(records + [r], rest)
  {
    if rest.Read? { assert records + ([r] + rest.records) == records + [r] + rest.records; }
  }

  // ---------------------------------------------------------------------------
  // What a frame reads as
  // ---------------------------------------------------------------------------

  lemma Slices(a: seq<Byte>, b: seq<Byte>, c: seq<Byte>, d: seq<Byte>, e: seq<Byte>, rest: seq<Byte>)
    requires |a| == 4 && |b| == 4 && |c| == 8 && |d| == 2 && |e| == 4
    ensures var f := a + b + c + d + e + rest;
            f[..4] == a && f[4..8] == b && f[8..16] == c && f[16..18] == d && f[18..22] == e && f[22..] == rest
  {
    var ab := a + b;
    var abc, de := ab + c, d + e;
    var f := a + b + c + d + e + rest;
    assert abc[..4] == a && abc[4..8] == b && abc[8..16] == c;
    assert f[..16] == abc;
    assert f[16..18] == d && f[18..22] == e && f[22..] == rest;
    assert f[..4] == f[..16][..4] && f[4..8] == f[..16][4..8] && f[8..16] == f[..16][8..16];
  }

  lemma FrameParts(r: JournalRecord)
    ensures var f := Frame(r);
            && f[..4] == JOURNAL_MAGIC && f[4..8] == Little(HEADER + |r.payload|, 4)
            && f[8..16] == Little(r.sequence, 8)
            && f[16..18] == Little(r.kind, 2) && f[18..22] == Little(ChecksumOf(r.payload), 4)
            && f[HEADER..] == r.payload
  {
    hide Little, ChecksumOf;
    LittleRoundTrip(HEADER + |r.payload|, 4);
    LittleRoundTrip(r.sequence, 8);
    LittleRoundTrip(r.kind, 2);
    LittleRoundTrip(ChecksumOf(r.payload), 4);
    Slices(JOURNAL_MAGIC, Little(HEADER + |r.payload|, 4), Little(r.sequence, 8), Little(r.kind, 2),
           Little(ChecksumOf(r.payload), 4), r.payload);
  }

  lemma NumbersReadBack(r: JournalRecord)
    requires r.kind < 0x1_0000 && r.sequence < 0x1_0000_0000_0000_0000 && HEADER + |r.payload| < 0x1_0000_0000
    ensures FromLittle(Little(HEADER + |r.payload|, 4)) == HEADER + |r.payload|
            && FromLittle(Little(r.sequence, 8)) == r.sequence
    ensures FromLittle(Little(r.kind, 2)) == r.kind
            && FromLittle(Little(ChecksumOf(r.payload), 4)) == ChecksumOf(r.payload)
  {
    hide Little, ChecksumOf, FromLittle;
    Widths();
    ChecksumFits(r.payload);
    LittleRoundTrip(HEADER + |r.payload|, 4);
    LittleRoundTrip(r.sequence, 8);
    LittleRoundTrip(r.kind, 2);
    LittleRoundTrip(ChecksumOf(r.payload), 4);
  }

  lemma SameHeader(file: seq<Byte>, f: seq<Byte>)
    requires |file| >= HEADER && |f| >= HEADER && f[..HEADER] == file[..HEADER]
    ensures file[..4] == f[..4] && HeaderOf(file) == HeaderOf(f)
  {
    var h := file[..HEADER];
    assert file[..4] == h[..4] && file[4..8] == h[4..8] && file[8..16] == h[8..16];
    assert file[16..18] == h[16..18] && file[18..22] == h[18..22];
    assert f[..4] == h[..4] && f[4..8] == h[4..8] && f[8..16] == h[8..16];
    assert f[16..18] == h[16..18] && f[18..22] == h[18..22];
    hide FromLittle;
  }

  lemma FrameHeaderOf(r: JournalRecord, file: seq<Byte>)
    requires r.kind < 0x1_0000 && r.sequence < 0x1_0000_0000_0000_0000 && HEADER + |r.payload| < 0x1_0000_0000
    requires |file| >= HEADER && Frame(r)[..HEADER] == file[..HEADER]
    ensures file[..4] == JOURNAL_MAGIC
    ensures HeaderOf(file) == Header(HEADER + |r.payload|, r.sequence, r.kind, ChecksumOf(r.payload))
  {
    hide Little, ChecksumOf, FromLittle, Frame;
    NumbersReadBack(r);
    FrameParts(r);
    SameHeader(file, Frame(r));
  }

  /** How many leading records lie completely within the first `n` bytes. */
  function Complete(rs: seq<JournalRecord>, n: nat): nat
    decreases |rs|
  {
    if rs == [] || n < |Frame(rs[0])| then 0 else 1 + Complete(rs[1..], n - |Frame(rs[0])|)
  }

  /** `Complete` is the longest run of whole records. */
  lemma {:induction false} CompleteIsLongest(rs: seq<JournalRecord>, n: nat)
    ensures var k := Complete(rs, n);
            && k <= |rs| && |Journal(rs[..k])| <= n
            && (k < |rs| ==> n < |Journal(rs[..k + 1])|)
            && (n <= |Journal(rs)| ==> Journal(rs[..k]) <= Journal(rs))
    decreases |rs|
  {
    hide Frame;
    if rs != [] && n >= |Frame(rs[0])| {
      var m := n - |Frame(rs[0])|;
      CompleteIsLongest(rs[1..], m);
      var k := Complete(rs[1..], m);
      hide Complete;
      JournalStarts(rs, k);
      if k < |rs[1..]| { JournalStarts(rs, k + 1); }
    } else {
      assert rs[..0] == [];
      if rs != [] { OneFrame(rs[0]); assert rs[..1] == [rs[0]]; }
    }
  }

  lemma OneFrame(r: JournalRecord)
    ensures Journal([r]) == Frame(r)
  {
    hide Frame;
    assert [r][1..] == [];
  }

  lemma JournalStarts(rs: seq<JournalRecord>, k: nat)
    requires rs != [] && k <= |rs[1..]|
    ensures Journal(rs[..k + 1]) == Frame(rs[0]) + Journal(rs[1..][..k])
    ensures Journal(rs[1..][..k]) <= Journal(rs[1..]) ==> Journal(rs[..k + 1]) <= Journal(rs)
  {
    hide Frame;
    assert rs[..k + 1][1..] == rs[1..][..k];
    var a, b, c := Frame(rs[0]), Journal(rs[1..]), Journal(rs[1..][..k]);
    hide Journal;
    if c <= b { assert b == c + b[|c|..]; assert a + b == (a + c) + b[|c|..]; }
  }

  /** A sound frame at the head of a prefix: torn, or read and passed. */
  lemma FrameScans(r: JournalRecord, tail: seq<Byte>, n: nat, maxPayload: nat, last: Option<nat>)
    requires Sound(r, maxPayload) && n <= |Frame(r) + tail| && (last.Some? ==> last.value < r.sequence)
    ensures Scan((Frame(r) + tail)[..n], maxPayload, last) ==
            if n < |Frame(r)| then Read([], n)
               else Behind([r], Scan(tail[..n - |Frame(r)|], maxPayload, Some(r.sequence)))
  {
    hide Frame, HeadObjection, HeaderOf, ChecksumOf;
    if n >= HEADER { HeadReads(r, tail, n, maxPayload, last); }
  }

  /**
   Any byte prefix of a journal reads as exactly its longest run of complete
   records; the bytes behind them are counted as torn.
   */
  lemma {:induction false} PrefixReads(rs: seq<JournalRecord>, n: nat, maxPayload: nat, last: Option<nat>)
    requires SoundAll(rs, maxPayload) && InSequence(rs, last) && n <= |Journal(rs)|
    ensures CompleteWithin(rs, n)
    ensures var k := Complete(rs, n); Scan(Journal(rs)[..n], maxPayload, last) == Read(rs[..k], n - |Journal(rs[..k])|)
    decreases |rs|
  {
    hide Frame, Sound, HeadObjection, HeaderOf, Scan, Journal;
    CompleteIsLongest(rs, n);
    JournalHead(rs);
    if rs == [] {
      NothingReads(maxPayload, last);
      assert rs[..0] == [];
    } else {
      var r, tail := rs[0], Journal(rs[1..]);
      FrameScans(r, tail, n, maxPayload, last);
      if n >= |Frame(r)| {
        var m := n - |Frame(r)|;
        SoundPart(rs, 1, maxPayload);
        PrefixReads(rs[1..], m, maxPayload, Some(r.sequence));
        var k := Complete(rs[1..], m);
        JournalStarts(rs, k);
        assert rs[..k + 1] == [r] + rs[1..][..k];
      } else {
        assert rs[..0] == [];
      }
    }
  }

  lemma JournalHead(rs: seq<JournalRecord>)
    ensures Journal([]) == []
    ensures rs != [] ==> Journal(rs) == Frame(rs[0]) + Journal(rs[1..])
  {
  }

  lemma NothingReads(maxPayload: nat, last: Option<nat>)
    ensures Scan([], maxPayload, last) == Read([], 0)
  {
  }

  predicate CompleteWithin(rs: seq<JournalRecord>, n: nat) {
    Complete(rs, n) <= |rs| && |Journal(rs[..Complete(rs, n)])| <= n
  }

  /** The head of a prefix that starts with a sound frame. */
  lemma HeadReads(r: JournalRecord, tail: seq<Byte>, n: nat, maxPayload: nat, last: Option<nat>)
    requires Sound(r, maxPayload) && HEADER <= n <= |Frame(r) + tail| && (last.Some? ==> last.value < r.sequence)
    ensures var file := (Frame(r) + tail)[..n];
            && HeadObjection(file, maxPayload, last) == None
            && HeaderOf(file) == Header(|Frame(r)|, r.sequence, r.kind, ChecksumOf(r.payload))
            && (n >= |Frame(r)| ==>
                  file[HEADER..|Frame(r)|] == r.payload && file[|Frame(r)|..] == tail[..n - |Frame(r)|])
  {
    hide Frame, ChecksumOf, HeaderOf;
    var file := (Frame(r) + tail)[..n];
    FrameBefore(Frame(r), tail, n);
    FrameParts(r);
    FrameHeaderOf(r, file);
  }

  lemma FrameBefore(f: seq<Byte>, tail: seq<Byte>, n: nat)
    requires |f| >= HEADER && HEADER <= n <= |f + tail|
    ensures var file := (f + tail)[..n];
            && f[..HEADER] == file[..HEADER]
            && (n >= |f| ==> file[HEADER..|f|] == f[HEADER..] && file[|f|..] == tail[..n - |f|])
  {
  }

  /** A whole journal reads as its records. */
  lemma WholeReads(rs: seq<JournalRecord>, maxPayload: nat, last: Option<nat>)
    requires SoundAll(rs, maxPayload) && InSequence(rs, last)
    ensures Scan(Journal(rs), maxPayload, last) == Read(rs, 0)
  {
    hide Scan, Journal, Complete, SoundAll, InSequence;
    PrefixReads(rs, |Journal(rs)|, maxPayload, last);
    CompleteAll(rs);
    assert Journal(rs)[..|Journal(rs)|] == Journal(rs) && rs[..|rs|] == rs;
  }

  /** After truncating the torn tail away the file reads the same, without a torn tail. */
  lemma TruncatedReads(rs: seq<JournalRecord>, n: nat, maxPayload: nat)
    requires SoundAll(rs, maxPayload) && InSequence(rs, None) && n <= |Journal(rs)|
    ensures var file := Journal(rs)[..n]; var scanned := Scan(file, maxPayload, None);
            && scanned.Read? && scanned.torn <= n
            && file[..n - scanned.torn] == Journal(scanned.records)
            && Scan(file[..n - scanned.torn], maxPayload, None) == Read(scanned.records, 0)
  {
    hide *;
    PrefixReads(rs, n, maxPayload, None);
    CompleteIsLongest(rs, n);
    var k := Complete(rs, n);
    RisingPart(rs, k, None);
    SoundPart(rs, k, maxPayload);
    WholeReads(rs[..k], maxPayload, None);
    assert Journal(rs)[..n][..|Journal(rs[..k])|] == Journal(rs[..k]);
  }

  lemma SoundPart(rs: seq<JournalRecord>, k: nat, maxPayload: nat)
    requires SoundAll(rs, maxPayload) && k <= |rs|
    ensures SoundAll(rs[..k], maxPayload) && SoundAll(rs[k..], maxPayload)
  {
    hide Sound;
  }

  lemma {:induction false} CompleteAll(rs: seq<JournalRecord>)
    ensures Complete(rs, |Journal(rs)|) == |rs|
  {
    if rs != [] { CompleteAll(rs[1..]); }
  }

  lemma {:induction false} RisingPart(rs: seq<JournalRecord>, k: nat, last: Option<nat>)
    requires k <= |rs| && InSequence(rs, last)
    ensures InSequence(rs[..k], last)
    decreases |rs|
  {
    if k > 0 {
      RisingPart(rs[1..], k - 1, Some(rs[0].sequence));
      assert rs[..k][1..] == rs[1..][..k - 1];
    }
  }

  /** A record at the head of an accepted file. */
  function HeadRecord(file: seq<Byte>): JournalRecord
    requires |file| >= HEADER && HEADER <= HeaderOf(file).length <= |file|
  {
    JournalRecord(HeaderOf(file).kind, HeaderOf(file).sequence, file[HEADER..HeaderOf(file).length])
  }

  lemma ScanStep(file: seq<Byte>, maxPayload: nat, last: Option<nat>)
    requires Scan(file, maxPayload, last).Read?
    ensures |file| < HEADER || HeaderOf(file).length > |file| ==> Scan(file, maxPayload, last) == Read([], |file|)
    ensures |file| >= HEADER && HeaderOf(file).length <= |file| ==>
      && HeadObjection(file, maxPayload, last) == None && HEADER <= HeaderOf(file).length
      && Scan(file, maxPayload, last) == Behind([HeadRecord(file)],
                                                Scan(file[HeaderOf(file).length..], maxPayload,
                                                     Some(HeadRecord(file).sequence)))
  {
    hide HeaderOf, ChecksumOf;
  }

  /** Nothing is made up: an accepted file is the journal of the records read, then the torn bytes. */
  lemma {:induction false} ReadsOnlyFrames(file: seq<Byte>, maxPayload: nat, last: Option<nat>)
    requires Scan(file, maxPayload, last).Read?
    ensures var s := Scan(file, maxPayload, last);
            && s.torn <= |file| && file[..|file| - s.torn] == Journal(s.records)
            && SoundAll(s.records, maxPayload) && InSequence(s.records, last)
    decreases |file|
  {
    hide Scan, HeadRecord, HeaderOf, HeadObjection, Frame, Sound;
    ScanStep(file, maxPayload, last);
    if |file| >= HEADER && HeaderOf(file).length <= |file| {
      var r, n := HeadRecord(file), HeaderOf(file).length;
      ReadsOnlyFrames(file[n..], maxPayload, Some(r.sequence));
      HeadIsFrame(file, maxPayload, last);
      var s := Scan(file[n..], maxPayload, Some(r.sequence));
      assert ([r] + s.records)[1..] == s.records;
      assert file[..|file| - s.torn] == file[..n] + file[n..][..|file| - n - s.torn];
    }
  }

  lemma Joined(h: seq<Byte>)
    requires |h| == HEADER
    ensures h == h[..4] + h[4..8] + h[8..16] + h[16..18] + h[18..22]
  {
  }

  lemma HeadFields(file: seq<Byte>)
    requires |file| >= HEADER
    ensures var h := HeaderOf(file);
            && Little(h.length, 4) == file[4..8] && Little(h.sequence, 8) == file[8..16]
            && Little(h.kind, 2) == file[16..18] && Little(h.crc, 4) == file[18..22]
            && h.sequence < 0x1_0000_0000_0000_0000
            && h.length < 0x1_0000_0000
  {
    hide Little, Pow256, FromLittle, ChecksumOf;
    Widths();
    LittleBack(file[4..8]);
    LittleBack(file[8..16]);
    LittleBack(file[16..18]);
    LittleBack(file[18..22]);
  }

  lemma HeadIsFrame(file: seq<Byte>, maxPayload: nat, last: Option<nat>)
    requires |file| >= HEADER && HeadObjection(file, maxPayload, last) == None
             && HEADER <= HeaderOf(file).length <= |file|
    ensures var r := HeadRecord(file);
            && Frame(r) == file[..HeaderOf(file).length] && Sound(r, maxPayload)
            && (last.Some? ==> last.value < r.sequence)
  {
    hide *;
    SoundHead(file, maxPayload, last);
    HeaderIs(file, maxPayload, last);
    FrameIs(HeadRecord(file));
    HeadPayload(file);
    Rejoined(file, HeaderOf(file).length);
  }

  lemma FrameIs(r: JournalRecord)
    ensures Frame(r) == FrameHeader(r) + r.payload
  {
  }

  lemma HeadPayload(file: seq<Byte>)
    requires |file| >= HEADER && HEADER <= HeaderOf(file).length <= |file|
    ensures HeadRecord(file).payload == file[HEADER..HeaderOf(file).length]
  {
    hide HeaderOf;
  }

  lemma Rejoined(file: seq<Byte>, n: nat)
    requires HEADER <= n <= |file|
    ensures file[..n] == file[..HEADER] + file[HEADER..n]
  {
  }

  lemma SoundHead(file: seq<Byte>, maxPayload: nat, last: Option<nat>)
    requires |file| >= HEADER && HeadObjection(file, maxPayload, last) == None
             && HEADER <= HeaderOf(file).length <= |file|
    ensures var r := HeadRecord(file); Sound(r, maxPayload) && (last.Some? ==> last.value < r.sequence)
  {
    hide ChecksumOf, HeaderOf, FromLittle, Little;
    HeadFields(file);
  }

  lemma HeaderIs(file: seq<Byte>, maxPayload: nat, last: Option<nat>)
    requires |file| >= HEADER && HeadObjection(file, maxPayload, last) == None
             && HEADER <= HeaderOf(file).length <= |file|
    ensures FrameHeader(HeadRecord(file)) == file[..HEADER]
  {
    hide Little, ChecksumOf, HeaderOf, FromLittle;
    HeadFields(file);
    HeadSlices(file);
  }

  lemma HeadSlices(file: seq<Byte>)
    requires |file| >= HEADER
    ensures file[..HEADER] == file[..4] + file[4..8] + file[8..16] + file[16..18] + file[18..22]
  {
    var h := file[..HEADER];
    Joined(h);
    assert h[..4] == file[..4] && h[4..8] == file[4..8] && h[8..16] == file[8..16];
    assert h[16..18] == file[16..18] && h[18..22] == file[18..22];
  }

  /** One changed payload byte of one complete record makes the whole file refused as corrupt. */
  lemma {:induction false} ChangedByteRefused(rs: seq<JournalRecord>, tail: seq<Byte>, i: nat, j: nat, value: Byte,
                                              maxPayload: nat, last: Option<nat>)
    requires SoundAll(rs, maxPayload) && InSequence(rs, last) && i < |rs| && j < |rs[i].payload|
             && value != rs[i].payload[j]
    ensures var at := |Journal(rs[..i])| + HEADER + j;
            at < |Journal(rs)| && Scan((Journal(rs) + tail)[at := value], maxPayload, last) == Refused(Corrupt)
    decreases i
  {
    hide Frame, Sound, HeadObjection, HeaderOf, Scan;
    var r, rest := rs[0], Journal(rs[1..]) + tail;
    assert Journal(rs) + tail == Frame(r) + rest;
    if i == 0 {
      assert rs[..0] == [];
      ChangedHead(r, rest, j, value, maxPayload, last);
    } else {
      assert SoundAll(rs[1..], maxPayload);
      ChangedByteRefused(rs[1..], tail, i - 1, j, value, maxPayload, Some(r.sequence));
      JournalStarts(rs, i - 1);
      hide Journal;
      var at := |Journal(rs[1..][..i - 1])| + HEADER + j;
      ChangedBehind(r, rest, at, value, maxPayload, last);
    }
  }

  lemma ChangedBehind(r: JournalRecord, rest: seq<Byte>, at: nat, value: Byte, maxPayload: nat, last: Option<nat>)
    requires Sound(r, maxPayload) && (last.Some? ==> last.value < r.sequence) && at < |rest|
    ensures Scan((Frame(r) + rest)[|Frame(r)| + at := value], maxPayload, last) ==
            Behind([r], Scan(rest[at := value], maxPayload, Some(r.sequence)))
  {
    hide Frame, Sound, HeadObjection, HeaderOf, Scan;
    var changed := rest[at := value];
    assert (Frame(r) + rest)[|Frame(r)| + at := value] == Frame(r) + changed;
    FrameScans(r, changed, |Frame(r) + changed|, maxPayload, last);
    assert (Frame(r) + changed)[..|Frame(r) + changed|] == Frame(r) + changed;
    assert changed[..|changed|] == changed;
  }

  lemma ChangedHead(r: JournalRecord, rest: seq<Byte>, j: nat, value: Byte, maxPayload: nat, last: Option<nat>)
    requires Sound(r, maxPayload) && j < |r.payload| && value != r.payload[j]
    ensures Scan((Frame(r) + rest)[HEADER + j := value], maxPayload, last) == Refused(Corrupt)
  {
    hide Frame, ChecksumOf, HeaderOf;
    var file := (Frame(r) + rest)[HEADER + j := value];
    FrameParts(r);
    ChangedWithin(Frame(r), rest, j, value);
    FrameHeaderOf(r, file);
    ChecksumShows(r.payload, j, value);
  }

  lemma ChangedWithin(f: seq<Byte>, rest: seq<Byte>, j: nat, value: Byte)
    requires HEADER + j < |f|
    ensures var file := (f + rest)[HEADER + j := value];
            f[..HEADER] == file[..HEADER] && file[HEADER..|f|] == f[HEADER..][j := value]
  {
  }
}

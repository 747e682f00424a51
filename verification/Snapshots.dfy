/** The snapshot file: one sealed image of the state, with the sequence number it reaches up to. */
module Snapshots {
  import opened Timeline
  import opened Crc32c
  import opened Framing

  const SNAPSHOT_MAGIC: seq<Byte> := [0x42, 0x52, 0x46, 0x53]
  const SEAL: seq<Byte> := [0x53, 0x45, 0x41, 0x4C]
  const SNAPSHOT_HEADER := 32
  const SNAPSHOT_FOOTER := 8

  /** The header up to its own checksum. */
  function SnapshotStem(reserved: seq<Byte>, sequence: nat, payload: seq<Byte>): seq<Byte> {
    SNAPSHOT_MAGIC + Little(FORMAT_VERSION, 2) + reserved + Little(sequence, 8) + Little(|payload|, 8)
        + Little(ChecksumOf(payload), 4)
  }

  function Unsealed(reserved: seq<Byte>, sequence: nat, payload: seq<Byte>): seq<Byte> {
    var stem := SnapshotStem(reserved, sequence, payload);
    stem + Little(ChecksumOf(stem), 4) + payload + SEAL
  }

  function Sealed(bytes: seq<Byte>): seq<Byte> { bytes + Little(ChecksumOf(bytes), 4) }

  /** The file the store writes: the reserved field is zero. */
  function SnapshotFile(sequence: nat, payload: seq<Byte>): seq<Byte> {
    Sealed(Unsealed(Little(0, 2), sequence, payload))
  }

  datatype Loading = Loaded(sequence: nat, payload: seq<Byte>) | NotLoaded(error: ReadError)

  function ReadSnapshot(file: seq<Byte>): Loading {
    if |file| < SNAPSHOT_HEADER + SNAPSHOT_FOOTER then NotLoaded(Corrupt)
    else if file[..4] != SNAPSHOT_MAGIC then NotLoaded(Corrupt)
    else if FromLittle(file[4..6]) != FORMAT_VERSION then NotLoaded(Unsupported)
    else
      var sequence, length := FromLittle(file[8..16]), FromLittle(file[16..24]);
      if FromLittle(file[28..32]) != ChecksumOf(file[..28]) then NotLoaded(Corrupt)
      else if length > |file| - SNAPSHOT_HEADER - SNAPSHOT_FOOTER then NotLoaded(Corrupt)
      else if |file| != SNAPSHOT_HEADER + length + SNAPSHOT_FOOTER then NotLoaded(Corrupt)
      else
        var payload := file[SNAPSHOT_HEADER..SNAPSHOT_HEADER + length];
        if ChecksumOf(payload) != FromLittle(file[24..28]) then NotLoaded(Corrupt)
        else if file[|file| - 8..|file| - 4] != SEAL then NotLoaded(Corrupt)
        else if FromLittle(file[|file| - 4..]) != ChecksumOf(file[..|file| - 4]) then NotLoaded(Corrupt)
        else Loaded(sequence, payload)
  }

  /** Largest snapshot file that is read at all, 256 mebibytes. */
  const SNAPSHOT_FILE_LIMIT := 0x1000_0000

  /** The snapshot file as it is read when the store opens. */
  function ReadSnapshotFile(file: seq<Byte>): Loading {
    if |file| > SNAPSHOT_FILE_LIMIT then NotLoaded(Exhausted) else ReadSnapshot(file)
  }

  /** A sealed payload is read back exactly when header, seal and payload together stay within the limit. */
  lemma SnapshotReopens(sequence: nat, payload: seq<Byte>)
    requires sequence < U64_LIMIT && |payload| < U64_LIMIT
    ensures |SnapshotFile(sequence, payload)| == |payload| + SNAPSHOT_HEADER + SNAPSHOT_FOOTER
    ensures ReadSnapshotFile(SnapshotFile(sequence, payload))
            == if |payload| + SNAPSHOT_HEADER + SNAPSHOT_FOOTER <= SNAPSHOT_FILE_LIMIT then Loaded(sequence, payload)
                else NotLoaded(Exhausted)
  {
    hide ReadSnapshot, Unsealed, Sealed;
    LittleRoundTrip(0, 2);
    SealedParts(Little(0, 2), sequence, payload);
    SnapshotReadsBack(sequence, payload);
  }

  lemma Numbers(sequence: nat, payload: seq<Byte>)
    ensures |Little(FORMAT_VERSION, 2)| == 2 && |Little(sequence, 8)| == 8 && |Little(|payload|, 8)| == 8
    ensures |Little(ChecksumOf(payload), 4)| == 4 && FromLittle(Little(ChecksumOf(payload), 4)) == ChecksumOf(payload)
    ensures FromLittle(Little(FORMAT_VERSION, 2)) == FORMAT_VERSION
    ensures sequence < U64_LIMIT ==> FromLittle(Little(sequence, 8)) == sequence
    ensures |payload| < U64_LIMIT ==> FromLittle(Little(|payload|, 8)) == |payload|
  {
    Widths();
    ChecksumFits(payload);
    LittleRoundTrip(FORMAT_VERSION, 2);
    LittleRoundTrip(sequence, 8);
    LittleRoundTrip(|payload|, 8);
    LittleRoundTrip(ChecksumOf(payload), 4);
  }

  lemma StemSlices(a: seq<Byte>, b: seq<Byte>, c: seq<Byte>, d: seq<Byte>, e: seq<Byte>, g: seq<Byte>)
    requires |a| == 4 && |b| == 2 && |c| == 2 && |d| == 8 && |e| == 8 && |g| == 4
    ensures var s := a + b + c + d + e + g;
            |s| == 28 && s[..4] == a && s[4..6] == b && s[6..8] == c && s[8..16] == d && s[16..24] == e
                && s[24..28] == g
  {
    var abc, deg := a + b + c, d + (e + g);
    assert a + b + c + d + e + g == abc + deg;
    assert deg[..8] == d && deg[8..16] == e && deg[16..20] == g;
  }

  lemma FileSlices(stem: seq<Byte>, check: seq<Byte>, payload: seq<Byte>, seal: seq<Byte>, last: seq<Byte>)
    requires |stem| == 28 && |check| == 4 && |seal| == 4 && |last| == 4
    ensures var f := stem + check + payload + seal + last; var n := |f|;
            && n == 40 + |payload| && f[..28] == stem && f[28..32] == check && f[32..32 + |payload|] == payload
            && f[n - 8..n - 4] == seal && f[n - 4..] == last && f[..n - 4] == stem + check + payload + seal
  {
  }

  lemma InFirst(f: seq<Byte>, stem: seq<Byte>)
    requires |f| >= 28 && f[..28] == stem
    ensures f[..4] == stem[..4] && f[4..6] == stem[4..6] && f[6..8] == stem[6..8]
    ensures f[8..16] == stem[8..16] && f[16..24] == stem[16..24] && f[24..28] == stem[24..28]
  {
  }

  lemma StemParts(reserved: seq<Byte>, sequence: nat, payload: seq<Byte>)
    requires |reserved| == 2
    ensures var s := SnapshotStem(reserved, sequence, payload);
            && |s| == 28 && s[..4] == SNAPSHOT_MAGIC && s[4..6] == Little(FORMAT_VERSION, 2) && s[6..8] == reserved
            && s[8..16] == Little(sequence, 8) && s[16..24] == Little(|payload|, 8)
            && s[24..28] == Little(ChecksumOf(payload), 4)
  {
    Numbers(sequence, payload);
    hide Little, ChecksumOf, FromLittle;
    StemSlices(SNAPSHOT_MAGIC, Little(FORMAT_VERSION, 2), reserved, Little(sequence, 8), Little(|payload|, 8),
               Little(ChecksumOf(payload), 4));
  }

  lemma FourBytes(n: nat)
    ensures |Little(n, 4)| == 4
  {
    LittleRoundTrip(n, 4);
  }

  /** The parts of a sealed file, whatever its reserved field. */
  lemma SealedParts(reserved: seq<Byte>, sequence: nat, payload: seq<Byte>)
    requires |reserved| == 2
    ensures var stem := SnapshotStem(reserved, sequence, payload);
    var u := Unsealed(reserved, sequence, payload);
    var f := Sealed(u);
    var n := |f|;
            && |stem| == 28 && n == 40 + |payload| && f[..28] == stem && f[28..32] == Little(ChecksumOf(stem), 4)
            && f[32..32 + |payload|] == payload
            && f[n - 8..n - 4] == SEAL && f[n - 4..] == Little(ChecksumOf(u), 4) && f[..n - 4] == u
  {
    StemParts(reserved, sequence, payload);
    hide Little, ChecksumOf, SnapshotStem;
    var stem, u := SnapshotStem(reserved, sequence, payload), Unsealed(reserved, sequence, payload);
    FourBytes(ChecksumOf(stem));
    FourBytes(ChecksumOf(u));
    FileSlices(stem, Little(ChecksumOf(stem), 4), payload, SEAL, Little(ChecksumOf(u), 4));
  }

  lemma ChecksumReadsBack(bytes: seq<Byte>)
    ensures FromLittle(Little(ChecksumOf(bytes), 4)) == ChecksumOf(bytes)
  {
    Numbers(0, bytes);
  }

  /** What is sealed is read back, whatever the reserved field holds. */
  lemma SealedReadsBack(reserved: seq<Byte>, sequence: nat, payload: seq<Byte>)
    requires |reserved| == 2 && sequence < U64_LIMIT && |payload| < U64_LIMIT
    ensures ReadSnapshot(Sealed(Unsealed(reserved, sequence, payload))) == Loaded(sequence, payload)
  {
    hide Little, ChecksumOf, FromLittle, SnapshotStem, Unsealed, Sealed;
    var stem, u := SnapshotStem(reserved, sequence, payload), Unsealed(reserved, sequence, payload);
    SealedParts(reserved, sequence, payload);
    StemParts(reserved, sequence, payload);
    InFirst(Sealed(u), stem);
    Numbers(sequence, payload);
    ChecksumReadsBack(stem);
    ChecksumReadsBack(u);
  }

  lemma SnapshotReadsBack(sequence: nat, payload: seq<Byte>)
    requires sequence < U64_LIMIT && |payload| < U64_LIMIT
    ensures ReadSnapshot(SnapshotFile(sequence, payload)) == Loaded(sequence, payload)
  {
    hide ReadSnapshot, Unsealed, Sealed;
    LittleRoundTrip(0, 2);
    SealedReadsBack(Little(0, 2), sequence, payload);
  }

  lemma NumbersBack(file: seq<Byte>)
    requires |file| >= 32
    ensures Little(FromLittle(file[4..6]), 2) == file[4..6] && Little(FromLittle(file[8..16]), 8) == file[8..16]
    ensures Little(FromLittle(file[16..24]), 8) == file[16..24] && Little(FromLittle(file[24..28]), 4) == file[24..28]
    ensures Little(FromLittle(file[28..32]), 4) == file[28..32]
            && Little(FromLittle(file[|file| - 4..]), 4) == file[|file| - 4..]
  {
    hide Little, FromLittle;
    LittleBack(file[4..6]);
    LittleBack(file[8..16]);
    LittleBack(file[16..24]);
    LittleBack(file[24..28]);
    LittleBack(file[28..32]);
    LittleBack(file[|file| - 4..]);
  }

  lemma Assembled(file: seq<Byte>, length: nat)
    requires |file| == 40 + length
    ensures file[..28] == file[..4] + file[4..6] + file[6..8] + file[8..16] + file[16..24] + file[24..28]
    ensures file[..|file| - 4] == file[..28] + file[28..32] + file[32..32 + length] + file[|file| - 8..|file| - 4]
    ensures file == file[..|file| - 4] + file[|file| - 4..]
  {
    var stem := file[..28];
    assert stem == stem[..4] + stem[4..6] + stem[6..8] + stem[8..16] + stem[16..24] + stem[24..28];
    InFirst(file, stem);
  }

  /** An accepted file is the sealed image of what was read from it, but for its reserved field. */
  lemma LoadedIsSealed(file: seq<Byte>)
    requires ReadSnapshot(file).Loaded?
    ensures |file| >= 32 && file
            == Sealed(Unsealed(file[6..8], ReadSnapshot(file).sequence, ReadSnapshot(file).payload))
  {
    hide Little, ChecksumOf, FromLittle;
    NumbersBack(file);
    Assembled(file, FromLittle(file[16..24]));
  }

  /**
   An accepted file is the one the store writes exactly when its reserved field is zero: nothing checks that field.
   */
  lemma LoadedIsWritten(file: seq<Byte>)
    requires ReadSnapshot(file).Loaded?
    ensures |file| >= 8
    ensures file == SnapshotFile(ReadSnapshot(file).sequence, ReadSnapshot(file).payload) <==>
      file[6..8] == Little(0, 2)
  {
    hide ReadSnapshot, Unsealed, Sealed;
    LoadedIsSealed(file);
    LittleRoundTrip(0, 2);
    var l := ReadSnapshot(file);
    SealedParts(Little(0, 2), l.sequence, l.payload);
    StemParts(Little(0, 2), l.sequence, l.payload);
    hide Little, SnapshotStem;
    if file == SnapshotFile(l.sequence, l.payload) {
      InFirst(file, SnapshotStem(Little(0, 2), l.sequence, l.payload));
    }
  }

  /** One changed byte anywhere makes the file refused. */
  lemma ChangedSnapshotRefused(file: seq<Byte>, i: nat, value: Byte)
    requires ReadSnapshot(file).Loaded? && i < |file| && value != file[i]
    ensures ReadSnapshot(file[i := value]).NotLoaded?
  {
    hide ReadSnapshot, ChecksumOf, FromLittle;
    SealHolds(file);
    SealBroken(file, i, value);
    SealNeeded(file[i := value]);
  }

  lemma SealBroken(file: seq<Byte>, i: nat, value: Byte)
    requires |file| >= 40 && FromLittle(file[|file| - 4..]) == ChecksumOf(file[..|file| - 4]) && i < |file|
             && value != file[i]
    ensures FromLittle(file[i := value][|file| - 4..]) != ChecksumOf(file[i := value][..|file| - 4])
  {
    hide ChecksumOf, FromLittle;
    var changed, n := file[i := value], |file| - 4;
    if i < n {
      assert changed[..n] == file[..n][i := value] && changed[n..] == file[n..];
      ChecksumShows(file[..n], i, value);
    } else {
      LittleBack(file[n..]);
      LittleBack(changed[n..]);
      assert changed[..n] == file[..n] && changed[n..][i - n] != file[n..][i - n];
    }
  }

  lemma SealNeeded(file: seq<Byte>)
    requires |file| >= 40 && FromLittle(file[|file| - 4..]) != ChecksumOf(file[..|file| - 4])
    ensures ReadSnapshot(file).NotLoaded?
  {
    hide ChecksumOf, FromLittle;
  }

  lemma SealHolds(file: seq<Byte>)
    requires ReadSnapshot(file).Loaded?
    ensures |file| >= 40 && FromLittle(file[|file| - 4..]) == ChecksumOf(file[..|file| - 4])
  {
    hide ChecksumOf, FromLittle;
  }
}

/** CRC-32C: the table form, the bit-serial definition, and what a changed byte does to it. */
module Crc32c {

  type Byte = bv8

  /** The reflected polynomial 0x1EDC6F41. */
  const POLY: bv32 := 0x82F63B78

  // ---------------------------------------------------------------------------
  // Bit by bit
  // ---------------------------------------------------------------------------

  function Xor(a: bv32, b: bv32): bv32 { a ^ b }

  function Half(a: bv32): bv32 { a >> 1 }

  predicate Odd(a: bv32) { a & 1 != 0 }

  function Wide(b: Byte): bv32 { b as bv32 }

  function Shift(crc: bv32): bv32 {
    if Odd(crc) then Xor(Half(crc), POLY) else Half(crc)
  }

  /** One message bit enters the register. */
  function Feed(crc: bv32, bit: bv32): bv32 { Shift(Xor(crc, bit)) }

  function LowBit(x: bv32): bv32 { x & 1 }

  /** The bits of a byte enter lowest first. */
  function FeedBits(crc: bv32, byte: bv32, n: nat): bv32
    decreases n
  {
    if n == 0 then crc else FeedBits(Feed(crc, LowBit(byte)), Half(byte), n - 1)
  }

  function FeedAll(crc: bv32, bytes: seq<Byte>): bv32
    decreases |bytes|
  {
    if bytes == [] then crc else FeedBits(FeedAll(crc, bytes[..|bytes| - 1]), Wide(bytes[|bytes| - 1]), 8)
  }

  /** The checksum by its bit-serial definition: all ones before, complement after. */
  function Checksum(bytes: seq<Byte>): bv32 { Xor(FeedAll(0xFFFF_FFFF, bytes), 0xFFFF_FFFF) }

  // ---------------------------------------------------------------------------
  // Byte by byte
  // ---------------------------------------------------------------------------

  function Shifts(crc: bv32, n: nat): bv32 {
    if n == 0 then crc else Shift(Shifts(crc, n - 1))
  }

  function LowByte(x: bv32): bv32 { x & 0xFF }

  function UpperBytes(x: bv32): bv32 { x & 0xFFFF_FF00 }

  function ByteGone(x: bv32): bv32 { x >> 8 }

  function ByteStep(crc: bv32, byte: bv32): bv32 { Xor(Shifts(LowByte(Xor(crc, byte)), 8), ByteGone(crc)) }

  lemma Halves(a: bv32, b: bv32)
    ensures Half(Xor(a, b)) == Xor(Half(a), Half(b))
    ensures Odd(Xor(a, b)) <==> Odd(a) != Odd(b)
  {
  }

  lemma Regroup(a: bv32, b: bv32, p: bv32)
    ensures Xor(Xor(a, p), b) == Xor(Xor(a, b), p) && Xor(a, Xor(b, p)) == Xor(Xor(a, b), p)
            && Xor(Xor(a, p), Xor(b, p)) == Xor(a, b)
  {
  }

  lemma XorCancels(a: bv32, x: bv32, b: bv32, y: bv32)
    requires Xor(a, x) == Xor(b, y)
    ensures a == b <==> x == y
  {
    XorBack(a, x);
    XorBack(b, y);
    hide Xor;
  }

  lemma XorBack(a: bv32, x: bv32)
    ensures Xor(Xor(a, x), x) == a && Xor(Xor(a, x), a) == x
  {
  }

  lemma XorNothing(a: bv32)
    ensures Xor(a, 0) == a
  {
  }

  /** A shift of a sum without carry is the sum of the shifts. */
  lemma ShiftLinear(a: bv32, b: bv32)
    ensures Shift(Xor(a, b)) == Xor(Shift(a), Shift(b))
  {
    hide Xor, Half, Odd;
    Halves(a, b);
    Regroup(Half(a), Half(b), POLY);
  }

  lemma {:induction false} ShiftsLinear(a: bv32, b: bv32, n: nat)
    ensures Shifts(Xor(a, b), n) == Xor(Shifts(a, n), Shifts(b, n))
  {
    hide Shift, Xor;
    if n > 0 {
      ShiftsLinear(a, b, n - 1);
      ShiftLinear(Shifts(a, n - 1), Shifts(b, n - 1));
    }
  }

  lemma {:induction false} ShiftFirst(crc: bv32, n: nat)
    ensures Shifts(Shift(crc), n) == Shifts(crc, n + 1)
  {
    hide Shift;
    if n > 0 { ShiftFirst(crc, n - 1); }
  }

  function Halved(x: bv32, n: nat): bv32
    decreases n
  {
    if n == 0 then x else Halved(Half(x), n - 1)
  }

  /** Feeding the bits one by one or the byte at once comes to the same. */
  lemma {:induction false} FeedIsShifts(crc: bv32, byte: bv32, n: nat)
    requires Halved(byte, n) == 0
    ensures FeedBits(crc, byte, n) == Shifts(Xor(crc, byte), n)
    decreases n
  {
    hide Shift, Feed, Xor, Half, LowBit;
    if n > 0 {
      FeedIsShifts(Feed(crc, LowBit(byte)), Half(byte), n - 1);
      FedBit(crc, byte);
      ShiftFirst(Xor(crc, byte), n - 1);
    } else {
      XorNothing(crc);
    }
  }

  /** What a byte holds beyond its lowest bit. */
  function UpperBits(x: bv32): bv32 { x & 0xFFFF_FFFE }

  lemma LowBitApart(byte: bv32)
    ensures Xor(UpperBits(byte), LowBit(byte)) == byte
    ensures !Odd(UpperBits(byte)) && Half(UpperBits(byte)) == Half(byte)
  {
  }

  lemma FedBit(crc: bv32, byte: bv32)
    ensures Xor(Feed(crc, LowBit(byte)), Half(byte)) == Shift(Xor(crc, byte))
  {
    hide Xor, Half, Odd, LowBit, UpperBits;
    LowBitApart(byte);
    Regroup(crc, UpperBits(byte), LowBit(byte));
    ShiftLinear(Xor(crc, LowBit(byte)), UpperBits(byte));
  }

  predicate LowClear(x: bv32, n: nat)
    decreases n
  {
    n == 0 || (!Odd(x) && LowClear(Half(x), n - 1))
  }

  lemma {:induction false} ClearShifts(x: bv32, n: nat)
    requires LowClear(x, n)
    ensures Shifts(x, n) == Halved(x, n)
    decreases n
  {
    hide Xor, Half, Odd;
    if n > 0 {
      ShiftFirst(x, n - 1);
      ClearShifts(Half(x), n - 1);
    }
  }

  /** Eight halvings drop the low byte. */
  lemma HalvedByte(x: bv32)
    ensures Halved(x, 8) == ByteGone(x)
  {
    EightHalves(x);
    hide Half, ByteGone;
    FourHalves(x);
    FourHalves(Half(Half(Half(Half(x)))));
    HalvedOn(x, 4, 4);
  }

  lemma FourHalves(x: bv32)
    ensures Halved(x, 4) == Half(Half(Half(Half(x))))
  {
    hide Half;
    assert Halved(x, 4) == Halved(Half(x), 3) == Halved(Half(Half(x)), 2);
  }

  lemma {:induction false} HalvedOn(x: bv32, m: nat, n: nat)
    ensures Halved(x, m + n) == Halved(Halved(x, m), n)
    decreases m
  {
    hide Half;
    if m > 0 { HalvedOn(Half(x), m - 1, n); }
  }

  lemma EightHalves(x: bv32)
    ensures Half(Half(Half(Half(Half(Half(Half(Half(x)))))))) == ByteGone(x)
  {
  }

  lemma UpperClear(x: bv32)
    ensures LowClear(UpperBytes(x), 8)
  {
    var y := UpperBytes(x);
    EightEven(x);
    hide Half, Odd, UpperBytes;
    var y4 := Half(Half(Half(Half(y))));
    assert LowClear(Half(Half(Half(y4))), 1) && LowClear(Half(Half(y4)), 2);
    assert LowClear(Half(y4), 3) && LowClear(y4, 4);
    assert LowClear(Half(Half(Half(y))), 5) && LowClear(Half(Half(y)), 6);
    assert LowClear(Half(y), 7) && LowClear(y, 8);
  }

  lemma EightEven(x: bv32)
    ensures var y := UpperBytes(x);
            && !Odd(y) && !Odd(Half(y)) && !Odd(Half(Half(y))) && !Odd(Half(Half(Half(y))))
            && !Odd(Half(Half(Half(Half(y))))) && !Odd(Half(Half(Half(Half(Half(y))))))
            && !Odd(Half(Half(Half(Half(Half(Half(y))))))) && !Odd(Half(Half(Half(Half(Half(Half(Half(y))))))))
  {
  }

  lemma LowByteApart(crc: bv32, b: Byte)
    ensures var x := Xor(crc, Wide(b)); Xor(LowByte(x), UpperBytes(x)) == x && ByteGone(UpperBytes(x)) == ByteGone(crc)
    ensures ByteGone(Wide(b)) == 0
  {
  }

  /** The table step is eight bit steps. */
  lemma TableStep(crc: bv32, b: Byte)
    ensures ByteStep(crc, Wide(b)) == FeedBits(crc, Wide(b), 8)
  {
    LowByteApart(crc, b);
    hide Shifts, FeedBits, Halved, LowClear, Xor, Wide, LowByte, UpperBytes, ByteGone;
    var x := Xor(crc, Wide(b));
    HalvedByte(Wide(b));
    FeedIsShifts(crc, Wide(b), 8);
    ShiftsLinear(LowByte(x), UpperBytes(x), 8);
    UpperClear(x);
    HalvedByte(UpperBytes(x));
    ClearShifts(UpperBytes(x), 8);
  }

  lemma ShiftByHand(crc: bv32)
    ensures Shift(crc) == if crc & 1 != 0 then (crc >> 1) ^ POLY else crc >> 1
  {
  }

  /** The table: for each byte, the register after its eight shifts. */
  class Table {
    const values: array<bv32>

    ghost predicate Valid()
      reads this, values
    {
      values.Length == 256 && forall i :: 0 <= i < 256 ==> values[i] == Shifts(i as bv32, 8)
    }

    constructor ()
      ensures Valid() && fresh(values)
    {
      hide Shifts;
      values := new bv32[256];
      new;
      var i := 0;
      while i < 256
        invariant 0 <= i <= 256
        invariant forall j :: 0 <= j < i ==> values[j] == Shifts(j as bv32, 8)
      {
        values[i] := EntryOf(i as bv32);
        i := i + 1;
      }
    }

    static method EntryOf(byte: bv32) returns (crc: bv32)
      ensures crc == Shifts(byte, 8)
    {
      hide Shift;
      crc := byte;
      var bit := 0;
      while bit < 8
        invariant 0 <= bit <= 8 && crc == Shifts(byte, bit)
      {
        ShiftByHand(crc);
        crc := if crc & 1 != 0 then (crc >> 1) ^ POLY else crc >> 1;
        bit := bit + 1;
      }
    }

    /** The register after one more byte, by table lookup. */
    method Step(crc: bv32, byte: Byte) returns (next: bv32)
      requires Valid()
      ensures next == FeedBits(crc, Wide(byte), 8)
    {
      hide *;
      TableStep(crc, byte);
      StepIs(crc, Wide(byte));
      Looked(Xor(crc, Wide(byte)));
      next := Xor(values[LowByte(Xor(crc, Wide(byte))) as int], ByteGone(crc));
    }

    lemma StepIs(crc: bv32, byte: bv32)
      ensures ByteStep(crc, byte) == Xor(Shifts(LowByte(Xor(crc, byte)), 8), ByteGone(crc))
    {
    }

    lemma Looked(x: bv32)
      requires Valid()
      ensures 0 <= LowByte(x) as int < values.Length && values[LowByte(x) as int] == Shifts(LowByte(x), 8)
    {
      Lookup(x);
      hide Shifts, LowByte;
    }

    /** Checksum of a whole buffer. */
    method Compute(bytes: seq<Byte>) returns (crc: bv32)
      requires Valid()
      ensures crc == Checksum(bytes)
    {
      hide Valid, FeedBits, Wide;
      crc := 0xFFFF_FFFF;
      var i := 0;
      while i < |bytes|
        invariant i <= |bytes| && crc == FeedAll(0xFFFF_FFFF, bytes[..i])
      {
        FedNext(0xFFFF_FFFF, bytes[..i], bytes[i]);
        assert bytes[..i + 1] == bytes[..i] + [bytes[i]];
        crc := Step(crc, bytes[i]);
        i := i + 1;
      }
      assert bytes[..i] == bytes;
      crc := crc ^ 0xFFFF_FFFF;
    }
  }

  lemma Lookup(x: bv32)
    ensures 0 <= LowByte(x) as int < 256 && (LowByte(x) as int) as bv32 == LowByte(x)
  {
    assert LowByte(x) < 256;
  }

  lemma FedNext(crc: bv32, bytes: seq<Byte>, b: Byte)
    ensures FeedAll(crc, bytes + [b]) == FeedBits(FeedAll(crc, bytes), Wide(b), 8)
  {
    hide FeedBits, Wide;
    assert (bytes + [b])[..|bytes|] == bytes;
  }

  /** The streaming form. */
  class Builder {
    const table: Table
    var state: bv32
    ghost var fed: seq<Byte>

    ghost predicate Valid()
      reads this, table, table.values
    {
      table.Valid() && state == FeedAll(0xFFFF_FFFF, fed)
    }

    constructor (table: Table)
      requires table.Valid()
      ensures Valid() && fed == [] && this.table == table
    {
      this.table := table;
      state := 0xFFFF_FFFF;
      fed := [];
    }

    /** Chunks add up: the state is that of everything fed so far. */
    method Update(bytes: seq<Byte>)
      requires Valid()
      modifies this
      ensures Valid() && fed == old(fed) + bytes
    {
      hide Table.Valid, FeedBits, FeedAll;
      ghost var before := fed;
      assert before + bytes[..0] == before;
      var crc, i := state, 0;
      while i < |bytes|
        invariant i <= |bytes| && crc == FeedAll(0xFFFF_FFFF, before + bytes[..i])
      {
        FedNext(0xFFFF_FFFF, before + bytes[..i], bytes[i]);
        assert before + bytes[..i + 1] == before + bytes[..i] + [bytes[i]];
        crc := table.Step(crc, bytes[i]);
        i := i + 1;
      }
      assert bytes[..i] == bytes;
      state := crc;
      fed := before + bytes;
    }

    /** Whatever the chunks, the one-shot checksum of their concatenation. */
    function Value(): (crc: bv32)
      requires Valid()
      reads this, table, table.values
      ensures crc == Checksum(fed)
    {
      state ^ 0xFFFF_FFFF
    }
  }

  // ---------------------------------------------------------------------------
  // A changed byte shows
  // ---------------------------------------------------------------------------

  lemma ShiftInjective(a: bv32, b: bv32)
    ensures Shift(a) == Shift(b) ==> a == b
  {
  }

  lemma {:induction false} ShiftsInjective(a: bv32, b: bv32, n: nat)
    ensures Shifts(a, n) == Shifts(b, n) ==> a == b
  {
    hide Shift;
    if n > 0 {
      ShiftInjective(Shifts(a, n - 1), Shifts(b, n - 1));
      ShiftsInjective(a, b, n - 1);
    }
  }

  lemma WideInjective(x: Byte, y: Byte)
    ensures Wide(x) == Wide(y) ==> x == y
    ensures ByteGone(Wide(x)) == 0
  {
  }

  /** Registers stay apart over equal bytes, and part over different ones. */
  lemma FeedsInjective(a: bv32, x: Byte, b: bv32, y: Byte)
    requires FeedBits(a, Wide(x), 8) == FeedBits(b, Wide(y), 8)
    ensures a == b <==> x == y
  {
    WideInjective(x, y);
    WideInjective(y, x);
    hide Shifts, FeedBits, Halved, Wide, Xor, ByteGone;
    HalvedByte(Wide(x));
    HalvedByte(Wide(y));
    FeedIsShifts(a, Wide(x), 8);
    FeedIsShifts(b, Wide(y), 8);
    ShiftsInjective(Xor(a, Wide(x)), Xor(b, Wide(y)), 8);
    XorCancels(a, Wide(x), b, Wide(y));
  }

  /** Two byte strings that differ in exactly one place have different checksums. */
  lemma OneByteShows(bytes: seq<Byte>, i: nat, value: Byte)
    requires i < |bytes| && value != bytes[i]
    ensures Checksum(bytes[i := value]) != Checksum(bytes)
  {
    hide FeedAll, Xor;
    OneByteDiffers(0xFFFF_FFFF, bytes, i, value);
    var a, b := FeedAll(0xFFFF_FFFF, bytes), FeedAll(0xFFFF_FFFF, bytes[i := value]);
    if Xor(a, 0xFFFF_FFFF) == Xor(b, 0xFFFF_FFFF) { XorCancels(a, 0xFFFF_FFFF, b, 0xFFFF_FFFF); }
  }

  lemma {:induction false} OneByteDiffers(crc: bv32, bytes: seq<Byte>, i: nat, value: Byte)
    requires i < |bytes| && value != bytes[i]
    ensures FeedAll(crc, bytes[i := value]) != FeedAll(crc, bytes)
    decreases |bytes|
  {
    hide FeedBits, Wide;
    var changed, n := bytes[i := value], |bytes| - 1;
    var a, b := FeedAll(crc, bytes[..n]), FeedAll(crc, changed[..n]);
    if i == n {
      assert changed[..n] == bytes[..n];
    } else {
      assert changed[..n] == bytes[..n][i := value];
      OneByteDiffers(crc, bytes[..n], i, value);
    }
    if FeedBits(a, Wide(bytes[n]), 8) == FeedBits(b, Wide(changed[n]), 8) {
      FeedsInjective(a, bytes[n], b, changed[n]);
    }
  }
}

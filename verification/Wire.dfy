/** The buffer an encoder appends to, the cursor a decoder advances, and the codec run over them. */
module Wire {
  import opened Timeline
  import opened Crc32c
  import opened Framing
  import opened Codecs
  import opened Schemas

  // ---------------------------------------------------------------------------
  // Wider numbers from narrower ones
  // ---------------------------------------------------------------------------

  lemma {:induction false} LittleJoins(low: nat, a: nat, high: nat, b: nat)
    requires low < Pow256(a)
    ensures Little(low + Pow256(a) * high, a + b) == Little(low, a) + Little(high, b)
    decreases a
  {
    hide ByteOf;
    if a > 0 {
      var digit, rest := low % 256, low / 256;
      var above := rest + Pow256(a - 1) * high;
      Regroup(Pow256(a - 1), high);
      assert low + Pow256(a) * high == digit + 256 * above;
      LowDigit(digit, above);
      LittleJoins(rest, a - 1, high, b);
    }
  }

  lemma Regroup(p: nat, high: nat)
    ensures 256 * p * high == 256 * (p * high)
  {
  }

  lemma FirstDigitApart(bytes: seq<Byte>)
    requires bytes != []
    ensures FromLittle(bytes) == ValueOfByte(bytes[0]) + 256 * FromLittle(bytes[1..])
  {
    hide ValueOfByte;
  }

  lemma {:induction false} FromLittleJoins(a: seq<Byte>, b: seq<Byte>)
    ensures FromLittle(a + b) == FromLittle(a) + Pow256(|a|) * FromLittle(b)
    decreases |a|
  {
    if a == [] {
      assert a + b == b;
      assert Pow256(0) * FromLittle(b) == FromLittle(b);
    } else {
      assert (a + b)[1..] == a[1..] + b && (a + b)[0] == a[0];
      FromLittleJoins(a[1..], b);
      FirstDigitApart(a + b);
      FirstDigitApart(a);
      hide FromLittle, ValueOfByte;
      Regroup(Pow256(|a| - 1), FromLittle(b));
    }
  }

  // ---------------------------------------------------------------------------
  // Writing
  // ---------------------------------------------------------------------------

  class Writer {
    var buffer: seq<Byte>

    constructor ()
      ensures buffer == []
    {
      buffer := [];
    }

    method U8(v: nat)
      requires v < 256
      modifies this
      ensures buffer == old(buffer) + Little(v, 1)
    {
      assert Little(v, 1) == [ByteOf(v % 256)] + Little(v / 256, 0);
      buffer := buffer + [ByteOf(v)];
    }

    method U16(v: nat)
      requires v < 0x1_0000
      modifies this
      ensures buffer == old(buffer) + Little(v, 2)
    {
      hide Little;
      Powers();
      LittleJoins(v % 256, 1, v / 256, 1);
      U8(v % 256);
      U8(v / 256);
    }

    method U32(v: nat)
      requires v < U32_LIMIT
      modifies this
      ensures buffer == old(buffer) + Little(v, 4)
    {
      hide Little;
      Powers();
      LittleJoins(v % 0x1_0000, 2, v / 0x1_0000, 2);
      U16(v % 0x1_0000);
      U16(v / 0x1_0000);
    }

    method U64(v: nat)
      requires v < U64_LIMIT
      modifies this
      ensures buffer == old(buffer) + Little(v, 8)
    {
      hide Little;
      Powers();
      LittleJoins(v % U32_LIMIT, 4, v / U32_LIMIT, 4);
      U32(v % U32_LIMIT);
      U32(v / U32_LIMIT);
    }

    method I64(v: int)
      requires -I64_LIMIT <= v < I64_LIMIT
      modifies this
      ensures buffer == old(buffer) + Little(Natural(Wrapped(v)), 8)
    {
      hide Little;
      U64(Wrapped(v));
    }

    method Raw(bytes: seq<Byte>)
      modifies this
      ensures buffer == old(buffer) + bytes
    {
      buffer := buffer + bytes;
    }

    /** A number of things, cut to its low four bytes. */
    method Count(n: nat)
      modifies this
      ensures buffer == old(buffer) + Little(n, 4)
    {
      hide Little;
      Powers();
      LittleCuts(n, 4);
      U32(n % U32_LIMIT);
    }

    /** Length, then bytes. */
    method Bytes(bytes: seq<Byte>)
      modifies this
      ensures buffer == old(buffer) + (Little(|bytes|, 4) + bytes)
    {
      hide Little;
      Count(|bytes|);
      Raw(bytes);
    }
  }

  /** Only the lowest `n` bytes of a number are written. */
  lemma LittleCuts(v: nat, n: nat)
    ensures Pow256(n) > 0 && Little(v % Pow256(n), n) == Little(v, n)
  {
    hide Little, Pow256;
    PowPositive(n);
    var p := Pow256(n);
    var low, high := v % p, v / p;
    LowestOf(v, p, low, high);
    LittleJoins(low, n, high, 0);
    NoDigits(high);
    assert Little(low, n) + [] == Little(low, n);
  }

  lemma NoDigits(v: nat)
    ensures Little(v, 0) == []
  {
  }

  lemma LowestOf(v: nat, p: nat, low: nat, high: nat)
    requires p > 0 && low == v % p && high == v / p
    ensures v == low + p * high && low < p
  {
  }

  lemma {:induction false} PowPositive(n: nat)
    ensures Pow256(n) > 0
  {
    if n > 0 { PowPositive(n - 1); }
  }

  lemma Powers()
    ensures Pow256(1) == 256 && Pow256(2) == 0x1_0000 && Pow256(4) == U32_LIMIT && Pow256(8) == U64_LIMIT
  {
    Widths();
    PowOne();
  }

  /** The widths numbers are written in. */
  predicate Wide(width: nat) { width == 1 || width == 2 || width == 4 || width == 8 }

  predicate AllWide(s: Schema) {
    match s
    case Unsigned(width, _, _) => Wide(width)
    case Field(first, rest) => AllWide(first) && AllWide(rest)
    case ListOf(element, _) => AllWide(element)
    case Maybe(inner) => AllWide(inner)
    case Parallel(left, right) => AllWide(left) && AllWide(right)
    case _ => true
  }

  method WriteNumber(w: Writer, v: nat, width: nat)
    requires Wide(width) && v < Pow256(width)
    modifies w
    ensures w.buffer == old(w.buffer) + Little(v, width)
  {
    hide Little;
    Powers();
    if width == 1 { w.U8(v); } else if width == 2 { w.U16(v); } else if width == 4 { w.U32(v); } else { w.U64(v); }
  }

  /** The values the fields of a layout can hold in memory: nothing is asked of them that only a reader checks. */
  predicate Held(s: Schema, v: Value)
    decreases s, 0
  {
    match s
    case Unsigned(width, _, _) => v.Num? && 0 <= v.n < Pow256(width)
    case Signed64 => v.Num? && -I64_LIMIT <= v.n < I64_LIMIT
    case Fixed(size) => v.Blob? && |v.bytes| == size
    case Text(_) => v.Blob?
    case Name(_) => v.Blob?
    case Done => v.End?
    case Field(first, rest) => v.Both? && Held(first, v.first) && Held(rest, v.rest)
    case ListOf(element, _) => v.Items? && AllHeld(element, v.items)
    case Maybe(inner) => v.Missing? || (v.Given? && Held(inner, v.value))
    case Parallel(left, right) => v.Both? && Held(left, v.first) && Held(right, v.rest)
  }

  predicate AllHeld(element: Schema, items: seq<Value>)
    decreases element, |items|
  {
    items == [] || (Held(element, items[0]) && AllHeld(element, items[1..]))
  }

  /** Whatever is within a layout's bounds can be held. */
  lemma {:induction false} FittingIsHeld(s: Schema, v: Value)
    requires Sane(s) && Fits(s, v)
    ensures Held(s, v)
    decreases s, 0
  {
    hide Pow256, NameText;
    match s
    case Field(first, rest) =>
      FittingIsHeld(first, v.first);
      FittingIsHeld(rest, v.rest);
    case ListOf(element, _) => AllFittingHeld(element, v.items);
    case Maybe(inner) => if v.Given? { FittingIsHeld(inner, v.value); }
    case Parallel(left, right) =>
      FittingIsHeld(left, v.first);
      FittingIsHeld(right, v.rest);
    case _ =>
  }

  lemma {:induction false} AllFittingHeld(element: Schema, items: seq<Value>)
    requires Sane(element) && FitAll(element, items)
    ensures AllHeld(element, items)
    decreases element, |items|
  {
    hide Fits, Held, Sane;
    if items != [] {
      FittingIsHeld(element, items[0]);
      AllFittingHeld(element, items[1..]);
    }
  }

  /** Appends a value field by field and item by item; a count is cut to its low four bytes. */
  method Write(w: Writer, s: Schema, v: Value)
    requires AllWide(s) && Held(s, v)
    modifies w
    ensures w.buffer == old(w.buffer) + Encode(s, v)
    decreases s, 0
  {
    hide Little, Pow256, NameText;
    Powers();
    match s
    case Unsigned(width, _, high) =>
      WriteNumber(w, v.n, width);
    case Signed64 => w.I64(v.n);
    case Fixed(_) => w.Raw(v.bytes);
    case Text(_) => w.Bytes(v.bytes);
    case Name(_) => w.Bytes(v.bytes);
    case Done =>
    case Field(first, rest) =>
      Write(w, first, v.first);
      Write(w, rest, v.rest);
    case ListOf(element, _) =>
      w.Count(|v.items|);
      WriteItems(w, element, v.items);
    case Maybe(inner) =>
      if v.Missing? {
        w.U8(0);
      } else {
        w.U8(1);
        Write(w, inner, v.value);
      }
    case Parallel(left, right) =>
      Write(w, left, v.first);
      Write(w, right, v.rest);
  }

  method WriteItems(w: Writer, element: Schema, items: seq<Value>)
    requires AllWide(element) && AllHeld(element, items)
    modifies w
    ensures w.buffer == old(w.buffer) + EncodeAll(element, items)
    decreases element, 1
  {
    hide AllWide, Held, Encode;
    ghost var start := w.buffer;
    var i := 0;
    assert items[0..] == items && start + EncodeAll(element, items) == w.buffer + EncodeAll(element, items[0..]);
    while i < |items|
      invariant i <= |items| && AllHeld(element, items[i..])
      invariant start + EncodeAll(element, items) == w.buffer + EncodeAll(element, items[i..])
    {
      assert items[i..][0] == items[i] && items[i..][1..] == items[i + 1..];
      ghost var before := w.buffer;
      Write(w, element, items[i]);
      assert before + (Encode(element, items[i]) + EncodeAll(element, items[i + 1..]))
             == w.buffer + EncodeAll(element, items[i + 1..]);
      i := i + 1;
    }
    assert items[i..] == [] && w.buffer + [] == w.buffer;
  }

  // ---------------------------------------------------------------------------
  // Reading
  // ---------------------------------------------------------------------------

  class Reader {
    const data: seq<Byte>
    var offset: nat

    constructor (data: seq<Byte>)
      ensures this.data == data && Valid() && Rest() == data
    {
      this.data, offset := data, 0;
    }

    ghost predicate Valid()
      reads this
    {
      offset <= |data|
    }

    /** What has not been read yet. */
    ghost function Rest(): seq<Byte>
      requires Valid()
      reads this
    {
      data[offset..]
    }

    method Raw(size: nat) returns (bytes: Option<seq<Byte>>)
      requires Valid()
      modifies this
      ensures Valid() && (bytes.None? <==> |old(Rest())| < size)
      ensures bytes.Some? ==> bytes.value == old(Rest())[..size] && Rest() == old(Rest())[size..]
    {
      if |data| - offset < size { return None; }
      bytes := Some(data[offset..offset + size]);
      offset := offset + size;
    }

    method U8() returns (v: Option<nat>)
      requires Valid()
      modifies this
      ensures Valid() && Took(old(Rest()), 1, v, Rest())
    {
      hide FromLittle;
      var b := Raw(1);
      if b.None? { return None; }
      OneByte(b.value);
      return Some(ValueOfByte(b.value[0]));
    }

    method U16() returns (v: Option<nat>)
      requires Valid()
      modifies this
      ensures Valid() && Took(old(Rest()), 2, v, Rest())
    {
      hide Took;
      ghost var start := Rest();
      var lo := U8();
      if lo.None? { TookNothing(start, 1, Rest()); return None; }
      ghost var mid := Rest();
      var hi := U8();
      if hi.None? { TookThenShort(start, 1, lo, mid, 1, 2, Rest()); return None; }
      TookBoth(start, 1, lo.value, mid, 1, hi.value, Rest());
      Powers();
      return Some(lo.value + 256 * hi.value);
    }

    method U32() returns (v: Option<nat>)
      requires Valid()
      modifies this
      ensures Valid() && Took(old(Rest()), 4, v, Rest())
    {
      hide Took;
      ghost var start := Rest();
      var lo := U16();
      if lo.None? { TookNothing(start, 2, Rest()); return None; }
      ghost var mid := Rest();
      var hi := U16();
      if hi.None? { TookThenShort(start, 2, lo, mid, 2, 4, Rest()); return None; }
      TookBoth(start, 2, lo.value, mid, 2, hi.value, Rest());
      Powers();
      return Some(lo.value + 0x1_0000 * hi.value);
    }

    method U64() returns (v: Option<nat>)
      requires Valid()
      modifies this
      ensures Valid() && Took(old(Rest()), 8, v, Rest())
    {
      hide Took;
      ghost var start := Rest();
      var lo := U32();
      if lo.None? { TookNothing(start, 4, Rest()); return None; }
      ghost var mid := Rest();
      var hi := U32();
      if hi.None? { TookThenShort(start, 4, lo, mid, 4, 8, Rest()); return None; }
      TookBoth(start, 4, lo.value, mid, 4, hi.value, Rest());
      Powers();
      return Some(lo.value + U32_LIMIT * hi.value);
    }

    /** A length within the bound, then as many bytes. */
    method Bytes(max: nat) returns (bytes: Option<seq<Byte>>)
      requires Valid()
      modifies this
      ensures Valid()
      ensures var d := TakeText(old(Rest()), max);
              if d.Bad? then bytes.None? else bytes == Some(d.value.bytes) && Rest() == d.rest
    {
      hide FromLittle;
      var length := U32();
      if length.None? || length.value > max { return None; }
      bytes := Raw(length.value);
    }
  }

  /** A number was taken from the front of the bytes, or there were too few of them. */
  ghost predicate Took(bytes: seq<Byte>, width: nat, v: Option<nat>, rest: seq<Byte>) {
    match TakeNumber(bytes, width)
    case Bad => v == None
    case Decoded(value, after) => v.Some? && value == Num(v.value) && rest == after
  }

  lemma OneByte(bytes: seq<Byte>)
    requires |bytes| == 1
    ensures FromLittle(bytes) == ValueOfByte(bytes[0])
  {
    assert bytes[1..] == [];
  }

  lemma TookNothing(bytes: seq<Byte>, width: nat, rest: seq<Byte>)
    requires Took(bytes, width, None, rest)
    ensures |bytes| < width
    ensures forall wider: nat, after :: width <= wider ==> Took(bytes, wider, None, after)
  {
  }

  lemma TookThenShort(bytes: seq<Byte>, a: nat, lo: Option<nat>, mid: seq<Byte>, b: nat, wide: nat, rest: seq<Byte>)
    requires Took(bytes, a, lo, mid) && lo.Some? && Took(mid, b, None, rest) && wide == a + b
    ensures forall after :: Took(bytes, wide, None, after)
  {
  }

  lemma TookBoth(bytes: seq<Byte>, a: nat, lo: nat, mid: seq<Byte>, b: nat, hi: nat, rest: seq<Byte>)
    requires Took(bytes, a, Some(lo), mid) && Took(mid, b, Some(hi), rest)
    ensures Took(bytes, a + b, Some(lo + Pow256(a) * hi), rest)
  {
    hide FromLittle, Pow256;
    assert bytes[..a + b] == bytes[..a] + mid[..b];
    FromLittleJoins(bytes[..a], mid[..b]);
  }

  /** What was read is what the bytes decode to, and what is left is what they leave. */
  ghost predicate ReadAs(d: Decoding, v: Option<Value>, rest: seq<Byte>) {
    match d
    case Bad => v == None
    case Decoded(value, after) => v == Some(value) && rest == after
  }

  method ReadNumber(r: Reader, width: nat) returns (v: Option<nat>)
    requires r.Valid() && Wide(width)
    modifies r
    ensures r.Valid() && Took(old(r.Rest()), width, v, r.Rest())
  {
    hide Took;
    if width == 1 { v := r.U8(); } else if width == 2 { v := r.U16(); } else if width == 4 { v := r.U32(); }
    else { v := r.U64(); }
  }

  /** Reads a value field by field and item by item. */
  method Read(r: Reader, s: Schema) returns (v: Option<Value>)
    requires r.Valid() && AllWide(s)
    modifies r
    ensures r.Valid() && ReadAs(Decode(s, old(r.Rest())), v, r.Rest())
    decreases s, 0
  {
    hide FromLittle, NameText;
    match s
    case Unsigned(width, low, high) =>
      var n := ReadNumber(r, width);
      if n.None? || n.value < low || n.value > high { return None; }
      return Some(Num(n.value));
    case Signed64 =>
      var n := r.U64();
      if n.None? { return None; }
      return Some(Num(Unwrapped(n.value)));
    case Fixed(size) =>
      var b := r.Raw(size);
      if b.None? { return None; }
      return Some(Blob(b.value));
    case Text(max) =>
      var b := r.Bytes(max);
      if b.None? { return None; }
      return Some(Blob(b.value));
    case Name(max) =>
      var b := r.Bytes(max);
      if b.None? || !NameText(b.value) { return None; }
      return Some(Blob(b.value));
    case Done => return Some(End);
    case Field(first, rest) =>
      var a := Read(r, first);
      if a.None? { return None; }
      var b := Read(r, rest);
      if b.None? { return None; }
      return Some(Both(a.value, b.value));
    case ListOf(element, max) =>
      var count := r.U32();
      if count.None? || count.value > max { return None; }
      v := ReadItems(r, element, count.value);
    case Maybe(inner) =>
      var present := r.U8();
      if present.None? || present.value > 1 { return None; }
      if present.value == 0 { return Some(Missing); }
      var a := Read(r, inner);
      if a.None? { return None; }
      return Some(Given(a.value));
    case Parallel(left, right) =>
      var a := Read(r, left);
      if a.None? { return None; }
      var b := Read(r, right);
      if b.None? || !SameCount(a.value, b.value) { return None; }
      return Some(Both(a.value, b.value));
  }

  /** Items read already, put before what the rest decodes to. */
  function Before(items: seq<Value>, d: Decoding): Decoding {
    if d.Bad? || !d.value.Items? then Bad else Decoded(Items(items + d.value.items), d.rest)
  }

  lemma BeforeNext(items: seq<Value>, element: Schema, n: nat, bytes: seq<Byte>)
    requires n > 0
    ensures var a := Decode(element, bytes);
            Before(items, DecodeAll(element, n, bytes))
            == if a.Bad? then Bad else Before(items + [a.value], DecodeAll(element, n - 1, a.rest))
  {
    hide Decode;
    var a := Decode(element, bytes);
    if a.Decoded? && DecodeAll(element, n - 1, a.rest).Decoded? {
      var more := DecodeAll(element, n - 1, a.rest).value.items;
      assert items + ([a.value] + more) == items + [a.value] + more;
    }
  }

  method ReadItems(r: Reader, element: Schema, count: nat) returns (v: Option<Value>)
    requires r.Valid() && AllWide(element)
    modifies r
    ensures r.Valid() && ReadAs(DecodeAll(element, count, old(r.Rest())), v, r.Rest())
    decreases element, 1
  {
    hide Decode, AllWide;
    ghost var start := r.Rest();
    var items: seq<Value> := [];
    var i := 0;
    NothingBefore(DecodeAll(element, count, start));
    while i < count
      invariant i <= count && r.Valid()
      invariant DecodeAll(element, count, start) == Before(items, DecodeAll(element, count - i, r.Rest()))
    {
      BeforeNext(items, element, count - i, r.Rest());
      var a := Read(r, element);
      if a.None? { return None; }
      items := items + [a.value];
      i := i + 1;
    }
    assert items + [] == items;
    return Some(Items(items));
  }

  lemma NothingBefore(d: Decoding)
    requires d.Decoded? ==> d.value.Items?
    ensures Before([], d) == d
  {
    if d.Decoded? { assert [] + d.value.items == d.value.items; }
  }

  // ---------------------------------------------------------------------------
  // Durable records
  // ---------------------------------------------------------------------------

  lemma {:induction false} StructureWide(fields: seq<Schema>)
    requires forall i :: 0 <= i < |fields| ==> AllWide(fields[i])
    ensures AllWide(Structure(fields))
  {
    if fields != [] { StructureWide(fields[1..]); }
  }

  lemma PartsWide()
    ensures AllWide(INTERVAL) && AllWide(Many(REFERENCE)) && AllWide(AUTHORITY) && AllWide(PROVENANCE)
            && AllWide(RECURRENCE)
    ensures AllWide(CAPACITY) && AllWide(PATH) && AllWide(POLICY)
  {
    hide Structure;
    StructureWide([Signed64, Signed64]);
    StructureWide([NAME, COUNTER]);
    StructureWide(AUTHORITY_FIELDS);
    StructureWide(PROVENANCE_FIELDS);
    StructureWide([FLAG, Signed64, Bounded(0, 4096)]);
    StructureWide([INTERVAL, Text(256)]);
    StructureWide(CAPACITY_FIELDS);
    StructureWide([NAME, COUNTER, Many(NAME), Signed64, FLAG]);
    StructureWide([
      NAME, COUNTER, Signed64, FLAG, FLAG, FLAG, Bounded(0, 1024), Signed64, FLAG, Signed64, Signed64, FLAG, Signed64,
      Signed64, FLAG, Signed64, Bounded(1, 4096), Bounded(128, 65536), Bounded(1, 4096), Signed64, Bounded(0, 4096),
      Signed64]);
  }

  lemma RecordsWide()
    ensures AllWide(RESERVATION) && AllWide(SERIES) && AllWide(EDGE) && AllWide(ATTEMPT) && AllWide(TRANSITION)
    ensures AllWide(MUTATION)
  {
    hide Structure;
    PartsWide();
    StructureWide(TERMS_FIELDS);
    StructureWide(RESERVATION_FIELDS);
    StructureWide(SERIES_FIELDS);
    StructureWide(EDGE_FIELDS);
    StructureWide(ATTEMPT_FIELDS);
    StructureWide(TRANSITION_FIELDS);
    StructureWide(MUTATION_FIELDS);
  }

  lemma BodyWide(kind: nat)
    ensures AllWide(BodyOf(kind))
  {
    hide Structure;
    PartsWide();
    RecordsWide();
    StructureWide([ID, COUNTER, COUNTER, Signed64, FLAG, Many(CAPACITY)]);
    StructureWide([CAPACITY_SNAPSHOT, Many(NAME)]);
    StructureWide([ID, COUNTER, COUNTER, Signed64, FLAG, Many(PATH)]);
    StructureWide([ID, COUNTER, APPLICABILITY, APPLICABILITY_REASON, Signed64]);
    StructureWide([COUNTER, ID, Signed64]);
    StructureWide([ID, COUNTER, ID, ID, Signed64, REASON_TEXT, FLAG]);
    StructureWide([ID, COUNTER, Signed64]);
    StructureWide([NAME, COUNTER, Signed64, Signed64, INTERVAL, Signed64, FLAG]);
    StructureWide([Parallel(Many(ID), Many(COUNTER)), Signed64]);
  }

  /** Writes a durable record: version, kind, body. */
  method WriteRecord(kind: nat, body: Value) returns (payload: seq<Byte>)
    requires IsKind(kind) && Held(BodyOf(kind), body)
    ensures payload == EncodeRecord(kind, body)
  {
    hide Encode, Held, AllWide, BodyOf, Little;
    BodyWide(kind);
    var w := new Writer();
    w.U16(FORMAT_VERSION);
    w.U16(kind);
    Write(w, BodyOf(kind), body);
    return w.buffer;
  }

  lemma VersionDecides(payload: seq<Byte>, kind: nat, version: Option<nat>, rest: seq<Byte>)
    requires Took(payload, 2, version, rest) && version != Some(FORMAT_VERSION)
    ensures DecodeRecord(payload, kind) == None
  {
    hide TakeNumber, Decode, BodyOf;
  }

  lemma KindDecides(payload: seq<Byte>, kind: nat, rest: seq<Byte>, found: Option<nat>, after: seq<Byte>)
    requires Took(payload, 2, Some(FORMAT_VERSION), rest) && Took(rest, 2, found, after)
    requires found.None? || !IsKind(found.value)
    ensures DecodeRecord(payload, kind) == None
  {
    hide TakeNumber, Decode, BodyOf;
  }

  lemma BodyDecides(payload: seq<Byte>, kind: nat, rest: seq<Byte>, found: nat, after: seq<Byte>, body: Option<Value>,
                    left: seq<Byte>)
    requires Took(payload, 2, Some(FORMAT_VERSION), rest) && Took(rest, 2, Some(found), after) && IsKind(found)
    requires ReadAs(Decode(BodyOf(found), after), body, left)
    ensures DecodeRecord(payload, kind) == if body.None? || found != kind || left != [] then None else body
  {
    hide TakeNumber, Decode, BodyOf;
  }

  /** Reads a durable record found under a kind; refuses another version, another kind and left-over bytes. */
  method ReadRecord(payload: seq<Byte>, kind: nat) returns (body: Option<Value>)
    ensures body == DecodeRecord(payload, kind)
  {
    hide Decode, DecodeRecord, AllWide, BodyOf, FromLittle, Took, ReadAs;
    var r := new Reader(payload);
    var version := r.U16();
    ghost var rest := r.Rest();
    if version != Some(FORMAT_VERSION) { VersionDecides(payload, kind, version, rest); return None; }
    var found := r.U16();
    ghost var after := r.Rest();
    if found.None? || found.value < 1 || found.value > Framing.KINDS {
      KindDecides(payload, kind, rest, found, after);
      return None;
    }
    BodyWide(found.value);
    body := Read(r, BodyOf(found.value));
    BodyDecides(payload, kind, rest, found.value, after, body, r.Rest());
    if body.None? || found.value != kind || r.offset < |payload| { return None; }
  }
}

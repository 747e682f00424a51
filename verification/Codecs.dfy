/**
 The canonical binary form: schemas of the encoded structures, the writer and
 the reader, and the proof that encoding and strict decoding are inverse.
 */
module Codecs {
  import opened Crc32c
  import opened Framing

  // ---------------------------------------------------------------------------
  // Schemas and values
  // ---------------------------------------------------------------------------

  datatype Schema =
    | Unsigned(width: nat, low: nat, high: nat)
    | Signed64
    | Fixed(size: nat)
    | Text(max: nat)
    | Name(max: nat)
    | Done
    | Field(first: Schema, rest: Schema)
    | ListOf(element: Schema, max: nat)
    | Maybe(inner: Schema)
    | Parallel(left: Schema, right: Schema)

  /** What a field may hold; a structure is the chain of its fields. */
  datatype Value =
    | Num(n: int)
    | Blob(bytes: seq<Byte>)
    | End
    | Both(first: Value, rest: Value)
    | Items(items: seq<Value>)
    | Missing
    | Given(value: Value)

  /** A structure with these fields in order. */
  function Structure(fields: seq<Schema>): Schema {
    if fields == [] then Done else Field(fields[0], Structure(fields[1..]))
  }

  const U32_LIMIT := 0x1_0000_0000
  const I64_LIMIT := 0x8000_0000_0000_0000

  /** Bounds fit the widths they are written in. */
  predicate Sane(s: Schema) {
    match s
    case Unsigned(width, _, high) => high < Pow256(width)
    case Text(max) => max < U32_LIMIT
    case Name(max) => max < U32_LIMIT
    case Field(first, rest) => Sane(first) && Sane(rest)
    case ListOf(element, max) => Sane(element) && max < U32_LIMIT
    case Maybe(inner) => Sane(inner)
    case Parallel(left, right) => Sane(left) && Sane(right)
    case _ => true
  }

  predicate NameByte(b: Byte) {
    || 0x41 <= b <= 0x5A || 0x61 <= b <= 0x7A || 0x30 <= b <= 0x39
    || b == 0x2E || b == 0x5F || b == 0x2D || b == 0x3A || b == 0x2F || b == 0x40 || b == 0x2B
  }

  /** An absent name, or one of the permitted characters without two dots in a row. */
  predicate NameText(bytes: seq<Byte>) {
    && (forall i :: 0 <= i < |bytes| ==> NameByte(bytes[i]))
    && (forall i :: 0 < i < |bytes| ==> !(bytes[i - 1] == 0x2E && bytes[i] == 0x2E))
  }

  predicate SameCount(a: Value, b: Value) { a.Items? && b.Items? && |a.items| == |b.items| }

  /** The values a schema can carry. */
  predicate Fits(s: Schema, v: Value)
    decreases s, 0
  {
    match s
    case Unsigned(_, low, high) => v.Num? && low <= v.n <= high
    case Signed64 => v.Num? && -I64_LIMIT <= v.n < I64_LIMIT
    case Fixed(size) => v.Blob? && |v.bytes| == size
    case Text(max) => v.Blob? && |v.bytes| <= max
    case Name(max) => v.Blob? && |v.bytes| <= max && NameText(v.bytes)
    case Done => v.End?
    case Field(first, rest) => v.Both? && Fits(first, v.first) && Fits(rest, v.rest)
    case ListOf(element, max) => v.Items? && |v.items| <= max && FitAll(element, v.items)
    case Maybe(inner) => v.Missing? || (v.Given? && Fits(inner, v.value))
    case Parallel(left, right) => v.Both? && Fits(left, v.first) && Fits(right, v.rest) && SameCount(v.first, v.rest)
  }

  predicate FitAll(element: Schema, items: seq<Value>)
    decreases element, |items|
  {
    items == [] || (Fits(element, items[0]) && FitAll(element, items[1..]))
  }

  // ---------------------------------------------------------------------------
  // Encoding
  // ---------------------------------------------------------------------------

  /** A signed number in two's complement. */
  function Wrapped(n: int): int { if n >= 0 then n else n + U64_LIMIT }

  function Unwrapped(raw: nat): int { if raw < I64_LIMIT then raw else raw - U64_LIMIT }

  function Natural(n: int): nat { if n < 0 then 0 else n }

  /** The bytes of a value; a value of another shape than its schema has none. */
  function Encode(s: Schema, v: Value): seq<Byte>
    decreases s, 0
  {
    match (s, v)
    case (Unsigned(width, _, _), Num(n)) => Little(Natural(n), width)
    case (Signed64, Num(n)) => Little(Natural(Wrapped(n)), 8)
    case (Fixed(_), Blob(bytes)) => bytes
    case (Text(_), Blob(bytes)) => Little(|bytes|, 4) + bytes
    case (Name(_), Blob(bytes)) => Little(|bytes|, 4) + bytes
    case (Field(first, rest), Both(a, b)) => Encode(first, a) + Encode(rest, b)
    case (ListOf(element, _), Items(items)) => Little(|items|, 4) + EncodeAll(element, items)
    case (Maybe(_), Missing) => Little(0, 1)
    case (Maybe(inner), Given(a)) => Little(1, 1) + Encode(inner, a)
    case (Parallel(left, right), Both(a, b)) => Encode(left, a) + Encode(right, b)
    case _ => []
  }

  function EncodeAll(element: Schema, items: seq<Value>): seq<Byte>
    decreases element, |items|
  {
    if items == [] then [] else Encode(element, items[0]) + EncodeAll(element, items[1..])
  }

  // ---------------------------------------------------------------------------
  // Decoding
  // ---------------------------------------------------------------------------

  datatype Decoding = Decoded(value: Value, rest: seq<Byte>) | Bad

  function TakeNumber(bytes: seq<Byte>, width: nat): Decoding {
    if |bytes| < width then Bad else Decoded(Num(FromLittle(bytes[..width])), bytes[width..])
  }

  function TakeBlob(bytes: seq<Byte>, size: nat): Decoding {
    if |bytes| < size then Bad else Decoded(Blob(bytes[..size]), bytes[size..])
  }

  function TakeText(bytes: seq<Byte>, max: nat): Decoding {
    match TakeNumber(bytes, 4)
    case Bad => Bad
    case Decoded(length, rest) => if length.n > max then Bad else TakeBlob(rest, Natural(length.n))
  }

  function Decode(s: Schema, bytes: seq<Byte>): (d: Decoding)
    decreases s, 0
  {
    match s
    case Unsigned(width, low, high) =>
      var d := TakeNumber(bytes, width);
      if d.Bad? || d.value.n < low || d.value.n > high then Bad else d
    case Signed64 =>
      var d := TakeNumber(bytes, 8);
      if d.Bad? then Bad else Decoded(Num(Unwrapped(Natural(d.value.n))), d.rest)
    case Fixed(size) => TakeBlob(bytes, size)
    case Text(max) => TakeText(bytes, max)
    case Name(max) =>
      var d := TakeText(bytes, max);
      if d.Bad? || !NameText(d.value.bytes) then Bad else d
    case Done => Decoded(End, bytes)
    case Field(first, rest) =>
      var a := Decode(first, bytes);
      if a.Bad? then Bad
      else var b := Decode(rest, a.rest); if b.Bad? then Bad else Decoded(Both(a.value, b.value), b.rest)
    case ListOf(element, max) =>
      var count := TakeNumber(bytes, 4);
      if count.Bad? || count.value.n > max then Bad else DecodeAll(element, Natural(count.value.n), count.rest)
    case Maybe(inner) =>
      var present := TakeNumber(bytes, 1);
      if present.Bad? || present.value.n > 1 then Bad
      else if present.value.n == 0 then Decoded(Missing, present.rest)
      else var a := Decode(inner, present.rest); if a.Bad? then Bad else Decoded(Given(a.value), a.rest)
    case Parallel(left, right) =>
      var a := Decode(left, bytes);
      if a.Bad? then Bad
      else var b := Decode(right, a.rest);
        if b.Bad? || !SameCount(a.value, b.value) then Bad else Decoded(Both(a.value, b.value), b.rest)
  }

  function DecodeAll(element: Schema, count: nat, bytes: seq<Byte>): (d: Decoding)
    ensures d.Decoded? ==> d.value.Items?
    decreases element, count
  {
    if count == 0 then Decoded(Items([]), bytes)
    else
      var a := Decode(element, bytes);
      if a.Bad? then Bad
      else var b := DecodeAll(element, count - 1, a.rest);
        if b.Bad? then Bad else Decoded(Items([a.value] + b.value.items), b.rest)
  }

  // ---------------------------------------------------------------------------
  // Round trip
  // ---------------------------------------------------------------------------

  lemma NumberRoundTrip(n: nat, width: nat, rest: seq<Byte>)
    requires n < Pow256(width)
    ensures TakeNumber(Little(n, width) + rest, width) == Decoded(Num(n), rest)
  {
    hide Little, FromLittle;
    LittleRoundTrip(n, width);
    assert (Little(n, width) + rest)[..width] == Little(n, width);
  }

  lemma TextRoundTrip(bytes: seq<Byte>, max: nat, rest: seq<Byte>)
    requires |bytes| <= max < U32_LIMIT
    ensures TakeText(Little(|bytes|, 4) + bytes + rest, max) == Decoded(Blob(bytes), rest)
  {
    hide TakeNumber, Little;
    Widths();
    NumberRoundTrip(|bytes|, 4, bytes + rest);
    assert Little(|bytes|, 4) + bytes + rest == Little(|bytes|, 4) + (bytes + rest);
    assert (bytes + rest)[..|bytes|] == bytes && (bytes + rest)[|bytes|..] == rest;
  }

  /** Every value its schema can carry is read back, and exactly its bytes are consumed. */
  lemma {:induction false} RoundTrip(s: Schema, v: Value, rest: seq<Byte>)
    requires Sane(s) && Fits(s, v)
    ensures Decode(s, Encode(s, v) + rest) == Decoded(v, rest)
    decreases s, 0
  {
    hide TakeNumber, TakeText, Little, NameText, Pow256;
    match s
    case Unsigned(width, _, _) => NumberRoundTrip(v.n, width, rest);
    case Signed64 => Widths(); NumberRoundTrip(Wrapped(v.n), 8, rest);
    case Fixed(size) => assert (v.bytes + rest)[..size] == v.bytes;
    case Text(max) => TextRoundTrip(v.bytes, max, rest);
    case Name(max) => TextRoundTrip(v.bytes, max, rest);
    case Done => assert [] + rest == rest;
    case Field(first, tail) =>
      var a, b := Encode(first, v.first), Encode(tail, v.rest);
      assert a + b + rest == a + (b + rest);
      RoundTrip(first, v.first, b + rest);
      RoundTrip(tail, v.rest, rest);
    case ListOf(element, max) =>
      var all := EncodeAll(element, v.items);
      assert Little(|v.items|, 4) + all + rest == Little(|v.items|, 4) + (all + rest);
      Widths();
      NumberRoundTrip(|v.items|, 4, all + rest);
      RoundTripAll(element, v.items, rest);
    case Maybe(inner) =>
      assert Pow256(1) == 256 by { PowOne(); }
      if v.Missing? {
        NumberRoundTrip(0, 1, rest);
      } else {
        var a := Encode(inner, v.value);
        assert Little(1, 1) + a + rest == Little(1, 1) + (a + rest);
        NumberRoundTrip(1, 1, a + rest);
        RoundTrip(inner, v.value, rest);
      }
    case Parallel(left, right) =>
      var a, b := Encode(left, v.first), Encode(right, v.rest);
      assert a + b + rest == a + (b + rest);
      RoundTrip(left, v.first, b + rest);
      RoundTrip(right, v.rest, rest);
  }

  lemma PowOne()
    ensures Pow256(1) == 256
  {
  }

  lemma {:induction false} RoundTripAll(element: Schema, items: seq<Value>, rest: seq<Byte>)
    requires Sane(element) && FitAll(element, items)
    ensures DecodeAll(element, |items|, EncodeAll(element, items) + rest) == Decoded(Items(items), rest)
    decreases element, |items|
  {
    hide Encode, Decode, Fits, Sane;
    if items == [] {
      assert [] + rest == rest;
    } else {
      var a, b := Encode(element, items[0]), EncodeAll(element, items[1..]);
      assert a + b + rest == a + (b + rest);
      RoundTrip(element, items[0], b + rest);
      RoundTripAll(element, items[1..], rest);
      assert [items[0]] + items[1..] == items;
    }
  }

  // ---------------------------------------------------------------------------
  // Canonical form
  // ---------------------------------------------------------------------------

  lemma NumberCanonical(bytes: seq<Byte>, width: nat)
    requires TakeNumber(bytes, width).Decoded?
    ensures var d := TakeNumber(bytes, width);
            d.value.Num? && 0 <= d.value.n < Pow256(width) && bytes == Little(d.value.n, width) + d.rest
  {
    hide Little, FromLittle, Pow256;
    LittleBack(bytes[..width]);
  }

  lemma TextCanonical(bytes: seq<Byte>, max: nat)
    requires TakeText(bytes, max).Decoded?
    ensures var d := TakeText(bytes, max);
            d.value.Blob? && |d.value.bytes| <= max && bytes == Little(|d.value.bytes|, 4) + d.value.bytes + d.rest
  {
    hide TakeNumber, Little, Pow256;
    NumberCanonical(bytes, 4);
  }

  lemma Regrouped(bytes: seq<Byte>, a: seq<Byte>, x: seq<Byte>, b: seq<Byte>, y: seq<Byte>)
    requires bytes == a + x && x == b + y
    ensures bytes == (a + b) + y
  {
  }

  /** Whatever is accepted is the encoding of what was read, followed by what was left. */
  lemma {:induction false} Canonical(s: Schema, bytes: seq<Byte>)
    requires Sane(s) && Decode(s, bytes).Decoded?
    ensures var d := Decode(s, bytes); Fits(s, d.value) && bytes == Encode(s, d.value) + d.rest
    decreases s, 0
  {
    hide TakeNumber, TakeText, TakeBlob, Little, NameText, Pow256, Wrapped, Unwrapped;
    var d := Decode(s, bytes);
    match s
    case Field(first, tail) =>
      var a := Decode(first, bytes);
      Canonical(first, bytes);
      Canonical(tail, a.rest);
      Regrouped(bytes, Encode(first, a.value), a.rest, Encode(tail, d.value.rest), d.rest);
    case ListOf(element, _) =>
      var count := TakeNumber(bytes, 4);
      NumberCanonical(bytes, 4);
      CanonicalAll(element, Natural(count.value.n), count.rest);
      Regrouped(bytes, Little(|d.value.items|, 4), count.rest, EncodeAll(element, d.value.items), d.rest);
    case Maybe(inner) =>
      var present := TakeNumber(bytes, 1);
      NumberCanonical(bytes, 1);
      if present.value.n == 1 {
        Canonical(inner, present.rest);
        Regrouped(bytes, Little(1, 1), present.rest, Encode(inner, d.value.value), d.rest);
      }
    case Parallel(left, right) =>
      var a := Decode(left, bytes);
      Canonical(left, bytes);
      Canonical(right, a.rest);
      Regrouped(bytes, Encode(left, a.value), a.rest, Encode(right, d.value.rest), d.rest);
    case _ => ScalarCanonical(s, bytes);
  }

  /** The same for what has no parts. */
  lemma ScalarCanonical(s: Schema, bytes: seq<Byte>)
    requires s.Unsigned? || s.Signed64? || s.Fixed? || s.Text? || s.Name? || s.Done?
    requires Sane(s) && Decode(s, bytes).Decoded?
    ensures var d := Decode(s, bytes); Fits(s, d.value) && bytes == Encode(s, d.value) + d.rest
  {
    hide TakeNumber, TakeText, Little, NameText, Pow256;
    match s
    case Unsigned(width, _, _) => NumberCanonical(bytes, width);
    case Signed64 => Widths(); NumberCanonical(bytes, 8);
    case Text(max) => TextCanonical(bytes, max);
    case Name(max) => TextCanonical(bytes, max);
    case _ =>
  }

  lemma {:induction false} CanonicalAll(element: Schema, count: nat, bytes: seq<Byte>)
    requires Sane(element) && DecodeAll(element, count, bytes).Decoded?
    ensures var d := DecodeAll(element, count, bytes);
            |d.value.items| == count && FitAll(element, d.value.items)
                && bytes == EncodeAll(element, d.value.items) + d.rest
    decreases element, count
  {
    hide Encode, Decode, Fits, Sane;
    if count > 0 {
      var a := Decode(element, bytes);
      var b := DecodeAll(element, count - 1, a.rest);
      Canonical(element, bytes);
      CanonicalAll(element, count - 1, a.rest);
      var items := [a.value] + b.value.items;
      assert items[1..] == b.value.items;
      Regrouped(bytes, Encode(element, a.value), a.rest, EncodeAll(element, b.value.items), b.rest);
    }
  }

  // ---------------------------------------------------------------------------
  // Whole buffers
  // ---------------------------------------------------------------------------

  /** A buffer is accepted when it decodes and nothing is left over. */
  predicate Accepts(s: Schema, bytes: seq<Byte>) { Decode(s, bytes).Decoded? && Decode(s, bytes).rest == [] }

  /** Encoding comes back as itself exactly for the values within the decoder's bounds. */
  lemma ComesBack(s: Schema, v: Value)
    requires Sane(s)
    ensures Decode(s, Encode(s, v)) == Decoded(v, []) <==> Fits(s, v)
  {
    hide Decode, Encode, Fits;
    assert Encode(s, v) + [] == Encode(s, v);
    if Fits(s, v) { RoundTrip(s, v, []); }
    if Decode(s, Encode(s, v)) == Decoded(v, []) { Canonical(s, Encode(s, v)); }
  }

  /** An accepted buffer is the one encoding of its value. */
  lemma OneEncoding(s: Schema, bytes: seq<Byte>)
    requires Sane(s) && Accepts(s, bytes)
    ensures Encode(s, Decode(s, bytes).value) == bytes && Fits(s, Decode(s, bytes).value)
  {
    hide Decode, Encode, Fits;
    Canonical(s, bytes);
  }

  /** No accepted buffer is a strict prefix of another. */
  lemma NoStrictPrefix(s: Schema, bytes: seq<Byte>, more: seq<Byte>)
    requires Sane(s) && Accepts(s, bytes) && more != []
    ensures !Accepts(s, bytes + more)
  {
    hide Decode, Encode, Fits;
    Canonical(s, bytes);
    RoundTrip(s, Decode(s, bytes).value, more);
    assert Encode(s, Decode(s, bytes).value) == bytes;
  }
}

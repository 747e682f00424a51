/** The layout of every durable record and of the snapshot state, with the bounds each field is read under. */
module Schemas {
  import opened Timeline
  import opened Crc32c
  import opened Framing
  import opened Codecs

  const MAX_ITEMS := 65536
  const MAX_REASON := 512

  // ---------------------------------------------------------------------------
  // Fields
  // ---------------------------------------------------------------------------

  const FLAG := Unsigned(1, 0, 1)
  const COUNTER := Unsigned(8, 0, 0xFFFF_FFFF_FFFF_FFFF)
  const ID := Fixed(16)
  const NAME := Name(64)
  const REASON_TEXT := Text(MAX_REASON)

  /** An enumeration of `last + 1` values, one byte wide. */
  function Enumeration(last: nat): Schema { Unsigned(1, 0, last) }

  function Bounded(low: nat, high: nat): Schema { Unsigned(4, low, high) }

  function Many(element: Schema): Schema { ListOf(element, MAX_ITEMS) }

  const BINDING := Enumeration(1)
  const GUARANTEE := Enumeration(3)
  const STATE := Enumeration(14)
  const APPLICABILITY := Enumeration(2)
  const APPLICABILITY_REASON := Enumeration(8)
  const OUTCOME := Enumeration(15)

  const INTERVAL := Structure([Signed64, Signed64])

  // ---------------------------------------------------------------------------
  // Identity and authority
  // ---------------------------------------------------------------------------

  /** A name at a generation: a resource, or a failure domain. */
  const REFERENCE := Structure([NAME, COUNTER])

  const AUTHORITY_FIELDS := [
    COUNTER, COUNTER, ID, COUNTER, ID, COUNTER, NAME, COUNTER, COUNTER, Many(REFERENCE), Many(REFERENCE)]
  const AUTHORITY := Structure(AUTHORITY_FIELDS)

  const PROVENANCE_FIELDS := [Name(48), ID, ID, ID, ID, COUNTER, ID, Signed64, COUNTER, REASON_TEXT]
  const PROVENANCE := Structure(PROVENANCE_FIELDS)

  // ---------------------------------------------------------------------------
  // Capacity, paths and policy
  // ---------------------------------------------------------------------------

  const MAINTENANCE := Structure([INTERVAL, Text(256)])

  const CAPACITY_FIELDS := [NAME, COUNTER, Signed64, Signed64, NAME, COUNTER, Many(MAINTENANCE)]
  const CAPACITY := Structure(CAPACITY_FIELDS)

  const CAPACITY_SNAPSHOT := Structure([ID, COUNTER, COUNTER, Signed64, FLAG, Many(CAPACITY)])

  const PATH := Structure([NAME, COUNTER, Many(NAME), Signed64, FLAG])

  const PATH_SNAPSHOT := Structure([ID, COUNTER, COUNTER, Signed64, FLAG, Many(PATH)])

  const POLICY := Structure([
    NAME, COUNTER, Signed64, FLAG, FLAG, FLAG, Bounded(0, 1024), Signed64, FLAG, Signed64, Signed64, FLAG, Signed64,
    Signed64, FLAG, Signed64, Bounded(1, 4096), Bounded(128, 65536), Bounded(1, 4096), Signed64, Bounded(0, 4096),
    Signed64])

  // ---------------------------------------------------------------------------
  // Reservations
  // ---------------------------------------------------------------------------

  const RECURRENCE := Structure([FLAG, Signed64, Bounded(0, 4096)])

  const TERMS_FIELDS := [
    ID, COUNTER, BINDING, Many(NAME), NAME, COUNTER, INTERVAL, Signed64, Maybe(Signed64), Maybe(Signed64), GUARANTEE,
    Bounded(0, 1000), FLAG, FLAG, Signed64, Signed64, NAME, ListOf(Text(64), 16), RECURRENCE]
  const TERMS := Structure(TERMS_FIELDS)

  const RESERVATION_FIELDS := [
    ID, COUNTER, FLAG, ID, COUNTER, TERMS, AUTHORITY, STATE, APPLICABILITY, APPLICABILITY_REASON, Signed64, Signed64,
    Signed64, Signed64, Signed64, Signed64, Signed64, ID, COUNTER, REASON_TEXT, PROVENANCE, COUNTER]
  const RESERVATION := Structure(RESERVATION_FIELDS)

  const EDGE_FIELDS := [ID, COUNTER, ID, COUNTER, Signed64, COUNTER, REASON_TEXT]
  const EDGE := Structure(EDGE_FIELDS)

  const SERIES_FIELDS := [
    ID, COUNTER, ID, COUNTER, RECURRENCE, INTERVAL, Signed64, STATE, Signed64, Signed64, ID, COUNTER, Many(ID),
    PROVENANCE, COUNTER]
  const SERIES := Structure(SERIES_FIELDS)

  // ---------------------------------------------------------------------------
  // What a durable record carries, by its kind
  // ---------------------------------------------------------------------------

  const ATTEMPT_FIELDS := [ID, ID, OUTCOME, ID, COUNTER, COUNTER, ID, Signed64]
  const ATTEMPT := Structure(ATTEMPT_FIELDS)

  const TRANSITION_FIELDS := [
    ID, COUNTER, STATE, STATE, Signed64, REASON_TEXT, PROVENANCE, Signed64, Maybe(ATTEMPT)]
  const TRANSITION := Structure(TRANSITION_FIELDS)

  const MUTATION_FIELDS := [
    RESERVATION, Maybe(SERIES), Many(RESERVATION), Maybe(EDGE), FLAG, Many(TRANSITION), Maybe(ATTEMPT)]
  const MUTATION := Structure(MUTATION_FIELDS)

  const APPLICABILITY_CHANGE := Structure([ID, COUNTER, APPLICABILITY, APPLICABILITY_REASON, Signed64])

  const BOOT := Structure([COUNTER, ID, Signed64])

  const FENCE := Structure([ID, COUNTER, ID, ID, Signed64, REASON_TEXT, FLAG])

  const CLAIMANT := Structure([ID, COUNTER, Signed64])

  const OVERCOMMIT := Structure([NAME, COUNTER, Signed64, Signed64, INTERVAL, Signed64, FLAG])

  const RETIREMENT := Structure([Parallel(Many(ID), Many(COUNTER)), Signed64])

  const INGESTION := Structure([CAPACITY_SNAPSHOT, Many(NAME)])

  const BOOT_KIND := 1
  const CAPACITY_KIND := 2
  const PATHS_KIND := 3
  const POLICY_KIND := 4
  const COMMIT_KIND := 5
  const AMEND_KIND := 6
  const SERIES_KIND := 7
  const STATE_KIND := 8
  const APPLICABILITY_KIND := 9
  const ATTEMPT_KIND := 10
  const OVERCOMMIT_KIND := 11
  const RETIRE_KIND := 12
  const FENCE_KIND := 13
  const CLAIMANT_KIND := 14

  predicate IsKind(kind: nat) { 1 <= kind <= KINDS }

  function BodyOf(kind: nat): Schema {
    if kind == BOOT_KIND then BOOT
    else if kind == CAPACITY_KIND then INGESTION
    else if kind == PATHS_KIND then PATH_SNAPSHOT
    else if kind == POLICY_KIND then POLICY
    else if kind == COMMIT_KIND || kind == AMEND_KIND || kind == SERIES_KIND then MUTATION
    else if kind == STATE_KIND then TRANSITION
    else if kind == APPLICABILITY_KIND then APPLICABILITY_CHANGE
    else if kind == ATTEMPT_KIND then ATTEMPT
    else if kind == OVERCOMMIT_KIND then OVERCOMMIT
    else if kind == RETIRE_KIND then RETIREMENT
    else if kind == FENCE_KIND then FENCE
    else CLAIMANT
  }

  // ---------------------------------------------------------------------------
  // The snapshot state
  // ---------------------------------------------------------------------------

  const ENTRY_FIELDS := [CAPACITY, ID, Signed64, FLAG, Signed64, Many(COUNTER)]
  const CAPACITY_ENTRY := Structure(ENTRY_FIELDS)

  const PATH_ENTRY := Structure([PATH, ID, Signed64, FLAG, Many(COUNTER)])

  const POLICY_ENTRY := Structure([POLICY, Signed64, Many(COUNTER)])

  const STATE_FIELDS := [
    COUNTER, ID, COUNTER, Many(CAPACITY_ENTRY), Many(PATH_ENTRY), Many(POLICY_ENTRY), Many(RESERVATION), Many(SERIES),
    Many(EDGE), Many(ATTEMPT), Many(FENCE), Many(CLAIMANT), Many(OVERCOMMIT), Many(RESERVATION)]
  const SNAPSHOT_STATE := Structure(STATE_FIELDS)

  // ---------------------------------------------------------------------------
  // Every layout is sound
  // ---------------------------------------------------------------------------

  lemma {:induction false} StructureSane(fields: seq<Schema>)
    requires forall i :: 0 <= i < |fields| ==> Sane(fields[i])
    ensures Sane(Structure(fields))
  {
    if fields != [] { StructureSane(fields[1..]); }
  }

  lemma FieldsSane()
    ensures Sane(FLAG) && Sane(COUNTER) && Sane(ID) && Sane(NAME) && Sane(REASON_TEXT) && Sane(Signed64)
    ensures Sane(BINDING) && Sane(GUARANTEE) && Sane(STATE) && Sane(APPLICABILITY) && Sane(APPLICABILITY_REASON)
            && Sane(OUTCOME)
    ensures Sane(Name(48)) && Sane(Text(256)) && Sane(ListOf(Text(64), 16))
  {
    Widths();
    PowOne();
  }

  lemma BoundedSane(low: nat, high: nat)
    requires high < U32_LIMIT
    ensures Sane(Bounded(low, high))
  {
    Widths();
  }

  lemma ManySane(element: Schema)
    requires Sane(element)
    ensures Sane(Many(element))
  {
  }

  lemma MaybeSane(inner: Schema)
    requires Sane(inner)
    ensures Sane(Maybe(inner))
  {
  }

  lemma AuthoritySane()
    ensures Sane(INTERVAL) && Sane(REFERENCE) && Sane(AUTHORITY) && Sane(PROVENANCE) && Sane(RECURRENCE)
  {
    hide Sane, Structure, Enumeration, Bounded, Many;
    FieldsSane();
    BoundedSane(0, 4096);
    StructureSane([Signed64, Signed64]);
    StructureSane([NAME, COUNTER]);
    ManySane(REFERENCE);
    StructureSane(AUTHORITY_FIELDS);
    StructureSane(PROVENANCE_FIELDS);
    StructureSane([FLAG, Signed64, Bounded(0, 4096)]);
  }

  lemma CapacitySane()
    ensures Sane(CAPACITY) && Sane(CAPACITY_SNAPSHOT) && Sane(INGESTION) && Sane(CAPACITY_ENTRY)
  {
    hide Sane, Structure, Enumeration, Bounded, Many;
    FieldsSane();
    AuthoritySane();
    StructureSane([INTERVAL, Text(256)]);
    ManySane(MAINTENANCE);
    StructureSane(CAPACITY_FIELDS);
    ManySane(CAPACITY);
    StructureSane([ID, COUNTER, COUNTER, Signed64, FLAG, Many(CAPACITY)]);
    ManySane(NAME);
    StructureSane([CAPACITY_SNAPSHOT, Many(NAME)]);
    ManySane(COUNTER);
    StructureSane([CAPACITY, ID, Signed64, FLAG, Signed64, Many(COUNTER)]);
  }

  lemma PathSane()
    ensures Sane(PATH_SNAPSHOT) && Sane(PATH_ENTRY)
  {
    hide Sane, Structure, Enumeration, Bounded, Many;
    FieldsSane();
    ManySane(NAME);
    ManySane(COUNTER);
    StructureSane([NAME, COUNTER, Many(NAME), Signed64, FLAG]);
    ManySane(PATH);
    StructureSane([ID, COUNTER, COUNTER, Signed64, FLAG, Many(PATH)]);
    StructureSane([PATH, ID, Signed64, FLAG, Many(COUNTER)]);
  }

  lemma PolicySane()
    ensures Sane(POLICY) && Sane(POLICY_ENTRY)
  {
    hide Sane, Structure, Enumeration, Bounded, Many;
    FieldsSane();
    BoundedSane(0, 1024);
    BoundedSane(1, 4096);
    BoundedSane(128, 65536);
    BoundedSane(0, 4096);
    ManySane(COUNTER);
    StructureSane([
      NAME, COUNTER, Signed64, FLAG, FLAG, FLAG, Bounded(0, 1024), Signed64, FLAG, Signed64, Signed64, FLAG, Signed64,
      Signed64, FLAG, Signed64, Bounded(1, 4096), Bounded(128, 65536), Bounded(1, 4096), Signed64, Bounded(0, 4096),
      Signed64]);
    StructureSane([POLICY, Signed64, Many(COUNTER)]);
  }

  lemma ReservationSane()
    ensures Sane(TERMS) && Sane(RESERVATION) && Sane(EDGE) && Sane(SERIES)
  {
    hide Sane, Structure, Enumeration, Bounded, Many;
    FieldsSane();
    AuthoritySane();
    BoundedSane(0, 1000);
    ManySane(NAME);
    ManySane(ID);
    MaybeSane(Signed64);
    StructureSane(TERMS_FIELDS);
    StructureSane(RESERVATION_FIELDS);
    StructureSane(EDGE_FIELDS);
    StructureSane(SERIES_FIELDS);
  }

  lemma MutationSane()
    ensures Sane(ATTEMPT) && Sane(TRANSITION) && Sane(MUTATION)
  {
    hide Sane, Structure, Enumeration, Bounded, Many;
    FieldsSane();
    AuthoritySane();
    ReservationSane();
    StructureSane(ATTEMPT_FIELDS);
    MaybeSane(ATTEMPT);
    StructureSane(TRANSITION_FIELDS);
    MaybeSane(SERIES);
    ManySane(RESERVATION);
    MaybeSane(EDGE);
    ManySane(TRANSITION);
    StructureSane(MUTATION_FIELDS);
  }

  lemma NoticesSane()
    ensures Sane(APPLICABILITY_CHANGE) && Sane(BOOT) && Sane(FENCE) && Sane(CLAIMANT) && Sane(OVERCOMMIT)
            && Sane(RETIREMENT)
  {
    hide Structure, Enumeration, Bounded;
    FieldsSane();
    AuthoritySane();
    StructureSane([ID, COUNTER, APPLICABILITY, APPLICABILITY_REASON, Signed64]);
    StructureSane([COUNTER, ID, Signed64]);
    StructureSane([ID, COUNTER, ID, ID, Signed64, REASON_TEXT, FLAG]);
    StructureSane([ID, COUNTER, Signed64]);
    StructureSane([NAME, COUNTER, Signed64, Signed64, INTERVAL, Signed64, FLAG]);
    StructureSane([Parallel(Many(ID), Many(COUNTER)), Signed64]);
  }

  lemma BodySane(kind: nat)
    ensures Sane(BodyOf(kind))
  {
    hide Sane, Structure, Enumeration, Bounded, Many;
    CapacitySane();
    PathSane();
    PolicySane();
    MutationSane();
    NoticesSane();
  }

  lemma SnapshotStateSane()
    ensures Sane(SNAPSHOT_STATE)
  {
    hide Sane, Structure, Enumeration, Bounded, Many;
    FieldsSane();
    CapacitySane();
    PathSane();
    PolicySane();
    ReservationSane();
    MutationSane();
    NoticesSane();
    ManySane(CAPACITY_ENTRY); ManySane(PATH_ENTRY); ManySane(POLICY_ENTRY); ManySane(RESERVATION); ManySane(SERIES);
    ManySane(EDGE); ManySane(ATTEMPT); ManySane(FENCE); ManySane(CLAIMANT); ManySane(OVERCOMMIT);
    StructureSane(STATE_FIELDS);
  }

  // ---------------------------------------------------------------------------
  // The envelope of a durable record
  // ---------------------------------------------------------------------------

  /** Version and kind, then the body. */
  function EncodeRecord(kind: nat, body: Value): seq<Byte> {
    Little(FORMAT_VERSION, 2) + Little(kind, 2) + Encode(BodyOf(kind), body)
  }

  /** The body, if the payload is of this version, carries the kind of its container and is used up. */
  function DecodeRecord(payload: seq<Byte>, kind: nat): Option<Value> {
    var version := TakeNumber(payload, 2);
    if version.Bad? || version.value.n != FORMAT_VERSION then None
    else
      var found := TakeNumber(version.rest, 2);
      if found.Bad? || found.value.n < 1 || found.value.n > KINDS then None
      else
        var body := Decode(BodyOf(found.value.n), found.rest);
        if body.Bad? || found.value.n != kind || body.rest != [] then None else Some(body.value)
  }

  lemma EnvelopeReads(kind: nat, tail: seq<Byte>)
    requires IsKind(kind)
    ensures DecodeRecord(Little(FORMAT_VERSION, 2) + Little(kind, 2) + tail, kind)
            == (var body := Decode(BodyOf(kind), tail); if body.Bad? || body.rest != [] then None else Some(body.value))
  {
    hide Decode, BodyOf, Little;
    Widths();
    NumberRoundTrip(FORMAT_VERSION, 2, Little(kind, 2) + tail);
    NumberRoundTrip(kind, 2, tail);
    assert Little(FORMAT_VERSION, 2) + Little(kind, 2) + tail == Little(FORMAT_VERSION, 2) + (Little(kind, 2) + tail);
  }

  /** A durable record reads back as what was written exactly when every field is within the bounds it is read under. */
  lemma RecordComesBack(kind: nat, body: Value)
    requires IsKind(kind)
    ensures DecodeRecord(EncodeRecord(kind, body), kind) == Some(body) <==> Fits(BodyOf(kind), body)
  {
    hide Decode, Encode, Fits, BodyOf, Little, DecodeRecord;
    BodySane(kind);
    ComesBack(BodyOf(kind), body);
    EnvelopeReads(kind, Encode(BodyOf(kind), body));
  }

  /** An accepted payload is the one encoding of the record it carries. */
  lemma RecordOneEncoding(payload: seq<Byte>, kind: nat)
    requires DecodeRecord(payload, kind).Some?
    ensures IsKind(kind) && EncodeRecord(kind, DecodeRecord(payload, kind).value) == payload
    ensures Fits(BodyOf(kind), DecodeRecord(payload, kind).value)
  {
    hide Decode, Encode, Fits, BodyOf, Little, TakeNumber;
    BodySane(kind);
    NumberCanonical(payload, 2);
    var rest := TakeNumber(payload, 2).rest;
    NumberCanonical(rest, 2);
    OneEncoding(BodyOf(kind), TakeNumber(rest, 2).rest);
    assert payload == Little(FORMAT_VERSION, 2) + (Little(kind, 2) + TakeNumber(rest, 2).rest);
  }

  /** A payload is accepted under one kind only. */
  lemma OneKind(payload: seq<Byte>, a: nat, b: nat)
    requires DecodeRecord(payload, a).Some? && a != b
    ensures DecodeRecord(payload, b) == None
  {
    hide Decode, BodyOf, Little;
  }

  /** Nothing may be cut from an accepted payload, and nothing added to it, whatever kind it is then read as. */
  lemma NoOtherLength(payload: seq<Byte>, more: seq<Byte>, a: nat, b: nat)
    requires DecodeRecord(payload, a).Some? && more != []
    ensures DecodeRecord(payload + more, b) == None
  {
    hide Decode, Encode, Fits, BodyOf, Little, DecodeRecord, EncodeRecord;
    RecordOneEncoding(payload, a);
    var tail := Encode(BodyOf(a), DecodeRecord(payload, a).value);
    var head := Little(FORMAT_VERSION, 2) + Little(a, 2);
    assert payload == head + tail by { EncodedAs(a, DecodeRecord(payload, a).value); }
    assert payload + more == head + (tail + more);
    EnvelopeReads(a, tail);
    EnvelopeReads(a, tail + more);
    BodySane(a);
    NoStrictPrefix(BodyOf(a), tail, more);
    if DecodeRecord(payload + more, b).Some? && a != b { OtherKind(a, b, tail + more); }
  }

  lemma EncodedAs(kind: nat, body: Value)
    ensures EncodeRecord(kind, body) == Little(FORMAT_VERSION, 2) + Little(kind, 2) + Encode(BodyOf(kind), body)
  {
  }

  lemma OtherKind(a: nat, b: nat, tail: seq<Byte>)
    requires IsKind(a) && a != b
    ensures DecodeRecord(Little(FORMAT_VERSION, 2) + Little(a, 2) + tail, b) == None
  {
    hide Decode, BodyOf, Little;
    Widths();
    NumberRoundTrip(FORMAT_VERSION, 2, Little(a, 2) + tail);
    NumberRoundTrip(a, 2, tail);
    assert Little(FORMAT_VERSION, 2) + Little(a, 2) + tail == Little(FORMAT_VERSION, 2) + (Little(a, 2) + tail);
  }

  /** The snapshot state has no version of its own: it reads back exactly within the bounds of its fields. */
  lemma StateComesBack(state: Value)
    ensures Decode(SNAPSHOT_STATE, Encode(SNAPSHOT_STATE, state)) == Decoded(state, []) <==> Fits(SNAPSHOT_STATE, state)
  {
    hide Decode, Encode, Fits, Structure, Many, Enumeration, Bounded;
    SnapshotStateSane();
    ComesBack(SNAPSHOT_STATE, state);
  }

  /** An accepted snapshot payload is the one encoding of its state, and no other length of it is accepted. */
  lemma StateOneEncoding(payload: seq<Byte>, more: seq<Byte>)
    requires Accepts(SNAPSHOT_STATE, payload)
    ensures Encode(SNAPSHOT_STATE, Decode(SNAPSHOT_STATE, payload).value) == payload
    ensures Fits(SNAPSHOT_STATE, Decode(SNAPSHOT_STATE, payload).value)
    ensures more != [] ==> !Accepts(SNAPSHOT_STATE, payload + more)
  {
    hide Decode, Encode, Fits, Structure, Many, Enumeration, Bounded;
    SnapshotStateSane();
    OneEncoding(SNAPSHOT_STATE, payload);
    if more != [] { NoStrictPrefix(SNAPSHOT_STATE, payload, more); }
  }
}

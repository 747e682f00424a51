/**
 Durable records of the model as values of their layouts and back, and what a
 record read from the journal means.
 */
module Payloads {
  import opened Timeline
  import opened Entries
  import opened Records
  import opened FabricState
  import opened Crc32c
  import opened Framing
  import opened Codecs
  import opened Schemas

  // ---------------------------------------------------------------------------
  // Scalars
  // ---------------------------------------------------------------------------

  const ID_LIMIT: nat := 0x1_0000_0000_0000_0000_0000_0000_0000_0000

  /** An identity as it is written, highest byte first: bytes and numbers are ordered alike. */
  function Big(v: nat, n: nat): seq<Byte> {
    if n == 0 then [] else Big(v / 256, n - 1) + [ByteOf(v % 256)]
  }

  function FromBig(bytes: seq<Byte>): nat
    decreases |bytes|
  {
    if bytes == [] then 0 else 256 * FromBig(bytes[..|bytes| - 1]) + ValueOfByte(bytes[|bytes| - 1])
  }

  lemma {:induction false} BigRoundTrip(v: nat, n: nat)
    ensures |Big(v, n)| == n && (v < Pow256(n) ==> FromBig(Big(v, n)) == v)
    decreases n
  {
    hide ByteOf, ValueOfByte;
    if n > 0 {
      BigRoundTrip(v / 256, n - 1);
      ByteRoundTrip(v % 256);
      assert Big(v, n)[..n - 1] == Big(v / 256, n - 1);
    }
  }

  lemma {:induction false} BigBounded(bytes: seq<Byte>)
    ensures FromBig(bytes) < Pow256(|bytes|)
    decreases |bytes|
  {
    hide ByteOf, ValueOfByte;
    if bytes != [] {
      BigBounded(bytes[..|bytes| - 1]);
      ByteBack(bytes[|bytes| - 1]);
    }
  }

  lemma SixteenBytes()
    ensures Pow256(16) == ID_LIMIT && Pow256(8) == U64_LIMIT
  {
    Widths();
    assert Pow256(16) == 256 * (256 * (256 * (256 * Pow256(12))));
    assert Pow256(12) == 256 * (256 * (256 * (256 * Pow256(8))));
  }

  function CharOf(b: Byte): char {
    ByteBack(b);
    ValueOfByte(b) as char
  }

  function Chars(bytes: seq<Byte>): string {
    seq(|bytes|, i requires 0 <= i < |bytes| => CharOf(bytes[i]))
  }

  function TextBytes(s: string): seq<Byte> {
    seq(|s|, i requires 0 <= i < |s| => ByteOf(s[i] as int))
  }

  /** A name the decoder takes: one-byte characters, all of them permitted. */
  predicate NameOk(s: string) {
    |s| <= 64 && (forall i :: 0 <= i < |s| ==> s[i] as int < 256) && NameText(TextBytes(s))
  }

  lemma TextBack(s: string)
    requires forall i :: 0 <= i < |s| ==> s[i] as int < 256
    ensures Chars(TextBytes(s)) == s
  {
    hide ByteOf, ValueOfByte;
    forall i | 0 <= i < |s| ensures Chars(TextBytes(s))[i] == s[i] {
      ByteRoundTrip(s[i] as int);
    }
  }

  lemma CharsBack(bytes: seq<Byte>)
    ensures TextBytes(Chars(bytes)) == bytes && forall i :: 0 <= i < |Chars(bytes)| ==> Chars(bytes)[i] as int < 256
  {
    hide ByteOf, ValueOfByte;
    forall i | 0 <= i < |bytes| ensures Chars(bytes)[i] as int < 256 && TextBytes(Chars(bytes))[i] == bytes[i] {
      ByteBack(bytes[i]);
    }
  }

  // ---------------------------------------------------------------------------
  // Rows and lists
  // ---------------------------------------------------------------------------

  /** The value of a structure, field by field. */
  function Row(vs: seq<Value>): Value {
    if vs == [] then End else Both(vs[0], Row(vs[1..]))
  }

  /** One field of a structure. */
  function Col(v: Value, i: nat): Value
    decreases i
  {
    if !v.Both? then End else if i == 0 then v.first else Col(v.rest, i - 1)
  }

  lemma {:induction false} ColsOfRow(vs: seq<Value>)
    ensures forall i :: 0 <= i < |vs| ==> Col(Row(vs), i) == vs[i]
  {
    if vs != [] {
      ColsOfRow(vs[1..]);
      forall i | 0 <= i < |vs| ensures Col(Row(vs), i) == vs[i] {
        if i > 0 { assert Col(Row(vs[1..]), i - 1) == vs[1..][i - 1]; }
      }
    }
  }

  /** A structure fits when its fields do. */
  lemma {:induction false} RowFits(fields: seq<Schema>, vs: seq<Value>)
    requires |fields| == |vs| && forall i :: 0 <= i < |vs| ==> Fits(fields[i], vs[i])
    ensures Fits(Structure(fields), Row(vs))
  {
    if vs != [] {
      forall i | 0 <= i < |vs| - 1 ensures Fits(fields[1..][i], vs[1..][i]) {
        assert Fits(fields[i + 1], vs[i + 1]);
      }
      RowFits(fields[1..], vs[1..]);
    }
  }

  /** The fields of a fitting structure fit. */
  lemma {:induction false} ColsFit(fields: seq<Schema>, v: Value)
    requires Fits(Structure(fields), v)
    ensures forall i :: 0 <= i < |fields| ==> Fits(fields[i], Col(v, i))
  {
    if fields != [] {
      assert v.Both? && Fits(fields[0], v.first) && Fits(Structure(fields[1..]), v.rest);
      ColsFit(fields[1..], v.rest);
      forall i | 0 <= i < |fields| ensures Fits(fields[i], Col(v, i)) {
        if i > 0 { assert Fits(fields[1..][i - 1], Col(v.rest, i - 1)); }
      }
    }
  }

  function ListValue<T>(xs: seq<T>, f: T -> Value): Value {
    Items(seq(|xs|, i requires 0 <= i < |xs| => f(xs[i])))
  }

  function ItemsOf<T>(v: Value, f: Value -> T): seq<T> {
    if v.Items? then seq(|v.items|, i requires 0 <= i < |v.items| => f(v.items[i])) else []
  }

  lemma ListBack<T>(xs: seq<T>, f: T -> Value, g: Value -> T)
    requires forall i :: 0 <= i < |xs| ==> g(f(xs[i])) == xs[i]
    ensures ItemsOf(ListValue(xs, f), g) == xs
  {
  }

  lemma {:induction false} AllFit(element: Schema, items: seq<Value>)
    requires forall i :: 0 <= i < |items| ==> Fits(element, items[i])
    ensures FitAll(element, items)
  {
    hide Fits;
    if items != [] {
      forall i | 0 <= i < |items| - 1 ensures Fits(element, items[1..][i]) {
        assert Fits(element, items[i + 1]);
      }
      AllFit(element, items[1..]);
    }
  }

  lemma {:induction false} EachFits(element: Schema, items: seq<Value>)
    requires FitAll(element, items)
    ensures forall i :: 0 <= i < |items| ==> Fits(element, items[i])
  {
    hide Fits;
    if items != [] {
      EachFits(element, items[1..]);
      forall i | 0 <= i < |items| ensures Fits(element, items[i]) {
        if i > 0 { assert Fits(element, items[1..][i - 1]); }
      }
    }
  }

  lemma ListFits<T>(element: Schema, xs: seq<T>, f: T -> Value)
    requires |xs| <= MAX_ITEMS && forall i :: 0 <= i < |xs| ==> Fits(element, f(xs[i]))
    ensures Fits(Many(element), ListValue(xs, f))
  {
    AllFit(element, ListValue(xs, f).items);
  }

  lemma ItemsFit(element: Schema, v: Value)
    requires Fits(Many(element), v)
    ensures v.Items? && |v.items| <= MAX_ITEMS && forall i :: 0 <= i < |v.items| ==> Fits(element, v.items[i])
  {
    EachFits(element, v.items);
  }

  function NumOf(v: Value): int { if v.Num? then v.n else 0 }

  function BytesOf(v: Value): seq<Byte> { if v.Blob? then v.bytes else [] }

  function IdValue(id: Identity): Value { Blob(Big(id, 16)) }

  function IdOf(v: Value): Identity { FromBig(BytesOf(v)) }

  function CounterOf(v: Value): nat { Natural(NumOf(v)) }

  function NameValue(s: string): Value { Blob(TextBytes(s)) }

  function NameOf(v: Value): string { Chars(BytesOf(v)) }

  function FlagValue(on: bool): Value { Num(if on then 1 else 0) }

  function FlagOf(v: Value): bool { NumOf(v) == 1 }

  const NIL := IdValue(0)
  const NOTHING := Num(0)
  const BLANK := Blob([])

  predicate Signed(n: int) { -I64_LIMIT <= n < I64_LIMIT }

  lemma IdBack(id: Identity)
    requires id < ID_LIMIT
    ensures Fits(ID, IdValue(id)) && IdOf(IdValue(id)) == id
  {
    hide Big, FromBig, Pow256;
    SixteenBytes();
    BigRoundTrip(id, 16);
  }

  lemma IdWithin(v: Value)
    requires Fits(ID, v)
    ensures IdOf(v) < ID_LIMIT
  {
    hide FromBig, Pow256;
    SixteenBytes();
    BigBounded(BytesOf(v));
  }

  lemma NameBack(s: string)
    requires NameOk(s)
    ensures Fits(NAME, NameValue(s)) && NameOf(NameValue(s)) == s
  {
    TextBack(s);
  }

  lemma NameWithin(v: Value)
    requires Fits(NAME, v)
    ensures NameOk(NameOf(v))
  {
    CharsBack(BytesOf(v));
  }

  // ---------------------------------------------------------------------------
  // Enumerations
  // ---------------------------------------------------------------------------

  function StateCode(s: ReservationState): nat {
    match s
    case Declared => 0
    case Validated => 1
    case Pending => 2
    case Committed => 3
    case Active => 4
    case AmendmentPending => 5
    case RecallPending => 6
    case Released => 7
    case Expired => 8
    case Revoked => 9
    case Fenced => 10
    case Stale => 11
    case Superseded => 12
    case Rejected => 13
    case Retired => 14
  }

  function StateOf(code: int): ReservationState {
    match code
    case 1 => Validated
    case 2 => Pending
    case 3 => Committed
    case 4 => Active
    case 5 => AmendmentPending
    case 6 => RecallPending
    case 7 => Released
    case 8 => Expired
    case 9 => Revoked
    case 10 => Fenced
    case 11 => Stale
    case 12 => Superseded
    case 13 => Rejected
    case 14 => Retired
    case _ => Declared
  }

  function ClassOf(code: int): GuaranteeClass {
    if code == 0 then Scavenger else if code == 1 then Preemptible else if code == 2 then Protected else Guaranteed
  }

  function ApplicabilityCode(a: Applicability): nat {
    match a
    case Current => 0
    case RevalidationRequired => 1
    case StaleBinding => 2
  }

  function ApplicabilityOf(code: int): Applicability {
    if code == 0 then Current else if code == 1 then RevalidationRequired else StaleBinding
  }

  function ReasonCode(r: Reason): nat {
    match r
    case NoReason => 0
    case ResourceGenerationChanged => 1
    case ResourceWithdrawn => 2
    case PolicyMaterialChange => 6
  }

  /** Reasons that paths and failure domains give are outside the model. */
  predicate KnownReason(code: int) { code == 0 || code == 1 || code == 2 || code == 6 }

  function ReasonOf(code: int): Reason {
    if code == 1 then ResourceGenerationChanged
    else if code == 2 then ResourceWithdrawn
    else if code == 6 then PolicyMaterialChange
    else NoReason
  }

  function OutcomeCode(o: Outcome): nat {
    match o
    case Committable => 0
    case InsufficientCapacity => 1
    case PolicyRejected => 2
    case StaleResource => 3
    case EmergencyOvercommit => 9
  }

  predicate KnownOutcome(code: int) { 0 <= code <= 3 || code == 9 }

  function OutcomeOf(code: int): Outcome {
    if code == 1 then InsufficientCapacity
    else if code == 2 then PolicyRejected
    else if code == 3 then StaleResource
    else if code == 9 then EmergencyOvercommit
    else Committable
  }

  lemma CodesBack(s: ReservationState, g: GuaranteeClass, a: Applicability, r: Reason, o: Outcome)
    ensures StateOf(StateCode(s)) == s && Fits(STATE, Num(StateCode(s)))
    ensures ClassOf(g.Rank()) == g && Fits(GUARANTEE, Num(g.Rank()))
    ensures ApplicabilityOf(ApplicabilityCode(a)) == a && Fits(APPLICABILITY, Num(ApplicabilityCode(a)))
    ensures ReasonOf(ReasonCode(r)) == r && Fits(APPLICABILITY_REASON, Num(ReasonCode(r))) && KnownReason(ReasonCode(r))
    ensures OutcomeOf(OutcomeCode(o)) == o && Fits(OUTCOME, Num(OutcomeCode(o))) && KnownOutcome(OutcomeCode(o))
  {
    CodesReadBack(s, g, a, r, o);
    hide StateCode, StateOf, ApplicabilityCode, ApplicabilityOf, ReasonCode, ReasonOf, OutcomeCode, OutcomeOf,
         ClassOf, KnownReason, KnownOutcome;
  }

  lemma CodesReadBack(s: ReservationState, g: GuaranteeClass, a: Applicability, r: Reason, o: Outcome)
    ensures StateOf(StateCode(s)) == s && StateCode(s) <= 14
    ensures ClassOf(g.Rank()) == g && g.Rank() <= 3
    ensures ApplicabilityOf(ApplicabilityCode(a)) == a && ApplicabilityCode(a) <= 2
    ensures ReasonOf(ReasonCode(r)) == r && ReasonCode(r) <= 8 && KnownReason(ReasonCode(r))
    ensures OutcomeOf(OutcomeCode(o)) == o && OutcomeCode(o) <= 15 && KnownOutcome(OutcomeCode(o))
  {
  }

  // ---------------------------------------------------------------------------
  // Records
  // ---------------------------------------------------------------------------

  function IntervalValue(i: Interval): Value { Row([Num(i.start), Num(i.end)]) }

  function IntervalOf(v: Value): Interval { Interval(NumOf(Col(v, 0)), NumOf(Col(v, 1))) }

  predicate IntervalOk(i: Interval) { Signed(i.start) && Signed(i.end) }

  lemma IntervalBack(i: Interval)
    requires IntervalOk(i)
    ensures Fits(INTERVAL, IntervalValue(i)) && IntervalOf(IntervalValue(i)) == i
  {
    var vs := [Num(i.start), Num(i.end)];
    RowFits([Signed64, Signed64], vs);
    ColsOfRow(vs);
    hide Structure, Row;
  }

  lemma IntervalWithin(v: Value)
    requires Fits(INTERVAL, v)
    ensures IntervalOk(IntervalOf(v))
  {
    ColsFit([Signed64, Signed64], v);
    assert Fits(Signed64, Col(v, 0)) && Fits(Signed64, Col(v, 1));
  }

  function RefValue(r: ResourceRef): Value { Row([NameValue(r.resource), Num(r.generation)]) }

  function RefOf(v: Value): ResourceRef { ResourceRef(NameOf(Col(v, 0)), CounterOf(Col(v, 1))) }

  predicate RefOk(r: ResourceRef) { NameOk(r.resource) && r.generation < U64_LIMIT }

  lemma RefBack(r: ResourceRef)
    requires RefOk(r)
    ensures Fits(REFERENCE, RefValue(r)) && RefOf(RefValue(r)) == r
  {
    hide NameOk;
    NameBack(r.resource);
    hide NameOf, NameValue;
    var vs := [NameValue(r.resource), Num(r.generation)];
    RowFits([NAME, COUNTER], vs);
    ColsOfRow(vs);
    hide Structure, Row;
  }

  lemma RefWithin(v: Value)
    requires Fits(REFERENCE, v)
    ensures RefOk(RefOf(v))
  {
    hide NameOk, NameOf;
    ColsFit([NAME, COUNTER], v);
    assert Fits(NAME, Col(v, 0)) && Fits(COUNTER, Col(v, 1));
    NameWithin(Col(v, 0));
  }

  function RecurrenceValue(r: Recurrence): Value { Row([FlagValue(r.enabled), Num(r.period), Num(r.count)]) }

  function RecurrenceOf(v: Value): Recurrence {
    Recurrence(FlagOf(Col(v, 0)), NumOf(Col(v, 1)), CounterOf(Col(v, 2)))
  }

  predicate RecurrenceOk(r: Recurrence) { Signed(r.period) && r.count <= 4096 }

  lemma RecurrenceBack(r: Recurrence)
    requires RecurrenceOk(r)
    ensures Fits(RECURRENCE, RecurrenceValue(r)) && RecurrenceOf(RecurrenceValue(r)) == r
  {
    var vs := [FlagValue(r.enabled), Num(r.period), Num(r.count)];
    RowFits([FLAG, Signed64, Bounded(0, 4096)], vs);
    ColsOfRow(vs);
    hide Structure, Row;
  }

  lemma RecurrenceWithin(v: Value)
    requires Fits(RECURRENCE, v)
    ensures RecurrenceOk(RecurrenceOf(v))
  {
    ColsFit([FLAG, Signed64, Bounded(0, 4096)], v);
    assert Fits(Signed64, Col(v, 1)) && Fits(Bounded(0, 4096), Col(v, 2));
  }

  /** The terms of a reservation; fields the model leaves out are at their defaults. */
  function TermsColumns(t: Terms): seq<Value> {
    [IdValue(t.claimant), Num(t.claimantGeneration), NOTHING, ListValue(t.resources, NameValue), BLANK, NOTHING,
     IntervalValue(t.interval), Num(t.amount), Missing, Missing, Num(t.guarantee.Rank()), NOTHING, FlagValue(false),
     FlagValue(t.recallPermitted), NOTHING, Num(t.headroom), BLANK, Items([]), RecurrenceValue(t.recurrence)]
  }

  function TermsValue(t: Terms): Value { Row(TermsColumns(t)) }

  function TermsOf(v: Value): Terms {
    Terms(IdOf(Col(v, 0)), CounterOf(Col(v, 1)), ItemsOf(Col(v, 3), NameOf), IntervalOf(Col(v, 6)), NumOf(Col(v, 7)),
          ClassOf(NumOf(Col(v, 10))), FlagOf(Col(v, 13)), NumOf(Col(v, 15)), RecurrenceOf(Col(v, 18)))
  }

  predicate NamesOk(names: seq<ResourceName>) {
    |names| <= MAX_ITEMS && forall i :: 0 <= i < |names| ==> NameOk(names[i])
  }

  predicate TermsOk(t: Terms) {
    && t.claimant < ID_LIMIT && t.claimantGeneration < U64_LIMIT && NamesOk(t.resources) && IntervalOk(t.interval)
    && Signed(t.amount) && Signed(t.headroom) && RecurrenceOk(t.recurrence)
  }

  lemma NamesBack(names: seq<ResourceName>)
    requires NamesOk(names)
    ensures Fits(Many(NAME), ListValue(names, NameValue)) && ItemsOf(ListValue(names, NameValue), NameOf) == names
  {
    hide NameOk, NameValue, NameOf;
    forall i | 0 <= i < |names| ensures Fits(NAME, NameValue(names[i])) && NameOf(NameValue(names[i])) == names[i] {
      NameBack(names[i]);
    }
    ListFits(NAME, names, NameValue);
    ListBack(names, NameValue, NameOf);
  }

  lemma NamesWithin(v: Value)
    requires Fits(Many(NAME), v)
    ensures NamesOk(ItemsOf(v, NameOf))
  {
    hide NameOk, NameOf;
    ItemsFit(NAME, v);
    forall i | 0 <= i < |v.items| ensures NameOk(NameOf(v.items[i])) {
      NameWithin(v.items[i]);
    }
  }

  lemma DefaultsFit()
    ensures Fits(ID, NIL) && IdOf(NIL) == 0 && Fits(NAME, BLANK) && Fits(Name(48), BLANK) && Fits(REASON_TEXT, BLANK)
    ensures Fits(COUNTER, NOTHING) && Fits(Signed64, NOTHING) && Fits(FLAG, NOTHING) && Fits(BINDING, NOTHING)
    ensures Fits(STATE, NOTHING) && Fits(Bounded(0, 1000), NOTHING) && Fits(Text(256), BLANK)
    ensures Fits(Maybe(Signed64), Missing) && Fits(ListOf(Text(64), 16), Items([])) && Fits(Many(REFERENCE), Items([]))
    ensures forall on :: Fits(FLAG, FlagValue(on)) && FlagOf(FlagValue(on)) == on
  {
    hide Big, FromBig, Structure;
    IdBack(0);
  }

  lemma SignedFits(n: int)
    requires Signed(n)
    ensures Fits(Signed64, Num(n))
  {
  }

  lemma CounterFits(n: nat)
    requires n < U64_LIMIT
    ensures Fits(COUNTER, Num(n))
  {
  }

  lemma TermsBack(t: Terms)
    requires TermsOk(t)
    ensures Fits(TERMS, TermsValue(t)) && TermsOf(TermsValue(t)) == t
  {
    hide Fits, Structure, Row, ListValue, ItemsOf, NamesOk, NameOk, NameOf, NameValue, IntervalValue, IntervalOf,
         RecurrenceValue, RecurrenceOf, IdValue, IdOf, Many, ClassOf;
    DefaultsFit();
    SignedFits(t.amount);
    SignedFits(t.headroom);
    CounterFits(t.claimantGeneration);
    IdBack(t.claimant);
    NamesBack(t.resources);
    IntervalBack(t.interval);
    RecurrenceBack(t.recurrence);
    CodesBack(Declared, t.guarantee, Current, NoReason, Committable);
    RowFits(TERMS_FIELDS, TermsColumns(t));
    ColsOfRow(TermsColumns(t));
  }

  lemma TermsWithin(v: Value)
    requires Fits(TERMS, v)
    ensures TermsOk(TermsOf(v))
  {
    hide Structure, ItemsOf, NamesOk, NameOk, NameOf, IntervalOf, RecurrenceOf, IdOf, Many, IntervalOk, RecurrenceOk;
    ColsFit(TERMS_FIELDS, v);
    var f := TERMS_FIELDS;
    assert f[0] == ID && f[1] == COUNTER && f[3] == Many(NAME) && f[6] == INTERVAL && f[7] == Signed64
           && f[15] == Signed64
           && f[18] == RECURRENCE;
    IdWithin(Col(v, 0));
    NamesWithin(Col(v, 3));
    IntervalWithin(Col(v, 6));
    RecurrenceWithin(Col(v, 18));
  }

  const UNATTRIBUTED := Row([BLANK, NIL, NIL, NIL, NIL, NOTHING, NIL, NOTHING, NOTHING, BLANK])

  lemma UnattributedFits()
    ensures Fits(PROVENANCE, UNATTRIBUTED)
  {
    hide Structure, Row, Fits, IdValue;
    DefaultsFit();
    RowFits(PROVENANCE_FIELDS, [BLANK, NIL, NIL, NIL, NIL, NOTHING, NIL, NOTHING, NOTHING, BLANK]);
  }

  /** The binding of a record: the resource generations it was admitted under. */
  function AuthorityColumns(refs: seq<ResourceRef>): seq<Value> {
    [NOTHING, NOTHING, NIL, NOTHING, NIL, NOTHING, BLANK, NOTHING, NOTHING, ListValue(refs, RefValue), Items([])]
  }

  function AuthorityValue(refs: seq<ResourceRef>): Value { Row(AuthorityColumns(refs)) }

  function RefsOf(v: Value): seq<ResourceRef> { ItemsOf(Col(v, 9), RefOf) }

  predicate RefsOk(refs: seq<ResourceRef>) {
    |refs| <= MAX_ITEMS && forall i :: 0 <= i < |refs| ==> RefOk(refs[i])
  }

  lemma RefsBack(refs: seq<ResourceRef>)
    requires RefsOk(refs)
    ensures Fits(AUTHORITY, AuthorityValue(refs)) && RefsOf(AuthorityValue(refs)) == refs
  {
    hide Structure, Row, Fits, IdValue, RefValue, RefOf, RefOk;
    forall i | 0 <= i < |refs| ensures Fits(REFERENCE, RefValue(refs[i])) && RefOf(RefValue(refs[i])) == refs[i] {
      RefBack(refs[i]);
    }
    ListFits(REFERENCE, refs, RefValue);
    ListBack(refs, RefValue, RefOf);
    hide ListValue, ItemsOf;
    DefaultsFit();
    RowFits(AUTHORITY_FIELDS, AuthorityColumns(refs));
    ColsOfRow(AuthorityColumns(refs));
  }

  lemma RefsWithin(v: Value)
    requires Fits(AUTHORITY, v)
    ensures RefsOk(RefsOf(v))
  {
    hide Structure, Fits, RefOf, RefOk, Many;
    ColsFit(AUTHORITY_FIELDS, v);
    assert AUTHORITY_FIELDS[9] == Many(REFERENCE);
    var w := Col(v, 9);
    ItemsFit(REFERENCE, w);
    forall i | 0 <= i < |w.items| ensures RefOk(RefOf(w.items[i])) {
      RefWithin(w.items[i]);
    }
  }

  function Or<T>(o: Option<T>, default: T): T { if o.Some? then o.value else default }

  function RecordColumns(r: Record): seq<Value> {
    var predecessor := Or(r.predecessor, Key(0, 0));
    [IdValue(r.id), Num(r.generation), FlagValue(r.series.Some?), IdValue(Or(r.series, 0)), NOTHING,
     TermsValue(r.terms),
     AuthorityValue(r.refs), Num(StateCode(r.state)), Num(ApplicabilityCode(r.applicability)),
         Num(ReasonCode(r.reason)),
     NOTHING, NOTHING, NOTHING, NOTHING, Num(r.recallAt), Num(r.grace), NOTHING, IdValue(predecessor.id),
     Num(predecessor.generation), BLANK, UNATTRIBUTED, NOTHING]
  }

  function RecordValue(r: Record): Value { Row(RecordColumns(r)) }

  function KeyAt(v: Value, i: nat): Key { Key(IdOf(Col(v, i)), CounterOf(Col(v, i + 1))) }

  function RecordOf(v: Value): Record {
    Record(IdOf(Col(v, 0)), CounterOf(Col(v, 1)), TermsOf(Col(v, 5)), RefsOf(Col(v, 6)), StateOf(NumOf(Col(v, 7))),
           ApplicabilityOf(NumOf(Col(v, 8))), ReasonOf(NumOf(Col(v, 9))), NumOf(Col(v, 14)), NumOf(Col(v, 15)),
           if IdOf(Col(v, 17)) == 0 then None else Some(KeyAt(v, 17)),
           if FlagOf(Col(v, 2)) then Some(IdOf(Col(v, 3))) else None)
  }

  /** The record's reason is one the model has. */
  predicate KnownRecord(v: Value) { KnownReason(NumOf(Col(v, 9))) }

  predicate KeyOk(k: Key) { k.id < ID_LIMIT && k.generation < U64_LIMIT }

  predicate RecordOk(r: Record) {
    && KeyOk(r.KeyOf()) && TermsOk(r.terms) && RefsOk(r.refs) && Signed(r.recallAt) && Signed(r.grace)
    && (r.predecessor.Some? ==> KeyOk(r.predecessor.value) && r.predecessor.value.id != 0)
    && (r.series.Some? ==> r.series.value < ID_LIMIT)
  }

  lemma RecordBack(r: Record)
    requires RecordOk(r)
    ensures Fits(RESERVATION, RecordValue(r)) && RecordOf(RecordValue(r)) == r && KnownRecord(RecordValue(r))
  {
    hide Fits, Structure, Row, TermsValue, TermsOf, TermsOk, RefsOf, RefsOk, AuthorityValue, IdValue, IdOf, Many,
         StateCode, StateOf, ApplicabilityCode, ApplicabilityOf, ReasonCode, ReasonOf, KnownReason;
    DefaultsFit();
    SignedFits(r.recallAt);
    SignedFits(r.grace);
    CounterFits(r.generation);
    UnattributedFits();
    var predecessor := Or(r.predecessor, Key(0, 0));
    IdBack(r.id);
    IdBack(predecessor.id);
    CounterFits(predecessor.generation);
    IdBack(Or(r.series, 0));
    TermsBack(r.terms);
    RefsBack(r.refs);
    CodesBack(r.state, Guaranteed, r.applicability, r.reason, Committable);
    RowFits(RESERVATION_FIELDS, RecordColumns(r));
    ColsOfRow(RecordColumns(r));
  }

  lemma RecordWithin(v: Value)
    requires Fits(RESERVATION, v)
    ensures RecordOk(RecordOf(v))
  {
    hide Structure, TermsOf, TermsOk, RefsOf, RefsOk, IdOf, Many, StateOf;
    ColsFit(RESERVATION_FIELDS, v);
    var f := RESERVATION_FIELDS;
    assert f[0] == ID && f[1] == COUNTER && f[3] == ID && f[5] == TERMS && f[6] == AUTHORITY;
    assert f[14] == Signed64 && f[15] == Signed64 && f[17] == ID && f[18] == COUNTER;
    IdWithin(Col(v, 0));
    IdWithin(Col(v, 3));
    IdWithin(Col(v, 17));
    TermsWithin(Col(v, 5));
    RefsWithin(Col(v, 6));
  }

  // ---------------------------------------------------------------------------
  // Attempts, capacity statements and transitions
  // ---------------------------------------------------------------------------

  /** How fingerprints are written as sixteen bytes, and which request those bytes stand for. */
  datatype Printing = Printing(write: Fingerprint -> seq<Byte>, read: seq<Byte> -> Fingerprint) {
    predicate Tells(f: Fingerprint) { |write(f)| == 16 && read(write(f)) == f }
  }

  function AttemptColumns(p: Printing, a: Attempt): seq<Value> {
    [IdValue(a.id), Blob(p.write(a.fingerprint)), Num(OutcomeCode(a.outcome)), IdValue(a.reservation.id),
     Num(a.reservation.generation), NOTHING, NIL, NOTHING]
  }

  function AttemptValue(p: Printing, a: Attempt): Value { Row(AttemptColumns(p, a)) }

  function AttemptAt(p: Printing, v: Value): Attempt {
    Attempt(IdOf(Col(v, 0)), p.read(BytesOf(Col(v, 1))), OutcomeOf(NumOf(Col(v, 2))), KeyAt(v, 3))
  }

  predicate KnownAttempt(p: Printing, v: Value) {
    KnownOutcome(NumOf(Col(v, 2))) && p.write(p.read(BytesOf(Col(v, 1)))) == BytesOf(Col(v, 1))
  }

  predicate AttemptOk(p: Printing, a: Attempt) {
    a.id < ID_LIMIT && p.Tells(a.fingerprint) && KeyOk(a.reservation)
  }

  lemma AttemptBack(p: Printing, a: Attempt)
    requires AttemptOk(p, a)
    ensures Fits(ATTEMPT, AttemptValue(p, a)) && AttemptAt(p, AttemptValue(p, a)) == a
            && KnownAttempt(p, AttemptValue(p, a))
  {
    hide Structure, Row, IdValue, IdOf, OutcomeOf, OutcomeCode, KnownOutcome;
    DefaultsFit();
    CounterFits(a.reservation.generation);
    IdBack(a.id);
    IdBack(a.reservation.id);
    CodesBack(Declared, Guaranteed, Current, NoReason, a.outcome);
    RowFits(ATTEMPT_FIELDS, AttemptColumns(p, a));
    ColsOfRow(AttemptColumns(p, a));
  }

  function MaybeAttempt(p: Printing, a: Option<Attempt>): Value {
    if a.None? then Missing else Given(AttemptValue(p, a.value))
  }

  function MaybeAttemptAt(p: Printing, v: Value): Option<Attempt> {
    if v.Given? then Some(AttemptAt(p, v.value)) else None
  }

  predicate KnownMaybeAttempt(p: Printing, v: Value) { v.Given? ==> KnownAttempt(p, v.value) }

  predicate MaybeAttemptOk(p: Printing, a: Option<Attempt>) { a.Some? ==> AttemptOk(p, a.value) }

  lemma MaybeAttemptBack(p: Printing, a: Option<Attempt>)
    requires MaybeAttemptOk(p, a)
    ensures var v := MaybeAttempt(p, a);
            Fits(Maybe(ATTEMPT), v) && MaybeAttemptAt(p, v) == a && KnownMaybeAttempt(p, v)
  {
    hide AttemptOk, AttemptValue, AttemptAt, KnownAttempt;
    if a.Some? { AttemptBack(p, a.value); }
  }

  function WindowValue(i: Interval): Value { Row([IntervalValue(i), BLANK]) }

  function WindowOf(v: Value): Interval { IntervalOf(Col(v, 0)) }

  lemma WindowBack(i: Interval)
    requires IntervalOk(i)
    ensures Fits(MAINTENANCE, WindowValue(i)) && WindowOf(WindowValue(i)) == i
  {
    hide Fits, Structure, Row, IntervalValue, IntervalOf;
    DefaultsFit();
    IntervalBack(i);
    RowFits([INTERVAL, Text(256)], [IntervalValue(i), BLANK]);
    ColsOfRow([IntervalValue(i), BLANK]);
  }

  function CapacityColumns(c: Capacity): seq<Value> {
    [NameValue(c.resource), Num(c.generation), Num(c.reservable), Num(c.headroom), BLANK, NOTHING,
     ListValue(c.maintenance, WindowValue)]
  }

  function CapacityValue(c: Capacity): Value { Row(CapacityColumns(c)) }

  function CapacityOf(v: Value): Capacity {
    Capacity(NameOf(Col(v, 0)), CounterOf(Col(v, 1)), NumOf(Col(v, 2)), NumOf(Col(v, 3)), ItemsOf(Col(v, 6), WindowOf))
  }

  predicate CapacityOk(c: Capacity) {
    && NameOk(c.resource) && c.generation < U64_LIMIT && Signed(c.reservable) && Signed(c.headroom)
    && |c.maintenance| <= MAX_ITEMS && forall i :: 0 <= i < |c.maintenance| ==> IntervalOk(c.maintenance[i])
  }

  lemma CapacityBack(c: Capacity)
    requires CapacityOk(c)
    ensures Fits(CAPACITY, CapacityValue(c)) && CapacityOf(CapacityValue(c)) == c
  {
    hide Fits, Structure, Row, NameValue, NameOf, NameOk, IntervalOk, WindowValue, WindowOf, Many;
    DefaultsFit();
    CounterFits(c.generation);
    SignedFits(c.reservable);
    SignedFits(c.headroom);
    NameBack(c.resource);
    var w := c.maintenance;
    forall i | 0 <= i < |w| ensures Fits(MAINTENANCE, WindowValue(w[i])) && WindowOf(WindowValue(w[i])) == w[i] {
      WindowBack(w[i]);
    }
    ListFits(MAINTENANCE, w, WindowValue);
    ListBack(w, WindowValue, WindowOf);
    hide ListValue, ItemsOf;
    RowFits(CAPACITY_FIELDS, CapacityColumns(c));
    ColsOfRow(CapacityColumns(c));
    var v := CapacityValue(c);
    assert CapacityOf(v).resource == c.resource && CapacityOf(v).generation == c.generation;
    assert NumOf(Col(v, 3)) == c.headroom && CapacityOf(v).reservable == c.reservable;
    assert CapacityOf(v).maintenance == w;
  }

  function TransitionColumns(p: Printing, key: Key, to: ReservationState, recallAt: int, a: Option<Attempt>)
    : seq<Value>
  {
    [IdValue(key.id), Num(key.generation), NOTHING, Num(StateCode(to)), NOTHING, BLANK, UNATTRIBUTED, Num(recallAt),
     MaybeAttempt(p, a)]
  }

  function TransitionValue(p: Printing, key: Key, to: ReservationState, recallAt: int, a: Option<Attempt>): Value {
    Row(TransitionColumns(p, key, to, recallAt, a))
  }

  function TransitionOf(p: Printing, v: Value): DurableRecord {
    StateMutation(KeyAt(v, 0), StateOf(NumOf(Col(v, 3))), NumOf(Col(v, 7)), MaybeAttemptAt(p, Col(v, 8)))
  }

  predicate KnownTransition(p: Printing, v: Value) { KnownMaybeAttempt(p, Col(v, 8)) }

  lemma TransitionBack(p: Printing, key: Key, to: ReservationState, recallAt: int, a: Option<Attempt>)
    requires KeyOk(key) && Signed(recallAt) && MaybeAttemptOk(p, a)
    ensures var v := TransitionValue(p, key, to, recallAt, a);
            Fits(TRANSITION, v) && TransitionOf(p, v) == StateMutation(key, to, recallAt, a) && KnownTransition(p, v)
  {
    hide Fits, Structure, Row, IdValue, IdOf, MaybeAttempt, MaybeAttemptAt, KnownMaybeAttempt, MaybeAttemptOk,
         StateCode, StateOf;
    DefaultsFit();
    CounterFits(key.generation);
    SignedFits(recallAt);
    UnattributedFits();
    IdBack(key.id);
    CodesBack(to, Guaranteed, Current, NoReason, Committable);
    MaybeAttemptBack(p, a);
    RowFits(TRANSITION_FIELDS, TransitionColumns(p, key, to, recallAt, a));
    ColsOfRow(TransitionColumns(p, key, to, recallAt, a));
  }

  /** The revocation of one displaced reservation, carried inside the commit that displaces it. */
  function VictimValue(p: Printing): Key -> Value { (key: Key) => TransitionValue(p, key, Revoked, 0, None) }

  function VictimOf(v: Value): Key { KeyAt(v, 0) }

  predicate KnownVictim(v: Value) { StateOf(NumOf(Col(v, 3))) == Revoked }

  // ---------------------------------------------------------------------------
  // Commits
  // ---------------------------------------------------------------------------

  const ONCE := RecurrenceValue(Recurrence(false, 0, 0))
  const NO_TIME := IntervalValue(Interval(0, 0))

  function SeriesColumns(id: Identity, members: seq<Identity>): seq<Value> {
    [IdValue(id), NOTHING, NIL, NOTHING, ONCE, NO_TIME, NOTHING, NOTHING, NOTHING, NOTHING, NIL, NOTHING,
     ListValue(members, IdValue), UNATTRIBUTED, NOTHING]
  }

  function SeriesValue(id: Identity, members: seq<Identity>): Value { Row(SeriesColumns(id, members)) }

  function SeriesMembers(v: Value): seq<Identity> { ItemsOf(Col(v, 12), IdOf) }

  lemma SeriesBack(id: Identity, members: seq<Identity>)
    requires id < ID_LIMIT && |members| <= MAX_ITEMS && forall i :: 0 <= i < |members| ==> members[i] < ID_LIMIT
    ensures var v := SeriesValue(id, members); Fits(SERIES, v) && IdOf(Col(v, 0)) == id && SeriesMembers(v) == members
  {
    hide Fits, Structure, Row, IdValue, IdOf, RecurrenceValue, IntervalValue, Many;
    DefaultsFit();
    UnattributedFits();
    RecurrenceBack(Recurrence(false, 0, 0));
    IntervalBack(Interval(0, 0));
    IdBack(id);
    forall i | 0 <= i < |members| ensures Fits(ID, IdValue(members[i])) && IdOf(IdValue(members[i])) == members[i] {
      IdBack(members[i]);
    }
    ListFits(ID, members, IdValue);
    ListBack(members, IdValue, IdOf);
    hide ListValue, ItemsOf;
    RowFits(SERIES_FIELDS, SeriesColumns(id, members));
    ColsOfRow(SeriesColumns(id, members));
  }

  function EdgeColumns(from: Key, to: Key): seq<Value> {
    [IdValue(from.id), Num(from.generation), IdValue(to.id), Num(to.generation), NOTHING, NOTHING, BLANK]
  }

  function EdgeValue(from: Key, to: Key): Value { Row(EdgeColumns(from, to)) }

  lemma EdgeBack(from: Key, to: Key)
    requires KeyOk(from) && KeyOk(to)
    ensures var v := EdgeValue(from, to); Fits(EDGE, v) && KeyAt(v, 0) == from && KeyAt(v, 2) == to
  {
    hide Structure, Row, IdValue, IdOf;
    DefaultsFit();
    CounterFits(from.generation);
    CounterFits(to.generation);
    IdBack(from.id);
    IdBack(to.id);
    RowFits(EDGE_FIELDS, EdgeColumns(from, to));
    ColsOfRow(EdgeColumns(from, to));
  }

  function MutationColumns(p: Printing, d: DurableRecord): seq<Value>
    requires d.ReservationMutation?
  {
    [RecordValue(d.record),
     if d.seriesId.Some? then Given(SeriesValue(d.seriesId.value, IdsOf([d.record] + d.members))) else Missing,
     ListValue(d.members, RecordValue),
     if d.supersedes then Given(EdgeValue(Or(d.record.predecessor, Key(0, 0)), d.record.KeyOf())) else Missing,
     FlagValue(d.supersedes), ListValue(d.companions, VictimValue(p)), MaybeAttempt(p, d.attempt)]
  }

  function MutationOf(p: Printing, v: Value): DurableRecord {
    ReservationMutation(
      RecordOf(Col(v, 0)), ItemsOf(Col(v, 2), RecordOf), FlagOf(Col(v, 4)), ItemsOf(Col(v, 5), VictimOf),
      if Col(v, 1).Given? then Some(IdOf(Col(Col(v, 1).value, 0))) else None, MaybeAttemptAt(p, Col(v, 6)))
  }

  /** A commit as the coordinator writes them: grouped by its own members, chained to its own predecessor. */
  predicate KnownMutation(p: Printing, v: Value) {
    var d := MutationOf(p, v);
    && KnownRecord(Col(v, 0)) && KnownMaybeAttempt(p, Col(v, 6))
    && Col(v, 2).Items? && (forall i :: 0 <= i < |Col(v, 2).items| ==> KnownRecord(Col(v, 2).items[i]))
    && Col(v, 5).Items? && (forall i :: 0 <= i < |Col(v, 5).items| ==> KnownVictim(Col(v, 5).items[i]))
    && (Col(v, 1).Given? ==> SeriesMembers(Col(v, 1).value) == IdsOf([d.record] + d.members))
    && (Col(v, 3).Given? <==> d.supersedes)
    && (d.supersedes ==>
          Some(KeyAt(Col(v, 3).value, 0)) == d.record.predecessor && KeyAt(Col(v, 3).value, 2) == d.record.KeyOf())
  }

  predicate MutationOk(p: Printing, d: DurableRecord)
    requires d.ReservationMutation?
  {
    && RecordOk(d.record) && |d.members| <= MAX_ITEMS && (forall i :: 0 <= i < |d.members| ==> RecordOk(d.members[i]))
    && |d.companions| <= MAX_ITEMS && (forall i :: 0 <= i < |d.companions| ==> KeyOk(d.companions[i]))
    && (d.supersedes ==> d.record.predecessor.Some?)
    && (d.seriesId.Some? ==> d.seriesId.value < ID_LIMIT && |d.members| < MAX_ITEMS)
    && MaybeAttemptOk(p, d.attempt)
  }

  lemma MembersBack(rs: seq<Record>)
    requires |rs| <= MAX_ITEMS && forall i :: 0 <= i < |rs| ==> RecordOk(rs[i])
    ensures var v := ListValue(rs, RecordValue);
            && Fits(Many(RESERVATION), v) && ItemsOf(v, RecordOf) == rs && v.Items?
            && forall i :: 0 <= i < |v.items| ==> KnownRecord(v.items[i])
  {
    hide RecordOk, RecordValue, RecordOf, KnownRecord;
    forall i | 0 <= i < |rs|
      ensures Fits(RESERVATION, RecordValue(rs[i])) && RecordOf(RecordValue(rs[i])) == rs[i]
              && KnownRecord(RecordValue(rs[i]))
    {
      RecordBack(rs[i]);
    }
    ListFits(RESERVATION, rs, RecordValue);
    ListBack(rs, RecordValue, RecordOf);
  }

  lemma VictimsBack(p: Printing, keys: seq<Key>)
    requires |keys| <= MAX_ITEMS && forall i :: 0 <= i < |keys| ==> KeyOk(keys[i])
    ensures var v := ListValue(keys, VictimValue(p));
            && Fits(Many(TRANSITION), v) && ItemsOf(v, VictimOf) == keys && v.Items?
            && forall i :: 0 <= i < |v.items| ==> KnownVictim(v.items[i])
  {
    hide KeyOk, TransitionValue, MaybeAttemptAt;
    var f := VictimValue(p);
    forall i | 0 <= i < |keys|
      ensures Fits(TRANSITION, f(keys[i])) && VictimOf(f(keys[i])) == keys[i] && KnownVictim(f(keys[i]))
    {
      TransitionBack(p, keys[i], Revoked, 0, None);
    }
    hide VictimValue, VictimOf, KnownVictim;
    ListFits(TRANSITION, keys, f);
    ListBack(keys, f, VictimOf);
  }

  lemma IdsOk(rs: seq<Record>)
    requires forall i :: 0 <= i < |rs| ==> RecordOk(rs[i])
    ensures forall i :: 0 <= i < |IdsOf(rs)| ==> IdsOf(rs)[i] < ID_LIMIT
  {
    hide TermsOk, RefsOk;
  }

  /** The grouping of a commit, as a value that fits and is read back. */
  lemma GroupingBack(p: Printing, d: DurableRecord, v: Value)
    requires d.ReservationMutation? && MutationOk(p, d) && d.seriesId.Some?
    requires v == SeriesValue(d.seriesId.value, IdsOf([d.record] + d.members))
    ensures Fits(SERIES, v) && IdOf(Col(v, 0)) == d.seriesId.value && SeriesMembers(v) == IdsOf([d.record] + d.members)
  {
    hide Fits, Structure, SeriesValue, SeriesMembers, IdOf, MaybeAttemptOk, KeyOk, IdsOf, RecordOk;
    IdsOk([d.record] + d.members);
    IdsCount([d.record] + d.members);
    SeriesBack(d.seriesId.value, IdsOf([d.record] + d.members));
  }

  /** The link of a commit to its predecessor, likewise. */
  lemma ChainBack(p: Printing, d: DurableRecord, v: Value)
    requires d.ReservationMutation? && MutationOk(p, d) && d.supersedes
    requires v == EdgeValue(Or(d.record.predecessor, Key(0, 0)), d.record.KeyOf())
    ensures Fits(EDGE, v) && Some(KeyAt(v, 0)) == d.record.predecessor && KeyAt(v, 2) == d.record.KeyOf()
  {
    hide Fits, Structure, EdgeValue, KeyAt, MaybeAttemptOk, KeyOk, RecordOk;
    KeysOk(d.record);
    EdgeBack(d.record.predecessor.value, d.record.KeyOf());
  }

  lemma MutationBack(p: Printing, d: DurableRecord)
    requires d.ReservationMutation? && MutationOk(p, d)
    ensures var v := Row(MutationColumns(p, d)); Fits(MUTATION, v) && MutationOf(p, v) == d && KnownMutation(p, v)
  {
    hide Structure, Row, RecordValue, RecordOf, KnownRecord, RecordOk, Many, SeriesValue, SeriesMembers, EdgeValue,
         KeyAt, IdOf, MaybeAttempt, MaybeAttemptAt, KnownMaybeAttempt, MaybeAttemptOk, VictimValue, VictimOf,
         KnownVictim, KeyOk, ListValue, ItemsOf, IdsOf;
    DefaultsFit();
    RecordBack(d.record);
    if d.seriesId.Some? { GroupingBack(p, d, SeriesValue(d.seriesId.value, IdsOf([d.record] + d.members))); }
    if d.supersedes { ChainBack(p, d, EdgeValue(Or(d.record.predecessor, Key(0, 0)), d.record.KeyOf())); }
    MembersBack(d.members);
    VictimsBack(p, d.companions);
    MaybeAttemptBack(p, d.attempt);
    RowFits(MUTATION_FIELDS, MutationColumns(p, d));
    ColsOfRow(MutationColumns(p, d));
  }

  lemma IdsCount(rs: seq<Record>)
    ensures |IdsOf(rs)| == |rs|
  {
  }

  lemma KeysOk(r: Record)
    requires RecordOk(r)
    ensures KeyOk(r.KeyOf()) && (r.predecessor.Some? ==> KeyOk(r.predecessor.value))
  {
  }

  // ---------------------------------------------------------------------------
  // Whole records
  // ---------------------------------------------------------------------------

  function KindOf(d: DurableRecord): nat {
    match d
    case CapacitySnapshot(_, _) => CAPACITY_KIND
    case ReservationMutation(_, _, supersedes, _, _, _) => if supersedes then AMEND_KIND else COMMIT_KIND
    case StateMutation(_, _, _, _) => STATE_KIND
    case ApplicabilityMutation(_, _, _) => APPLICABILITY_KIND
    case AttemptOutcome(_) => ATTEMPT_KIND
    case OvercommitMutation(_, _) => OVERCOMMIT_KIND
    case ClaimantRegistration(_, _) => CLAIMANT_KIND
  }

  function SnapshotColumns(resources: seq<Capacity>): seq<Value> {
    [NIL, NOTHING, NOTHING, NOTHING, FlagValue(true), ListValue(resources, CapacityValue)]
  }

  function NoticeColumns(key: Key, applicability: Applicability, reason: Reason): seq<Value> {
    [IdValue(key.id), Num(key.generation), Num(ApplicabilityCode(applicability)), Num(ReasonCode(reason)), NOTHING]
  }

  function RegistrationColumns(claimant: Identity, generation: nat): seq<Value> {
    [IdValue(claimant), Num(generation), NOTHING]
  }

  function OvercommitColumns(resource: ResourceName, resolved: bool): seq<Value> {
    [NameValue(resource), NOTHING, NOTHING, NOTHING, NO_TIME, NOTHING, FlagValue(resolved)]
  }

  /** The body of a durable record as a value of its layout. */
  function BodyValue(p: Printing, d: DurableRecord): Value {
    match d
    case CapacitySnapshot(resources, withdrawals) =>
        Row([Row(SnapshotColumns(resources)), ListValue(withdrawals, NameValue)])
    case ReservationMutation(_, _, _, _, _, _) => Row(MutationColumns(p, d))
    case StateMutation(key, to, recallAt, attempt) => TransitionValue(p, key, to, recallAt, attempt)
    case ApplicabilityMutation(key, applicability, reason) => Row(NoticeColumns(key, applicability, reason))
    case AttemptOutcome(attempt) => AttemptValue(p, attempt)
    case OvercommitMutation(resource, resolved) => Row(OvercommitColumns(resource, resolved))
    case ClaimantRegistration(claimant, generation) => Row(RegistrationColumns(claimant, generation))
  }

  /** What a body means: an effect the model knows, none on what it models, or something outside it. */
  datatype Meaning = Effect(d: DurableRecord) | Silent | Foreign

  function MeaningOf(p: Printing, kind: nat, v: Value): Meaning {
    if kind == BOOT_KIND || kind == PATHS_KIND || kind == POLICY_KIND || kind == FENCE_KIND then Silent
    else if kind == CAPACITY_KIND then
      Effect(CapacitySnapshot(ItemsOf(Col(Col(v, 0), 5), CapacityOf), ItemsOf(Col(v, 1), NameOf)))
    else if kind == COMMIT_KIND || kind == AMEND_KIND || kind == SERIES_KIND then
      if KnownMutation(p, v) then Effect(MutationOf(p, v)) else Foreign
    else if kind == STATE_KIND then
      if KnownTransition(p, v) then Effect(TransitionOf(p, v)) else Foreign
    else if kind == APPLICABILITY_KIND then
      if KnownReason(NumOf(Col(v, 3)))
      then Effect(ApplicabilityMutation(KeyAt(v, 0), ApplicabilityOf(NumOf(Col(v, 2))), ReasonOf(NumOf(Col(v, 3)))))
      else Foreign
    else if kind == ATTEMPT_KIND then
      if KnownAttempt(p, v) then Effect(AttemptOutcome(AttemptAt(p, v))) else Foreign
    else if kind == OVERCOMMIT_KIND then Effect(OvercommitMutation(NameOf(Col(v, 0)), FlagOf(Col(v, 6))))
    else if kind == CLAIMANT_KIND then Effect(ClaimantRegistration(IdOf(Col(v, 0)), CounterOf(Col(v, 1))))
    else Foreign
  }

  /** Every field of the record is within the bounds it will be read under. */
  predicate BodyOk(p: Printing, d: DurableRecord) {
    match d
    case CapacitySnapshot(resources, withdrawals) =>
      |resources| <= MAX_ITEMS && (forall i :: 0 <= i < |resources| ==> CapacityOk(resources[i]))
          && NamesOk(withdrawals)
    case ReservationMutation(_, _, _, _, _, _) => MutationOk(p, d)
    case StateMutation(key, _, recallAt, attempt) => KeyOk(key) && Signed(recallAt) && MaybeAttemptOk(p, attempt)
    case ApplicabilityMutation(key, _, _) => KeyOk(key)
    case AttemptOutcome(attempt) => AttemptOk(p, attempt)
    case OvercommitMutation(resource, _) => NameOk(resource)
    case ClaimantRegistration(claimant, generation) => claimant < ID_LIMIT && generation < U64_LIMIT
  }

  /** The body's value fits its layout and means the record. */
  predicate ReadsBack(p: Printing, d: DurableRecord) {
    Fits(BodyOf(KindOf(d)), BodyValue(p, d)) && MeaningOf(p, KindOf(d), BodyValue(p, d)) == Effect(d)
  }

  lemma NoTimeFits()
    ensures Fits(INTERVAL, NO_TIME)
  {
    hide IntervalValue, Fits, Structure;
    IntervalBack(Interval(0, 0));
  }

  lemma SnapshotBack(p: Printing, d: DurableRecord)
    requires d.CapacitySnapshot? && BodyOk(p, d)
    ensures ReadsBack(p, d)
  {
    hide Fits, Structure, Row, NameValue, NameOf, NamesOk, CapacityValue, CapacityOf, CapacityOk, Many, FlagValue;
    DefaultsFit();
    var cs := d.resources;
    forall i | 0 <= i < |cs| ensures Fits(CAPACITY, CapacityValue(cs[i])) && CapacityOf(CapacityValue(cs[i])) == cs[i] {
      CapacityBack(cs[i]);
    }
    ListFits(CAPACITY, cs, CapacityValue);
    ListBack(cs, CapacityValue, CapacityOf);
    NamesBack(d.withdrawals);
    hide ListValue, ItemsOf;
    RowFits([ID, COUNTER, COUNTER, Signed64, FLAG, Many(CAPACITY)], SnapshotColumns(cs));
    ColsOfRow(SnapshotColumns(cs));
    var vs := [Row(SnapshotColumns(cs)), ListValue(d.withdrawals, NameValue)];
    RowFits([CAPACITY_SNAPSHOT, Many(NAME)], vs);
    ColsOfRow(vs);
  }

  lemma NoticeBack(p: Printing, d: DurableRecord)
    requires d.ApplicabilityMutation? && BodyOk(p, d)
    ensures ReadsBack(p, d)
  {
    hide Fits, Structure, Row, IdValue, IdOf, ApplicabilityCode, ApplicabilityOf, ReasonCode, ReasonOf, KnownReason;
    DefaultsFit();
    IdBack(d.key.id);
    CounterFits(d.key.generation);
    CodesBack(Declared, Guaranteed, d.applicability, d.reason, Committable);
    var vs := NoticeColumns(d.key, d.applicability, d.reason);
    RowFits([ID, COUNTER, APPLICABILITY, APPLICABILITY_REASON, Signed64], vs);
    ColsOfRow(vs);
  }

  lemma OvercommitBack(p: Printing, d: DurableRecord)
    requires d.OvercommitMutation? && BodyOk(p, d)
    ensures ReadsBack(p, d)
  {
    hide Fits, Structure, Row, NameValue, NameOf, NameOk, FlagValue, FlagOf, IntervalValue;
    DefaultsFit();
    NameBack(d.resource);
    NoTimeFits();
    var vs := OvercommitColumns(d.resource, d.resolved);
    RowFits([NAME, COUNTER, Signed64, Signed64, INTERVAL, Signed64, FLAG], vs);
    ColsOfRow(vs);
  }

  lemma ClaimantBack(claimant: Identity, generation: nat)
    requires claimant < ID_LIMIT && generation < U64_LIMIT
    ensures var v := Row(RegistrationColumns(claimant, generation));
            Fits(CLAIMANT, v) && IdOf(Col(v, 0)) == claimant && CounterOf(Col(v, 1)) == generation
  {
    hide Fits, Structure, Row, IdValue, IdOf;
    DefaultsFit();
    IdBack(claimant);
    CounterFits(generation);
    var vs := RegistrationColumns(claimant, generation);
    RowFits([ID, COUNTER, Signed64], vs);
    ColsOfRow(vs);
  }

  lemma RegistrationBack(p: Printing, d: DurableRecord)
    requires d.ClaimantRegistration? && BodyOk(p, d)
    ensures ReadsBack(p, d)
  {
    hide Fits, Structure, Row, IdValue, IdOf, RegistrationColumns;
    ClaimantBack(d.claimant, d.generation);
  }

  lemma CommitBack(p: Printing, d: DurableRecord)
    requires d.ReservationMutation? && BodyOk(p, d)
    ensures ReadsBack(p, d)
  {
    hide Fits, Structure, Row, MutationOk, KnownMutation, MutationOf, MutationColumns;
    MutationBack(p, d);
  }

  lemma ChangeBack(p: Printing, d: DurableRecord)
    requires (d.StateMutation? || d.AttemptOutcome?) && BodyOk(p, d)
    ensures ReadsBack(p, d)
  {
    hide Fits, Structure, Row, MaybeAttemptOk, AttemptOk, KeyOk, KnownTransition, TransitionOf, TransitionValue,
         KnownAttempt, AttemptAt, AttemptValue;
    if d.StateMutation? {
      TransitionBack(p, d.key, d.to, d.recallAt, d.attempt);
    } else {
      AttemptBack(p, d.outcome);
    }
  }

  /** A record within bounds fits its layout, and its value means the record. */
  lemma BodyBack(p: Printing, d: DurableRecord)
    requires BodyOk(p, d)
    ensures ReadsBack(p, d)
  {
    hide *;
    match d
    case CapacitySnapshot(_, _) => SnapshotBack(p, d);
    case ReservationMutation(_, _, _, _, _, _) => CommitBack(p, d);
    case StateMutation(_, _, _, _) => ChangeBack(p, d);
    case ApplicabilityMutation(_, _, _) => NoticeBack(p, d);
    case AttemptOutcome(_) => ChangeBack(p, d);
    case OvercommitMutation(_, _) => OvercommitBack(p, d);
    case ClaimantRegistration(_, _) => RegistrationBack(p, d);
  }

  // ---------------------------------------------------------------------------
  // Whatever is read is within bounds
  // ---------------------------------------------------------------------------

  lemma AttemptWithin(p: Printing, v: Value)
    requires Fits(ATTEMPT, v) && KnownAttempt(p, v)
    ensures AttemptOk(p, AttemptAt(p, v))
  {
    hide Structure, IdOf, OutcomeOf;
    ColsFit(ATTEMPT_FIELDS, v);
    var f := ATTEMPT_FIELDS;
    assert f[0] == ID && f[1] == ID && f[3] == ID && f[4] == COUNTER;
    IdWithin(Col(v, 0));
    IdWithin(Col(v, 3));
  }

  lemma MaybeAttemptWithin(p: Printing, v: Value)
    requires Fits(Maybe(ATTEMPT), v) && KnownMaybeAttempt(p, v)
    ensures MaybeAttemptOk(p, MaybeAttemptAt(p, v))
  {
    hide AttemptOk, KnownAttempt, AttemptAt, Structure;
    if v.Given? { AttemptWithin(p, v.value); }
  }

  lemma KeyWithin(v: Value, i: nat)
    requires Fits(ID, Col(v, i)) && Fits(COUNTER, Col(v, i + 1))
    ensures KeyOk(KeyAt(v, i))
  {
    hide IdOf;
    IdWithin(Col(v, i));
  }

  lemma CapacityWithin(v: Value)
    requires Fits(CAPACITY, v)
    ensures CapacityOk(CapacityOf(v))
  {
    hide Structure, NameOf, NameOk, IntervalOk, WindowOf, Many;
    ColsFit(CAPACITY_FIELDS, v);
    var f := CAPACITY_FIELDS;
    assert f[0] == NAME && f[1] == COUNTER && f[2] == Signed64 && f[3] == Signed64 && f[6] == Many(MAINTENANCE);
    NameWithin(Col(v, 0));
    var w := Col(v, 6);
    ItemsFit(MAINTENANCE, w);
    forall i | 0 <= i < |w.items| ensures IntervalOk(WindowOf(w.items[i])) {
      WindowWithin(w.items[i]);
    }
  }

  lemma WindowWithin(v: Value)
    requires Fits(MAINTENANCE, v)
    ensures IntervalOk(WindowOf(v))
  {
    hide Structure, IntervalOk;
    ColsFit([INTERVAL, Text(256)], v);
    assert [INTERVAL, Text(256)][0] == INTERVAL;
    IntervalWithin(Col(v, 0));
  }

  lemma TransitionWithin(p: Printing, v: Value)
    requires Fits(TRANSITION, v) && KnownTransition(p, v)
    ensures BodyOk(p, TransitionOf(p, v))
  {
    hide Structure, MaybeAttemptOk, MaybeAttemptAt, KnownMaybeAttempt, IdOf, StateOf;
    ColsFit(TRANSITION_FIELDS, v);
    var f := TRANSITION_FIELDS;
    assert f[0] == ID && f[1] == COUNTER && f[7] == Signed64 && f[8] == Maybe(ATTEMPT);
    KeyWithin(v, 0);
    MaybeAttemptWithin(p, Col(v, 8));
  }

  lemma MembersWithin(v: Value)
    requires Fits(Many(RESERVATION), v)
    ensures var rs := ItemsOf(v, RecordOf); |rs| <= MAX_ITEMS && forall i :: 0 <= i < |rs| ==> RecordOk(rs[i])
  {
    hide RecordOk, RecordOf, Fits, Many;
    ItemsFit(RESERVATION, v);
    forall i | 0 <= i < |v.items| ensures RecordOk(RecordOf(v.items[i])) {
      RecordWithin(v.items[i]);
    }
  }

  lemma VictimsWithin(v: Value)
    requires Fits(Many(TRANSITION), v)
    ensures var keys := ItemsOf(v, VictimOf); |keys| <= MAX_ITEMS && forall i :: 0 <= i < |keys| ==> KeyOk(keys[i])
  {
    hide KeyOk, Fits, Many, Structure, IdOf;
    ItemsFit(TRANSITION, v);
    forall i | 0 <= i < |v.items| ensures KeyOk(VictimOf(v.items[i])) {
      ColsFit(TRANSITION_FIELDS, v.items[i]);
      assert TRANSITION_FIELDS[0] == ID && TRANSITION_FIELDS[1] == COUNTER;
      KeyWithin(v.items[i], 0);
    }
  }

  lemma SeriesWithin(v: Value)
    requires Fits(SERIES, v)
    ensures IdOf(Col(v, 0)) < ID_LIMIT && |SeriesMembers(v)| <= MAX_ITEMS
  {
    hide Fits, Many, Structure, IdOf;
    ColsFit(SERIES_FIELDS, v);
    assert SERIES_FIELDS[0] == ID && SERIES_FIELDS[12] == Many(ID);
    IdWithin(Col(v, 0));
    ItemsFit(ID, Col(v, 12));
  }

  lemma MutationWithin(p: Printing, v: Value)
    requires Fits(MUTATION, v) && KnownMutation(p, v)
    ensures MutationOk(p, MutationOf(p, v))
  {
    hide Structure, Many, RecordOk, RecordOf, KnownRecord, MaybeAttemptOk, MaybeAttemptAt, KnownMaybeAttempt,
         VictimOf, KnownVictim, KeyOk, ItemsOf, KeyAt, IdOf, SeriesMembers, IdsOf;
    ColsFit(MUTATION_FIELDS, v);
    var f := MUTATION_FIELDS;
    assert f[0] == RESERVATION && f[1] == Maybe(SERIES) && f[2] == Many(RESERVATION) && f[5] == Many(TRANSITION)
           && f[6] == Maybe(ATTEMPT);
    RecordWithin(Col(v, 0));
    MembersWithin(Col(v, 2));
    VictimsWithin(Col(v, 5));
    MaybeAttemptWithin(p, Col(v, 6));
    if Col(v, 1).Given? {
      SeriesWithin(Col(v, 1).value);
      IdsCount([MutationOf(p, v).record] + MutationOf(p, v).members);
    }
  }

  lemma SnapshotWithin(p: Printing, v: Value)
    requires Fits(INGESTION, v)
    ensures var m := MeaningOf(p, CAPACITY_KIND, v); m.Effect? && BodyOk(p, m.d)
  {
    hide Fits, Structure, Many, CapacityOf, CapacityOk, NameOf, NamesOk;
    ColsFit([CAPACITY_SNAPSHOT, Many(NAME)], v);
    assert [CAPACITY_SNAPSHOT, Many(NAME)][0] == CAPACITY_SNAPSHOT && [CAPACITY_SNAPSHOT, Many(NAME)][1] == Many(NAME);
    NamesWithin(Col(v, 1));
    var fields := [ID, COUNTER, COUNTER, Signed64, FLAG, Many(CAPACITY)];
    ColsFit(fields, Col(v, 0));
    assert fields[5] == Many(CAPACITY);
    var cs := Col(Col(v, 0), 5);
    ItemsFit(CAPACITY, cs);
    forall i | 0 <= i < |cs.items| ensures CapacityOk(CapacityOf(cs.items[i])) {
      CapacityWithin(cs.items[i]);
    }
  }

  lemma NoticeWithin(p: Printing, v: Value)
    requires Fits(APPLICABILITY_CHANGE, v)
    ensures var m := MeaningOf(p, APPLICABILITY_KIND, v); m.Effect? ==> BodyOk(p, m.d)
  {
    hide Fits, Structure, IdOf, KeyOk;
    var fields := [ID, COUNTER, APPLICABILITY, APPLICABILITY_REASON, Signed64];
    ColsFit(fields, v);
    assert fields[0] == ID && fields[1] == COUNTER;
    KeyWithin(v, 0);
  }

  lemma OvercommitWithin(p: Printing, v: Value)
    requires Fits(OVERCOMMIT, v)
    ensures var m := MeaningOf(p, OVERCOMMIT_KIND, v); m.Effect? && BodyOk(p, m.d)
  {
    hide Fits, Structure, NameOf, NameOk;
    var fields := [NAME, COUNTER, Signed64, Signed64, INTERVAL, Signed64, FLAG];
    ColsFit(fields, v);
    assert fields[0] == NAME;
    NameWithin(Col(v, 0));
  }

  lemma RegistrationWithin(p: Printing, v: Value)
    requires Fits(CLAIMANT, v)
    ensures var m := MeaningOf(p, CLAIMANT_KIND, v); m.Effect? && BodyOk(p, m.d)
  {
    hide Structure, IdOf;
    var fields := [ID, COUNTER, Signed64];
    ColsFit(fields, v);
    assert fields[0] == ID && fields[1] == COUNTER;
    IdWithin(Col(v, 0));
  }

  /** Any body that fits and has an effect the model knows is within the bounds again. */
  lemma MeaningWithin(p: Printing, kind: nat, v: Value)
    requires IsKind(kind) && Fits(BodyOf(kind), v) && MeaningOf(p, kind, v).Effect?
    ensures BodyOk(p, MeaningOf(p, kind, v).d)
  {
    hide Fits, Structure, KnownMutation, MutationOf, MutationOk, KnownTransition, TransitionOf, KnownAttempt,
         AttemptAt, AttemptOk, MaybeAttemptOk, KeyOk, NamesOk, NameOk, CapacityOk;
    if kind == CAPACITY_KIND { SnapshotWithin(p, v); }
    else if kind == COMMIT_KIND || kind == AMEND_KIND || kind == SERIES_KIND { MutationWithin(p, v); MutationIs(p, v); }
    else if kind == STATE_KIND { TransitionWithin(p, v); }
    else if kind == APPLICABILITY_KIND { NoticeWithin(p, v); }
    else if kind == ATTEMPT_KIND { AttemptWithin(p, v); }
    else if kind == OVERCOMMIT_KIND { OvercommitWithin(p, v); }
    else if kind == CLAIMANT_KIND { RegistrationWithin(p, v); }
  }

  lemma MutationIs(p: Printing, v: Value)
    ensures MutationOf(p, v).ReservationMutation?
  {
  }

  // ---------------------------------------------------------------------------
  // Payloads
  // ---------------------------------------------------------------------------

  function PayloadOf(p: Printing, d: DurableRecord): seq<Byte> { EncodeRecord(KindOf(d), BodyValue(p, d)) }

  /** What a payload of the journal means; `None` if it cannot be decoded. */
  function Meant(p: Printing, kind: nat, payload: seq<Byte>): Option<Meaning> {
    var body := DecodeRecord(payload, kind);
    if body.None? then None else Some(MeaningOf(p, kind, body.value))
  }

  /** A record read back from its payload is the record written, exactly when it is within the bounds. */
  lemma PayloadMeansRecord(p: Printing, d: DurableRecord)
    ensures Meant(p, KindOf(d), PayloadOf(p, d)) == Some(Effect(d)) <==> BodyOk(p, d)
  {
    hide BodyValue, BodyOf, MeaningOf, BodyOk, DecodeRecord, EncodeRecord, Fits;
    if BodyOk(p, d) {
      BodyBack(p, d);
      RecordComesBack(KindOf(d), BodyValue(p, d));
    } else if Meant(p, KindOf(d), PayloadOf(p, d)) == Some(Effect(d)) {
      RecordOneEncoding(PayloadOf(p, d), KindOf(d));
      MeaningWithin(p, KindOf(d), DecodeRecord(PayloadOf(p, d), KindOf(d)).value);
    }
  }

  /** Whatever effect a journal's payload has can be written again, and then means the same. */
  lemma MeaningCanBeWritten(p: Printing, kind: nat, payload: seq<Byte>)
    requires Meant(p, kind, payload).Some? && Meant(p, kind, payload).value.Effect?
    ensures var d := Meant(p, kind, payload).value.d; Meant(p, KindOf(d), PayloadOf(p, d)) == Some(Effect(d))
  {
    hide BodyValue, BodyOf, MeaningOf, BodyOk, DecodeRecord, EncodeRecord, Fits;
    RecordOneEncoding(payload, kind);
    MeaningWithin(p, kind, DecodeRecord(payload, kind).value);
    PayloadMeansRecord(p, Meant(p, kind, payload).value.d);
  }
}

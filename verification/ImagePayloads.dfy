/** The image of a snapshot as the value of its layout, and its bytes read back. */
module ImagePayloads {
  import opened Timeline
  import opened Entries
  import opened Records
  import opened FabricState
  import opened Images
  import opened Crc32c
  import opened Framing
  import opened Codecs
  import opened Schemas
  import opened Payloads

  function EntryColumns(e: LedgerEntry): seq<Value> {
    [CapacityValue(e.capacity), NIL, NOTHING, FlagValue(e.withdrawn), NOTHING, Items([])]
  }

  function EntryValue(e: LedgerEntry): Value { Row(EntryColumns(e)) }

  function EntryOf(v: Value): LedgerEntry { LedgerEntry(CapacityOf(Col(v, 0)), FlagOf(Col(v, 3))) }

  lemma EntryBack(e: LedgerEntry)
    requires CapacityOk(e.capacity)
    ensures Fits(CAPACITY_ENTRY, EntryValue(e)) && EntryOf(EntryValue(e)) == e
  {
    hide Fits, Structure, Row, CapacityValue, CapacityOf, CapacityOk, FlagValue, FlagOf;
    DefaultsFit();
    assert Fits(Many(COUNTER), Items([])) by { NoneFit(COUNTER); }
    CapacityBack(e.capacity);
    RowFits(ENTRY_FIELDS, EntryColumns(e));
    ColsOfRow(EntryColumns(e));
    var v := EntryValue(e);
    assert Col(v, 0) == CapacityValue(e.capacity) && Col(v, 3) == FlagValue(e.withdrawn);
    assert EntryOf(v).capacity == e.capacity && EntryOf(v).withdrawn == e.withdrawn;
  }

  lemma NoneFit(element: Schema)
    ensures Fits(Many(element), Items([]))
  {
  }

  function GroupingValue(g: Grouping): Value { SeriesValue(g.series, g.members) }

  function GroupingOf(v: Value): Grouping { Grouping(IdOf(Col(v, 0)), SeriesMembers(v)) }

  predicate GroupingOk(g: Grouping) {
    g.series < ID_LIMIT && |g.members| <= MAX_ITEMS && forall i :: 0 <= i < |g.members| ==> g.members[i] < ID_LIMIT
  }

  function LinkValue(e: (Key, Key)): Value { EdgeValue(e.0, e.1) }

  function LinkOf(v: Value): (Key, Key) { (KeyAt(v, 0), KeyAt(v, 2)) }

  predicate LinkOk(e: (Key, Key)) { KeyOk(e.0) && KeyOk(e.1) }

  function RegistrationValue(r: Registration): Value { Row(RegistrationColumns(r.claimant, r.generation)) }

  function RegistrationOf(v: Value): Registration { Registration(IdOf(Col(v, 0)), CounterOf(Col(v, 1))) }

  predicate RegistrationOk(r: Registration) { r.claimant < ID_LIMIT && r.generation < U64_LIMIT }

  function EpisodeValue(e: Episode): Value { Row(OvercommitColumns(e.resource, e.resolved)) }

  function EpisodeOf(v: Value): Episode { Episode(NameOf(Col(v, 0)), FlagOf(Col(v, 6))) }

  predicate EpisodeOk(e: Episode) { NameOk(e.resource) }

  lemma EpisodeBack(e: Episode)
    requires EpisodeOk(e)
    ensures Fits(OVERCOMMIT, EpisodeValue(e)) && EpisodeOf(EpisodeValue(e)) == e
  {
    hide Fits, Structure, Row, NameValue, NameOf, NameOk, FlagValue, FlagOf, IntervalValue;
    DefaultsFit();
    NameBack(e.resource);
    NoTimeFits();
    var vs := OvercommitColumns(e.resource, e.resolved);
    RowFits([NAME, COUNTER, Signed64, Signed64, INTERVAL, Signed64, FLAG], vs);
    ColsOfRow(vs);
  }

  function ImageColumns(p: Printing, image: Image): seq<Value> {
    [NOTHING, NIL, NOTHING, ListValue(image.capacity, EntryValue), Items([]), Items([]),
     ListValue(image.reservations, RecordValue), ListValue(image.series, GroupingValue),
     ListValue(image.edges, LinkValue), ListValue(image.attempts, AttemptsAs(p)), Items([]),
     ListValue(image.claimants, RegistrationValue), ListValue(image.overcommits, EpisodeValue), Items([])]
  }

  function AttemptsAs(p: Printing): Attempt -> Value { (a: Attempt) => AttemptValue(p, a) }

  function AttemptsFrom(p: Printing): Value -> Attempt { (v: Value) => AttemptAt(p, v) }

  function ImageValue(p: Printing, image: Image): Value { Row(ImageColumns(p, image)) }

  function ImageOf(p: Printing, v: Value): Image {
    Image(ItemsOf(Col(v, 3), EntryOf), ItemsOf(Col(v, 6), RecordOf), ItemsOf(Col(v, 7), GroupingOf),
          ItemsOf(Col(v, 8), LinkOf), ItemsOf(Col(v, 9), AttemptsFrom(p)), ItemsOf(Col(v, 11), RegistrationOf),
          ItemsOf(Col(v, 12), EpisodeOf))
  }

  /** Nothing in the image is outside the model: its reasons, outcomes and fingerprints are known, none is retired. */
  predicate KnownImage(p: Printing, v: Value) {
    && Col(v, 6).Items? && (forall i :: 0 <= i < |Col(v, 6).items| ==> KnownRecord(Col(v, 6).items[i]))
    && Col(v, 9).Items? && (forall i :: 0 <= i < |Col(v, 9).items| ==> KnownAttempt(p, Col(v, 9).items[i]))
    && Col(v, 13) == Items([])
  }

  /** Every field of the image is within the bounds it will be read under. */
  predicate ImageOk(p: Printing, image: Image) {
    && |image.capacity| <= MAX_ITEMS && (forall i :: 0 <= i < |image.capacity| ==>
                                         CapacityOk(image.capacity[i].capacity))
    && |image.reservations| <= MAX_ITEMS
    && (forall i :: 0 <= i < |image.reservations| ==> RecordOk(image.reservations[i]))
    && |image.series| <= MAX_ITEMS && (forall i :: 0 <= i < |image.series| ==> GroupingOk(image.series[i]))
    && |image.edges| <= MAX_ITEMS && (forall i :: 0 <= i < |image.edges| ==> LinkOk(image.edges[i]))
    && |image.attempts| <= MAX_ITEMS && (forall i :: 0 <= i < |image.attempts| ==> AttemptOk(p, image.attempts[i]))
    && |image.claimants| <= MAX_ITEMS && (forall i :: 0 <= i < |image.claimants| ==> RegistrationOk(image.claimants[i]))
    && |image.overcommits| <= MAX_ITEMS
    && (forall i :: 0 <= i < |image.overcommits| ==> EpisodeOk(image.overcommits[i]))
  }

  lemma EntriesBack(xs: seq<LedgerEntry>)
    requires |xs| <= MAX_ITEMS && forall i :: 0 <= i < |xs| ==> CapacityOk(xs[i].capacity)
    ensures Fits(Many(CAPACITY_ENTRY), ListValue(xs, EntryValue)) && ItemsOf(ListValue(xs, EntryValue), EntryOf) == xs
  {
    hide Fits, Structure, CapacityOk, EntryValue, EntryOf;
    forall i | 0 <= i < |xs| ensures Fits(CAPACITY_ENTRY, EntryValue(xs[i])) && EntryOf(EntryValue(xs[i])) == xs[i] {
      EntryBack(xs[i]);
    }
    ListFits(CAPACITY_ENTRY, xs, EntryValue);
    ListBack(xs, EntryValue, EntryOf);
  }

  lemma GroupingsBack(xs: seq<Grouping>)
    requires |xs| <= MAX_ITEMS && forall i :: 0 <= i < |xs| ==> GroupingOk(xs[i])
    ensures Fits(Many(SERIES), ListValue(xs, GroupingValue)) && ItemsOf(ListValue(xs, GroupingValue), GroupingOf) == xs
  {
    hide Fits, Structure, SeriesValue, SeriesMembers, IdOf;
    forall i | 0 <= i < |xs| ensures Fits(SERIES, GroupingValue(xs[i])) && GroupingOf(GroupingValue(xs[i])) == xs[i] {
      SeriesBack(xs[i].series, xs[i].members);
    }
    hide GroupingValue, GroupingOf;
    ListFits(SERIES, xs, GroupingValue);
    ListBack(xs, GroupingValue, GroupingOf);
  }

  lemma LinksBack(xs: seq<(Key, Key)>)
    requires |xs| <= MAX_ITEMS && forall i :: 0 <= i < |xs| ==> LinkOk(xs[i])
    ensures Fits(Many(EDGE), ListValue(xs, LinkValue)) && ItemsOf(ListValue(xs, LinkValue), LinkOf) == xs
  {
    hide Fits, Structure, EdgeValue, KeyAt, KeyOk;
    forall i | 0 <= i < |xs| ensures Fits(EDGE, LinkValue(xs[i])) && LinkOf(LinkValue(xs[i])) == xs[i] {
      EdgeBack(xs[i].0, xs[i].1);
    }
    hide LinkValue, LinkOf;
    ListFits(EDGE, xs, LinkValue);
    ListBack(xs, LinkValue, LinkOf);
  }

  lemma AttemptsBack(p: Printing, xs: seq<Attempt>)
    requires |xs| <= MAX_ITEMS && forall i :: 0 <= i < |xs| ==> AttemptOk(p, xs[i])
    ensures var v := ListValue(xs, AttemptsAs(p));
            && Fits(Many(ATTEMPT), v) && ItemsOf(v, AttemptsFrom(p)) == xs && v.Items?
            && forall i :: 0 <= i < |v.items| ==> KnownAttempt(p, v.items[i])
  {
    hide Fits, Structure, AttemptOk, AttemptValue, AttemptAt, KnownAttempt;
    var f, g := AttemptsAs(p), AttemptsFrom(p);
    forall i | 0 <= i < |xs| ensures Fits(ATTEMPT, f(xs[i])) && g(f(xs[i])) == xs[i] && KnownAttempt(p, f(xs[i])) {
      AttemptBack(p, xs[i]);
    }
    hide AttemptsAs, AttemptsFrom;
    ListFits(ATTEMPT, xs, f);
    ListBack(xs, f, g);
  }

  lemma RegistrationsBack(xs: seq<Registration>)
    requires |xs| <= MAX_ITEMS && forall i :: 0 <= i < |xs| ==> RegistrationOk(xs[i])
    ensures Fits(Many(CLAIMANT), ListValue(xs, RegistrationValue))
    ensures ItemsOf(ListValue(xs, RegistrationValue), RegistrationOf) == xs
  {
    hide Fits, Structure, RegistrationColumns;
    forall i | 0 <= i < |xs|
      ensures Fits(CLAIMANT, RegistrationValue(xs[i])) && RegistrationOf(RegistrationValue(xs[i])) == xs[i]
    {
      ClaimantBack(xs[i].claimant, xs[i].generation);
    }
    ListFits(CLAIMANT, xs, RegistrationValue);
    ListBack(xs, RegistrationValue, RegistrationOf);
  }

  lemma EpisodesBack(xs: seq<Episode>)
    requires |xs| <= MAX_ITEMS && forall i :: 0 <= i < |xs| ==> EpisodeOk(xs[i])
    ensures Fits(Many(OVERCOMMIT), ListValue(xs, EpisodeValue)) && ItemsOf(ListValue(xs, EpisodeValue), EpisodeOf) == xs
  {
    hide Fits, Structure, EpisodeOk, EpisodeValue, EpisodeOf;
    forall i | 0 <= i < |xs| ensures Fits(OVERCOMMIT, EpisodeValue(xs[i])) && EpisodeOf(EpisodeValue(xs[i])) == xs[i] {
      EpisodeBack(xs[i]);
    }
    ListFits(OVERCOMMIT, xs, EpisodeValue);
    ListBack(xs, EpisodeValue, EpisodeOf);
  }

  lemma ImageFits(p: Printing, image: Image)
    requires ImageOk(p, image)
    ensures Fits(SNAPSHOT_STATE, ImageValue(p, image)) && KnownImage(p, ImageValue(p, image))
    ensures ImageOf(p, ImageValue(p, image)) == image
  {
    hide Fits, Structure, Row, ListValue, ItemsOf, Many, CapacityOk, RecordOk, GroupingOk, LinkOk, AttemptOk,
         RegistrationOk, EpisodeOk, KnownRecord, KnownAttempt, AttemptsAs, AttemptsFrom;
    DefaultsFit();
    NoneFit(PATH_ENTRY); NoneFit(POLICY_ENTRY); NoneFit(FENCE); NoneFit(RESERVATION);
    EntriesBack(image.capacity);
    MembersBack(image.reservations);
    GroupingsBack(image.series);
    LinksBack(image.edges);
    AttemptsBack(p, image.attempts);
    RegistrationsBack(image.claimants);
    EpisodesBack(image.overcommits);
    RowFits(STATE_FIELDS, ImageColumns(p, image));
    ColsOfRow(ImageColumns(p, image));
  }

  function ImageBytes(p: Printing, image: Image): seq<Byte> { Encode(SNAPSHOT_STATE, ImageValue(p, image)) }

  /** An image read from a snapshot's payload; bytes may not be left over. */
  function ReadImage(p: Printing, payload: seq<Byte>): Option<Image> {
    var d := Decode(SNAPSHOT_STATE, payload);
    if d.Bad? || d.rest != [] || !KnownImage(p, d.value) then None else Some(ImageOf(p, d.value))
  }

  // ---------------------------------------------------------------------------
  // What is read is within the bounds
  // ---------------------------------------------------------------------------

  lemma EntriesWithin(v: Value)
    requires Fits(Many(CAPACITY_ENTRY), v)
    ensures var xs := ItemsOf(v, EntryOf);
            |xs| <= MAX_ITEMS && forall i :: 0 <= i < |xs| ==> CapacityOk(xs[i].capacity)
  {
    hide Fits, Structure, Many, CapacityOf, CapacityOk;
    ItemsFit(CAPACITY_ENTRY, v);
    forall i | 0 <= i < |v.items| ensures CapacityOk(EntryOf(v.items[i]).capacity) {
      ColsFit(ENTRY_FIELDS, v.items[i]);
      assert ENTRY_FIELDS[0] == CAPACITY;
      CapacityWithin(Col(v.items[i], 0));
    }
  }

  lemma GroupingWithin(v: Value)
    requires Fits(SERIES, v)
    ensures GroupingOk(GroupingOf(v))
  {
    hide Fits, Structure, Many, IdOf;
    SeriesWithin(v);
    ColsFit(SERIES_FIELDS, v);
    assert SERIES_FIELDS[12] == Many(ID);
    ItemsFit(ID, Col(v, 12));
    forall i | 0 <= i < |Col(v, 12).items| ensures IdOf(Col(v, 12).items[i]) < ID_LIMIT {
      IdWithin(Col(v, 12).items[i]);
    }
  }

  lemma GroupingsWithin(v: Value)
    requires Fits(Many(SERIES), v)
    ensures var xs := ItemsOf(v, GroupingOf); |xs| <= MAX_ITEMS && forall i :: 0 <= i < |xs| ==> GroupingOk(xs[i])
  {
    hide Fits, Many, GroupingOf, GroupingOk;
    ItemsFit(SERIES, v);
    forall i | 0 <= i < |v.items| ensures GroupingOk(GroupingOf(v.items[i])) {
      GroupingWithin(v.items[i]);
    }
  }

  lemma LinksWithin(v: Value)
    requires Fits(Many(EDGE), v)
    ensures var xs := ItemsOf(v, LinkOf); |xs| <= MAX_ITEMS && forall i :: 0 <= i < |xs| ==> LinkOk(xs[i])
  {
    hide Fits, Structure, Many, KeyAt, KeyOk;
    var fields := EDGE_FIELDS;
    ItemsFit(EDGE, v);
    forall i | 0 <= i < |v.items| ensures LinkOk(LinkOf(v.items[i])) {
      ColsFit(fields, v.items[i]);
      assert fields[0] == fields[2] == ID && fields[1] == fields[3] == COUNTER;
      KeyWithin(v.items[i], 0);
      KeyWithin(v.items[i], 2);
    }
  }

  lemma AttemptsWithin(p: Printing, v: Value)
    requires Fits(Many(ATTEMPT), v) && v.Items? && forall i :: 0 <= i < |v.items| ==> KnownAttempt(p, v.items[i])
    ensures var xs := ItemsOf(v, AttemptsFrom(p));
            |xs| <= MAX_ITEMS && forall i :: 0 <= i < |xs| ==> AttemptOk(p, xs[i])
  {
    hide Fits, Many, AttemptOk, AttemptAt, KnownAttempt;
    ItemsFit(ATTEMPT, v);
    forall i | 0 <= i < |v.items| ensures AttemptOk(p, AttemptsFrom(p)(v.items[i])) {
      AttemptWithin(p, v.items[i]);
    }
  }

  lemma RegistrationsWithin(v: Value)
    requires Fits(Many(CLAIMANT), v)
    ensures var xs := ItemsOf(v, RegistrationOf);
            |xs| <= MAX_ITEMS && forall i :: 0 <= i < |xs| ==> RegistrationOk(xs[i])
  {
    hide Structure, Many, IdOf;
    var fields := [ID, COUNTER, Signed64];
    ItemsFit(CLAIMANT, v);
    forall i | 0 <= i < |v.items| ensures RegistrationOk(RegistrationOf(v.items[i])) {
      ColsFit(fields, v.items[i]);
      assert fields[0] == ID && fields[1] == COUNTER;
      IdWithin(Col(v.items[i], 0));
    }
  }

  lemma EpisodesWithin(v: Value)
    requires Fits(Many(OVERCOMMIT), v)
    ensures var xs := ItemsOf(v, EpisodeOf); |xs| <= MAX_ITEMS && forall i :: 0 <= i < |xs| ==> EpisodeOk(xs[i])
  {
    hide Fits, Structure, Many, NameOf, NameOk;
    var fields := [NAME, COUNTER, Signed64, Signed64, INTERVAL, Signed64, FLAG];
    ItemsFit(OVERCOMMIT, v);
    forall i | 0 <= i < |v.items| ensures EpisodeOk(EpisodeOf(v.items[i])) {
      ColsFit(fields, v.items[i]);
      assert fields[0] == NAME;
      NameWithin(Col(v.items[i], 0));
    }
  }

  lemma ImageWithin(p: Printing, v: Value)
    requires Fits(SNAPSHOT_STATE, v) && KnownImage(p, v)
    ensures ImageOk(p, ImageOf(p, v))
  {
    hide Fits, Structure, ItemsOf, Many, CapacityOk, RecordOk, GroupingOk, LinkOk, AttemptOk, RegistrationOk, EpisodeOk,
         KnownRecord, KnownAttempt, AttemptsFrom;
    ColsFit(STATE_FIELDS, v);
    var f := STATE_FIELDS;
    assert f[3] == Many(CAPACITY_ENTRY) && f[6] == Many(RESERVATION) && f[7] == Many(SERIES) && f[8] == Many(EDGE)
           && f[9] == Many(ATTEMPT) && f[11] == Many(CLAIMANT) && f[12] == Many(OVERCOMMIT);
    EntriesWithin(Col(v, 3));
    MembersWithin(Col(v, 6));
    GroupingsWithin(Col(v, 7));
    LinksWithin(Col(v, 8));
    AttemptsWithin(p, Col(v, 9));
    RegistrationsWithin(Col(v, 11));
    EpisodesWithin(Col(v, 12));
  }

  /** An image is read back as itself exactly when it is within the bounds. */
  lemma ImageReadsBack(p: Printing, image: Image)
    ensures ReadImage(p, ImageBytes(p, image)) == Some(image) <==> ImageOk(p, image)
  {
    hide ImageOk, Fits, Decode, Encode, ImageValue, ImageOf, KnownImage;
    if ImageOk(p, image) {
      ImageFits(p, image);
      StateComesBack(ImageValue(p, image));
    } else if ReadImage(p, ImageBytes(p, image)) == Some(image) {
      StateOneEncoding(ImageBytes(p, image), []);
      ImageWithin(p, Decode(SNAPSHOT_STATE, ImageBytes(p, image)).value);
    }
  }

  /** Whatever image a payload holds can be written again, and then is read as the same. */
  lemma ImageCanBeWritten(p: Printing, payload: seq<Byte>)
    requires ReadImage(p, payload).Some?
    ensures var image := ReadImage(p, payload).value; ReadImage(p, ImageBytes(p, image)) == Some(image)
  {
    hide ImageOk, Fits, Decode, Encode, ImageValue, ImageOf, KnownImage;
    StateOneEncoding(payload, []);
    ImageWithin(p, Decode(SNAPSHOT_STATE, payload).value);
    ImageReadsBack(p, ReadImage(p, payload).value);
  }
}

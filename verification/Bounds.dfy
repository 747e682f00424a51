/**
 Keeping the index arithmetic exact: as long as the amounts bound to a resource
 add up to no more than the saturation ceiling, every sum the index forms does.
 */
module Bounds {
  import opened Timeline
  import opened Claims
  import opened SegmentTree
  import opened Entries
  import opened ResourceStates
  import opened CapacityIndexing
  import opened Records
  import opened FabricState
  import opened Steps
  import opened Lineage
  import opened Closure
  import opened RecordIndexing

  /** What a holder binds on a resource, whenever it may use it. */
  function Stake(s: State, k: EntryKey): Option<IndexEntry> {
    match k.kind
    case Reservation =>
      if s.HasCurrent(k.id) && ConsumesCapacity(s.CurrentRecord(k.id).state) && s.CurrentRecord(k.id).Binds(k.resource)
      then Some(s.CurrentRecord(k.id).Entry(k.resource).(interval := HORIZON)) else None
    case Hold =>
      if k.id in s.holds && !s.holds[k.id].released && k.resource in s.holds[k.id].resources
      then Some(s.holds[k.id].Entry(k.resource).(interval := HORIZON)) else None
  }

  function Demand(s: State): Contents {
    map k | k in KeysInPlay(s) && Stake(s, k).Some? :: Stake(s, k).value
  }

  /** The amounts bound to any one resource add up to a representable total. */
  ghost predicate Modest(s: State) { Representable(Demand(s)) }

  lemma DemandIs(s: State, k: EntryKey)
    ensures k in Demand(s) <==> Stake(s, k).Some?
    ensures k in Demand(s) ==> Demand(s)[k] == Stake(s, k).value
  {
    if Stake(s, k).Some? {
      if k.kind == Reservation {
        var r := s.CurrentRecord(k.id);
        var i :| 0 <= i < |r.refs| && r.refs[i].resource == k.resource;
        assert EntryKey(Reservation, Key(k.id, s.current[k.id]).id,
                        s.records[Key(k.id, s.current[k.id])].refs[i].resource) == k;
      }
      assert k in KeysInPlay(s);
    }
  }

  /** Amounts are positive and resources are named. */
  ghost predicate Sized(s: State) {
    && (forall k :: k in s.records ==>
          s.records[k].KeyOf() == k && 0 < s.records[k].terms.amount && "" !in NamesOf(s.records[k].refs))
    && (forall h :: h in s.holds ==>
          s.holds[h].id == h && 0 < s.holds[h].amount && "" !in s.holds[h].resources && !s.holds[h].interval.Empty())
  }

  lemma InvSized(s: State)
    requires Inv(s)
    ensures Sized(s)
  {
    forall k | k in s.records ensures 0 < s.records[k].terms.amount && "" !in NamesOf(s.records[k].refs) {
      assert SoundRecord(s.ledger, s.records[k]);
    }
    forall h | h in s.holds
      ensures 0 < s.holds[h].amount && "" !in s.holds[h].resources && !s.holds[h].interval.Empty()
    {
      assert SoundHold(s.ledger, s.holds[h]);
    }
  }

  lemma DemandKeyed(s: State)
    requires Sized(s)
    ensures Keyed(Demand(s))
  {
    forall k | k in Demand(s) ensures Demand(s)[k].Key() == k && Demand(s)[k].Wellformed() {
      DemandIs(s, k);
      if k.kind == Reservation {
        var r := s.CurrentRecord(k.id);
        var i :| 0 <= i < |r.refs| && r.refs[i].resource == k.resource;
        assert NamesOf(r.refs)[i] == k.resource;
      }
    }
  }

  function StakeAt(s: State, k: EntryKey, t: int): int {
    match Stake(s, k)
    case None => 0
    case Some(e) => Weight(e, Combined, t)
  }

  lemma OnDemand(s: State, resource: ResourceName, k: EntryKey)
    ensures k in On(Demand(s), resource) <==> k.resource == resource && Stake(s, k).Some?
    ensures k in On(Demand(s), resource) ==> On(Demand(s), resource)[k] == Stake(s, k).value
  {
    DemandIs(s, k);
  }

  /** What is indexed at an instant is never more than what is bound. */
  lemma DemandCovers(s: State, resource: ResourceName, t: int)
    requires Sized(s) && HORIZON.Contains(t)
    ensures LoadOn(Expected(s), resource, Combined, t) <= LoadOn(Demand(s), resource, Combined, t)
  {
    DemandKeyed(s);
    OnKeyed(Demand(s), resource);
    var a, b := On(Expected(s), resource), On(Demand(s), resource);
    forall k | k in a && Weight(a[k], Combined, t) != 0
      ensures k in b && Weight(a[k], Combined, t) <= Weight(b[k], Combined, t)
    {
      OnExpected(s, resource, k);
      OnDemand(s, resource, k);
      hide Sized;
    }
    LoadDominated(a, b, Combined, t);
  }

  lemma ModestRepresentable(s: State)
    requires Inv(s) && Modest(s)
    ensures Representable(Expected(s)) && Keyed(Expected(s))
  {
    hide Inv, LoadOn, Expected, Demand;
    InvSized(s);
    ExpectedKeyed(s);
    forall r, t | HORIZON.Contains(t) ensures LoadOn(Expected(s), r, Combined, t) <= SATURATION {
      DemandCovers(s, r, t);
    }
  }

  /** Any part of a representable index is representable. */
  lemma RepresentablePart(whole: Contents, part: Contents)
    requires Keyed(whole) && Representable(whole) && forall k :: k in part ==> k in whole && part[k] == whole[k]
    ensures Keyed(part) && Representable(part)
  {
    forall r, t | HORIZON.Contains(t) ensures LoadOn(part, r, Combined, t) <= SATURATION {
      OnKeyed(whole, r);
      assert LoadOn(whole, r, Combined, t) <= SATURATION;
      PartWeighsLess(whole, part, r, t);
    }
  }

  lemma PartWeighsLess(whole: Contents, part: Contents, r: ResourceName, t: int)
    requires Keyed(On(whole, r)) && Keyed(whole) && forall k :: k in part ==> k in whole && part[k] == whole[k]
    ensures LoadOn(part, r, Combined, t) <= LoadOn(whole, r, Combined, t)
  {
    LoadDominated(On(part, r), On(whole, r), Combined, t);
  }

  // ---------------------------------------------------------------------------
  // Demand along steps
  // ---------------------------------------------------------------------------

  lemma DemandFollows(before: State, after: State, resource: ResourceName, t: int)
    requires Sized(before) && Sized(after)
    requires forall k: EntryKey :: k.resource == resource ==> StakeAt(after, k, t) <= StakeAt(before, k, t)
    ensures LoadOn(Demand(after), resource, Combined, t) <= LoadOn(Demand(before), resource, Combined, t)
  {
    hide Stake, Demand, On, Load, ClaimsOf, Sized;
    DemandKeyed(before);
    DemandKeyed(after);
    var a, b := On(Demand(after), resource), On(Demand(before), resource);
    OnKeyed(Demand(after), resource);
    OnKeyed(Demand(before), resource);
    forall k | k in a && Weight(a[k], Combined, t) != 0
      ensures k in b && Weight(a[k], Combined, t) <= Weight(b[k], Combined, t)
    {
      OnDemand(after, resource, k);
      OnDemand(before, resource, k);
    }
    LoadDominated(a, b, Combined, t);
  }

  lemma DemandFollowsButOne(before: State, after: State, key: EntryKey, amount: int, t: int)
    requires Sized(before) && Sized(after) && 0 <= amount
    requires StakeAt(after, key, t) <= amount
    requires forall k: EntryKey :: k.resource == key.resource && k != key ==>
      StakeAt(after, k, t) <= StakeAt(before, k, t)
    ensures LoadOn(Demand(after), key.resource, Combined, t) <= LoadOn(Demand(before), key.resource, Combined, t)
            + amount
  {
    hide Stake, Demand, On, Load, ClaimsOf, Sized;
    DemandKeyed(before);
    DemandKeyed(after);
    var a, b := On(Demand(after), key.resource), On(Demand(before), key.resource);
    OnKeyed(Demand(after), key.resource);
    OnKeyed(Demand(before), key.resource);
    forall k | k in a && k != key && Weight(a[k], Combined, t) != 0
      ensures k in b && Weight(a[k], Combined, t) <= Weight(b[k], Combined, t)
    {
      OnDemand(after, key.resource, k);
      OnDemand(before, key.resource, k);
    }
    OnDemand(after, key.resource, key);
    if key in a {
      LoadPlusOne(a, b, key, Combined, t);
    } else {
      LoadDominated(a, b, Combined, t);
    }
  }

  lemma ModestFollows(before: State, after: State)
    requires Inv(before) && Inv(after) && Modest(before)
    requires forall k, t :: StakeAt(after, k, t) <= StakeAt(before, k, t)
    ensures Modest(after)
  {
    hide Inv, Stake, Demand, LoadOn, StakeAt;
    InvSized(before);
    InvSized(after);
    forall r, t | HORIZON.Contains(t) ensures LoadOn(Demand(after), r, Combined, t) <= SATURATION {
      DemandFollows(before, after, r, t);
      assert LoadOn(Demand(before), r, Combined, t) <= SATURATION;
    }
  }

  /** The resources named can take `total` more without passing the saturation ceiling. */
  ghost predicate RoomToBind(s: State, names: seq<ResourceName>, total: int) {
    forall i, t :: 0 <= i < |names| && HORIZON.Contains(t) ==>
        LoadOn(Demand(s), names[i], Combined, t) + total <= SATURATION
  }

  /** A state whose records came closer to their end binds no more. */
  ghost predicate Waned(before: Record, after: Record) {
    && after.KeyOf() == before.KeyOf() && after.terms == before.terms && after.refs == before.refs
    && (ConsumesCapacity(after.state) ==> ConsumesCapacity(before.state))
  }

  lemma WanedStaysModest(before: State, after: State)
    requires Inv(before) && Inv(after) && Modest(before) && after.current == before.current
    requires after.records.Keys == before.records.Keys && forall k :: k in before.records ==>
      Waned(before.records[k], after.records[k])
    requires after.holds.Keys == before.holds.Keys
    requires forall h :: h in before.holds ==>
      after.holds[h] == before.holds[h] || after.holds[h] == before.holds[h].(released := true)
    ensures Modest(after)
  {
    hide Inv, Modest;
    InvSized(before);
    forall k, t ensures StakeAt(after, k, t) <= StakeAt(before, k, t) {
      WanedStake(before, after, k, t);
    }
    ModestFollows(before, after);
  }

  lemma WanedStake(before: State, after: State, k: EntryKey, t: int)
    requires Sized(before) && after.current == before.current
    requires after.records.Keys == before.records.Keys && forall k :: k in before.records ==>
      Waned(before.records[k], after.records[k])
    requires after.holds.Keys == before.holds.Keys
    requires forall h :: h in before.holds ==>
      after.holds[h] == before.holds[h] || after.holds[h] == before.holds[h].(released := true)
    ensures StakeAt(after, k, t) <= StakeAt(before, k, t)
  {
    if k.kind == Reservation && before.HasCurrent(k.id) {
      var r, r' := before.CurrentRecord(k.id), after.CurrentRecord(k.id);
      assert Waned(r, r');
      assert r'.Binds(k.resource) <==> r.Binds(k.resource);
    }
  }

  // ---------------------------------------------------------------------------
  // The index while a ledger change is being worked through
  // ---------------------------------------------------------------------------

  /** For each identity, the ledger its entries were last brought in step with. */
  type Ledgers = Identity -> Ledger

  /** Identities still pending are wanted as their ledger stood before. */
  function WantedIn(s: State, before: Ledgers, pending: set<Identity>, k: EntryKey): Option<IndexEntry> {
    if k.kind == Reservation && k.id in pending then Wanted(s.(ledger := before(k.id)), k) else Wanted(s, k)
  }

  ghost predicate Answers(m: Contents, k: EntryKey, wanted: Option<IndexEntry>) {
    (k in m <==> wanted.Some?) && (k in m ==> m[k] == wanted.value)
  }

  /** The index answers every key as wanted. */
  ghost predicate InMix(m: Contents, s: State, before: Ledgers, pending: set<Identity>) {
    forall k :: Answers(m, k, WantedIn(s, before, pending, k))
  }

  /** The index contents that answer every key as wanted. */
  function Indexed(s: State, before: Ledgers, pending: set<Identity>): Contents {
    map k | k in KeysInPlay(s) && WantedIn(s, before, pending, k).Some? :: WantedIn(s, before, pending, k).value
  }

  lemma IndexedIs(s: State, before: Ledgers, pending: set<Identity>, k: EntryKey)
    ensures Answers(Indexed(s, before, pending), k, WantedIn(s, before, pending, k))
  {
    hide Wanted, KeysInPlay, Expected;
    if WantedIn(s, before, pending, k).Some? {
      var t := if k.kind == Reservation && k.id in pending then s.(ledger := before(k.id)) else s;
      WantedInPlay(t, k);
      InPlaySame(s, t);
    }
  }

  lemma WantedInPlay(s: State, k: EntryKey)
    requires Wanted(s, k).Some?
    ensures k in KeysInPlay(s)
  {
    ExpectedIs(s, k);
  }

  lemma InPlaySame(s: State, t: State)
    requires t.records == s.records && t.holds == s.holds
    ensures KeysInPlay(t) == KeysInPlay(s)
  {
  }

  lemma IndexedUnique(m: Contents, s: State, before: Ledgers, pending: set<Identity>)
    ensures InMix(m, s, before, pending) <==> m == Indexed(s, before, pending)
  {
    hide Indexed, WantedIn;
    forall k ensures Answers(Indexed(s, before, pending), k, WantedIn(s, before, pending, k)) {
      IndexedIs(s, before, pending, k);
    }
    if InMix(m, s, before, pending) {
      forall k ensures (k in m <==> k in Indexed(s, before, pending))
          && (k in m ==> m[k] == Indexed(s, before, pending)[k]) {
        assert Answers(m, k, WantedIn(s, before, pending, k));
      }
    }
  }

  /** The same, except perhaps for the keys of one reservation identity. */
  ghost predicate MixedBut(m: Contents, s: State, before: Ledgers, pending: set<Identity>, id: Identity) {
    forall k: EntryKey :: !(k.kind == Reservation && k.id == id) ==> Answers(m, k, WantedIn(s, before, pending, k))
  }

  lemma MixNone(m: Contents, s: State, before: Ledgers)
    ensures InMix(m, s, before, {}) <==> m == Expected(s)
  {
    hide Wanted, Expected;
    if InMix(m, s, before, {}) {
      forall k ensures (k in m <==> Wanted(s, k).Some?) && (k in m ==> m[k] == Wanted(s, k).value) {
        assert Answers(m, k, WantedIn(s, before, {}, k));
      }
      ExpectedUnique(s, m);
    }
    if m == Expected(s) {
      forall k ensures Answers(m, k, WantedIn(s, before, {}, k)) {
        ExpectedIs(s, k);
      }
    }
  }

  lemma MixSettles(s: State, m: Contents, before: Ledgers, pending: set<Identity>, id: Identity)
    requires MixedBut(m, s, before, pending, id) && s.HasCurrent(id) && s.CurrentRecord(id).id == id
    requires Distinct(NamesOf(s.CurrentRecord(id).refs)) && "" !in NamesOf(s.CurrentRecord(id).refs)
    requires 0 < s.CurrentRecord(id).terms.amount
    ensures InMix(Settled(m, s.ledger, s.CurrentRecord(id)), s, before, pending - {id})
  {
    var r := s.CurrentRecord(id);
    if Indexable(s.ledger, r) {
      EntriesDistinct(r);
    }
    hide EntryMap, Indexable, Wanted;
    forall k ensures Answers(Settled(m, s.ledger, r), k, WantedIn(s, before, pending - {id}, k)) {
      if k.kind == Reservation && k.id == id {
        SettledOwn(s, m, id, k);
      } else {
        assert Answers(m, k, WantedIn(s, before, pending, k));
        SettledOther(m, s.ledger, r, k);
      }
    }
  }

  lemma SettledOther(m: Contents, ledger: Ledger, r: Record, k: EntryKey)
    requires !(k.kind == Reservation && k.id == r.id)
    requires Indexable(ledger, r) ==> Distinctly(EntrySeq(r))
    ensures k in Settled(m, ledger, r) <==> k in m
    ensures k in m ==> Settled(m, ledger, r)[k] == m[k]
  {
    hide EntryMap, Indexable;
    if Indexable(ledger, r) { RecordEntries(r); }
  }

  /** The stake is what a wanted entry is widened to. */
  lemma WantedIsStaked(s: State, before: Ledgers, pending: set<Identity>, k: EntryKey)
    ensures var w := WantedIn(s, before, pending, k);
            w.Some? ==> Stake(s, k) == Some(w.value.(interval := HORIZON))
  {
    hide Record.Window, AllCurrent;
  }

  lemma BoundName(r: Record, resource: ResourceName)
    requires r.Binds(resource)
    ensures resource in NamesOf(r.refs)
  {
    var i :| 0 <= i < |r.refs| && r.refs[i].resource == resource;
    assert NamesOf(r.refs)[i] == resource;
  }

  lemma WantedKeyed(s: State, before: Ledgers, pending: set<Identity>, k: EntryKey)
    requires Sized(s) && WantedIn(s, before, pending, k).Some?
    ensures WantedIn(s, before, pending, k).value.Key() == k && WantedIn(s, before, pending, k).value.Wellformed()
  {
    hide AllCurrent, Record.Binds, Record.Window, NamesOf, Record.Consumes;
    if k.kind == Reservation { BoundName(s.CurrentRecord(k.id), k.resource); }
  }

  lemma MixKeyed(s: State, m: Contents, before: Ledgers, pending: set<Identity>)
    requires Sized(s) && InMix(m, s, before, pending)
    ensures Keyed(m)
  {
    forall k | k in m ensures m[k].Key() == k && m[k].Wellformed() {
      hide Sized, Wanted, WantedIn;
      assert Answers(m, k, WantedIn(s, before, pending, k));
      WantedKeyed(s, before, pending, k);
    }
  }

  /** Whatever stage the change is at, the index stays representable. */
  lemma MixRepresentable(s: State, m: Contents, before: Ledgers, pending: set<Identity>)
    requires Healthy(s) && InMix(m, s, before, pending)
    ensures Keyed(m) && Representable(m)
  {
    hide Inv, LoadOn, Demand, InMix, Sized;
    InvSized(s);
    MixKeyed(s, m, before, pending);
    forall r, t | HORIZON.Contains(t) ensures LoadOn(m, r, Combined, t) <= SATURATION {
      assert LoadOn(Demand(s), r, Combined, t) <= SATURATION;
      MixDemand(s, m, before, pending, r, t);
    }
  }

  lemma HealthyIndexed(s: State, before: Ledgers, pending: set<Identity>)
    requires Healthy(s)
    ensures Keyed(Indexed(s, before, pending)) && Representable(Indexed(s, before, pending))
  {
    hide Healthy, Indexed;
    IndexedUnique(Indexed(s, before, pending), s, before, pending);
    MixRepresentable(s, Indexed(s, before, pending), before, pending);
  }

  lemma MixDemand(s: State, m: Contents, before: Ledgers, pending: set<Identity>, resource: ResourceName, t: int)
    requires Sized(s) && InMix(m, s, before, pending) && HORIZON.Contains(t)
    ensures LoadOn(m, resource, Combined, t) <= LoadOn(Demand(s), resource, Combined, t)
  {
    hide Sized, Demand, WantedIn, Stake, ClaimsOf, Load;
    DemandKeyed(s);
    OnKeyed(Demand(s), resource);
    var a, b := On(m, resource), On(Demand(s), resource);
    MixKeyed(s, m, before, pending);
    forall k | k in a && Weight(a[k], Combined, t) != 0
      ensures k in b && Weight(a[k], Combined, t) <= Weight(b[k], Combined, t)
    {
      assert Answers(m, k, WantedIn(s, before, pending, k));
      WantedIsStaked(s, before, pending, k);
      OnDemand(s, resource, k);
    }
    LoadDominated(a, b, Combined, t);
  }

  lemma MixSettled(s: State, m: Contents, before: Ledgers, pending: set<Identity>, id: Identity)
    requires Healthy(s) && InMix(m, s, before, pending) && s.HasCurrent(id)
    ensures Settled(m, if id in pending then before(id) else s.ledger, s.CurrentRecord(id)) == m
    ensures MixedBut(m, s, before, pending, id)
  {
    HealthyRecord(s, Key(id, s.current[id]));
    var ledger := if id in pending then before(id) else s.ledger;
    hide Healthy, Wanted, Indexable, EntryMap, EntrySeq, Distinctly, InMix;
    forall k: EntryKey ensures Answers(m, k, WantedIn(s, before, pending, k)) {
      MixAnswers(s, m, before, pending, k);
    }
    hide Answers;
    forall k: EntryKey | k.kind == Reservation && k.id == id ensures Answers(m, k, Wanted(s.(ledger := ledger), k)) {
      assert s.(ledger := s.ledger) == s;
      MixAnswers(s, m, before, pending, k);
    }
    SelfSettled(s.(ledger := ledger), m, id);
  }

  lemma MixAnswers(s: State, m: Contents, before: Ledgers, pending: set<Identity>, k: EntryKey)
    requires InMix(m, s, before, pending)
    ensures Answers(m, k, WantedIn(s, before, pending, k))
  {
  }

  lemma SelfSettled(s: State, m: Contents, id: Identity)
    requires s.HasCurrent(id) && s.CurrentRecord(id).id == id
    requires var r := s.CurrentRecord(id); Distinct(NamesOf(r.refs)) && "" !in NamesOf(r.refs) && 0 < r.terms.amount
    requires forall k: EntryKey :: k.kind == Reservation && k.id == id ==> Answers(m, k, Wanted(s, k))
    ensures Settled(m, s.ledger, s.CurrentRecord(id)) == m
  {
    var r := s.CurrentRecord(id);
    var after := Settled(m, s.ledger, r);
    if Indexable(s.ledger, r) { EntriesDistinct(r); }
    hide Indexable, EntryMap, EntrySeq, Distinctly, Wanted, Distinct, NamesOf;
    forall k ensures (k in after <==> k in m) && (k in m ==> after[k] == m[k]) {
      if k.kind == Reservation && k.id == id {
        SettledOwn(s, m, id, k);
        assert Answers(m, k, Wanted(s, k));
      } else {
        SettledOther(m, s.ledger, r, k);
      }
    }
  }

  /** Keys of other holders do not notice that one record changed. */
  lemma OthersMixed(m: Contents, s: State, s': State, before: Ledgers, pending: set<Identity>, key: Key)
    requires MixedBut(m, s, before, pending, key.id)
    requires s'.ledger == s.ledger && s'.current == s.current && s'.holds == s.holds
    requires s'.records.Keys == s.records.Keys && forall k :: k in s.records && k.id != key.id ==>
      s'.records[k] == s.records[k]
    ensures MixedBut(m, s', before, pending, key.id)
  {
    hide Answers, Wanted, Authority, MixedBut, WantedIn;
    OthersWantedSame(s, s', before, pending, key);
    MixedTransfers(m, s, s', before, pending, key.id);
  }

  lemma MixedTransfers(m: Contents, s: State, s': State, before: Ledgers, pending: set<Identity>, id: Identity)
    requires MixedBut(m, s, before, pending, id)
    requires forall k: EntryKey :: !(k.kind == Reservation && k.id == id) ==>
      WantedIn(s', before, pending, k) == WantedIn(s, before, pending, k)
    ensures MixedBut(m, s', before, pending, id)
  {
    hide Answers, WantedIn;
  }

  /** Outside one identity the records are the same. */
  ghost predicate SameBut(records: RecordTable, records': RecordTable, id: Identity) {
    records'.Keys == records.Keys && forall k :: k in records && k.id != id ==> records'[k] == records[k]
  }

  lemma OthersWantedSame(s: State, s': State, before: Ledgers, pending: set<Identity>, key: Key)
    requires s'.ledger == s.ledger && s'.current == s.current && s'.holds == s.holds
    requires SameBut(s.records, s'.records, key.id)
    ensures forall k: EntryKey :: !(k.kind == Reservation && k.id == key.id) ==>
      WantedIn(s', before, pending, k) == WantedIn(s, before, pending, k)
  {
    hide WantedIn, SameBut;
    forall k: EntryKey | !(k.kind == Reservation && k.id == key.id)
      ensures WantedIn(s', before, pending, k) == WantedIn(s, before, pending, k)
    {
      OtherWantedSame(s, s', before, pending, key.id, k);
    }
  }

  lemma OtherWantedSame(s: State, s': State, before: Ledgers, pending: set<Identity>, id: Identity, k: EntryKey)
    requires s'.ledger == s.ledger && s'.current == s.current && s'.holds == s.holds
    requires SameBut(s.records, s'.records, id) && !(k.kind == Reservation && k.id == id)
    ensures WantedIn(s', before, pending, k) == WantedIn(s, before, pending, k)
  {
    hide Wanted, Authority;
    if k.kind == Reservation {
      SameAuthority(s, s', id, k.id);
    }
    SameWanted(s', s, k);
    SameWanted(s'.(ledger := before(k.id)), s.(ledger := before(k.id)), k);
  }

  lemma SameAuthority(s: State, s': State, changed: Identity, id: Identity)
    requires s'.current == s.current && SameBut(s.records, s'.records, changed) && id != changed
    ensures Authority(s'.records, s'.current, id) == Authority(s.records, s.current, id)
  {
  }

  lemma PlacedOwn(r: Record, k: EntryKey)
    requires Distinctly(EntrySeq(r)) && k.kind == Reservation && k.id == r.id
    ensures k in EntryMap(EntrySeq(r)) <==> r.Binds(k.resource)
    ensures k in EntryMap(EntrySeq(r)) ==> EntryMap(EntrySeq(r))[k] == r.Entry(k.resource)
  {
    RecordEntries(r);
    hide EntryMap, Distinctly, Record.Window;
    if k in EntryMap(EntrySeq(r)) {
      var i :| 0 <= i < |EntrySeq(r)| && EntrySeq(r)[i].Key() == k;
      assert r.refs[i].resource == k.resource;
    }
    if r.Binds(k.resource) {
      var i :| 0 <= i < |r.refs| && r.refs[i].resource == k.resource;
      assert EntrySeq(r)[i].Key() == k;
    }
  }

  lemma SettledOwn(s: State, m: Contents, id: Identity, k: EntryKey)
    requires s.HasCurrent(id) && s.CurrentRecord(id).id == id && k.kind == Reservation && k.id == id
    requires Indexable(s.ledger, s.CurrentRecord(id)) ==> Distinctly(EntrySeq(s.CurrentRecord(id)))
    ensures var after := Settled(m, s.ledger, s.CurrentRecord(id));
            (k in after <==> Wanted(s, k).Some?) && (k in after ==> after[k] == Wanted(s, k).value)
  {
    hide EntryMap, EntrySeq, Indexable, Distinctly, Record.Binds, Record.Entry;
    var r := s.CurrentRecord(id);
    if Indexable(s.ledger, r) { PlacedOwn(r, k); }
  }

  // ---------------------------------------------------------------------------
  // Health: the invariant with exact index arithmetic
  // ---------------------------------------------------------------------------

  ghost predicate Healthy(s: State) { Inv(s) && Modest(s) }

  /** Health looks only at the ledger, the records, their generations and the holds. */
  lemma HealthySame(s: State, s': State)
    requires Healthy(s)
    requires s'.ledger == s.ledger && s'.records == s.records && s'.current == s.current && s'.holds == s.holds
    ensures Healthy(s')
  {
    assert Inv(s');
    hide Inv, Modest;
    assert forall k :: Stake(s', k) == Stake(s, k);
    ModestSame(s, s');
  }

  lemma ModestSame(s: State, s': State)
    requires Inv(s) && Inv(s') && Modest(s) && forall k :: Stake(s', k) == Stake(s, k)
    ensures Modest(s')
  {
    hide Inv, Stake, Modest;
    ModestFollows(s, s');
  }

  /** One record rewritten within its identity, lineage and terms, and no more alive than before. */
  lemma HealthyWaned(s: State, s': State, key: Key, r: Record)
    requires Healthy(s) && key in s.records && RetouchedRecord(s.records[key], r) && Waned(s.records[key], r)
    requires s'.records == s.records[key := r]
    requires s'.ledger == s.ledger && s'.current == s.current && s'.holds == s.holds
    ensures Healthy(s')
  {
    hide Inv, Modest, RetouchedRecord, Waned;
    RetouchOne(s, s', key, r);
    WanedOne(s.records, key, r);
    WanedStaysModest(s, s');
  }

  lemma WanedOne(records: RecordTable, key: Key, r: Record)
    requires key in records && Waned(records[key], r)
    ensures forall k :: k in records ==> Waned(records[k], records[key := r][k])
  {
  }

  lemma HealthyReleased(s: State, ids: set<Identity>)
    requires Healthy(s)
    ensures Healthy(HoldsReleased(s, ids))
  {
    hide Inv, Modest;
    ReleasedKeepsInv(s, ids);
    WanedStaysModest(s, HoldsReleased(s, ids));
  }

  /** What indexing needs to know of a record that a healthy state holds. */
  lemma HealthyRecord(s: State, key: Key)
    requires Healthy(s) && key in s.records
    ensures var r := s.records[key];
            && r.KeyOf() == key && Distinct(NamesOf(r.refs)) && "" !in NamesOf(r.refs) && 0 < r.terms.amount
            && ValidInterval(r.terms.interval) && 0 <= r.recallAt
            && (IsTerminal(r.state) || ConsumesCapacity(r.state))
            && key.id in s.current && 1 <= key.generation <= s.current[key.id] && s.HasCurrent(key.id)
            && (key.generation < s.current[key.id] ==> r.state == Superseded)
  {
    hide Modest;
    assert SoundRecord(s.ledger, s.records[key]);
    assert Complete(s.records, key.id, s.current[key.id]);
  }

  lemma HealthyIndex(s: State)
    requires Healthy(s)
    ensures Keyed(Expected(s)) && Representable(Expected(s))
  {
    hide Inv, Modest;
    ModestRepresentable(s);
  }

  /** The entries two records ask for are the same. */
  ghost predicate SameEntries(a: Record, b: Record) {
    a.KeyOf() == b.KeyOf() && a.refs == b.refs && a.terms == b.terms && a.Window() == b.Window()
  }

  /** An index that is settled for a record is ready for it to change state. */
  lemma SettledReady(m: Contents, ledger: Ledger, r: Record, r': Record, ledger': Ledger)
    requires Settled(m, ledger, r) == m && SameEntries(r, r')
    requires Distinct(NamesOf(r.refs)) && "" !in NamesOf(r.refs) && 0 < r.terms.amount
    ensures SyncReady(m, ledger', r')
    ensures !HeldAt(m, r.id, r.generation) ==> Without(m, Reservation, r.id) == m
  {
    assert EntrySeq(r') == EntrySeq(r);
    if Indexable(ledger, r) {
      EntriesDistinct(r);
      RecordEntries(r);
      hide EntryMap, Indexable, Distinctly;
      if r.refs != [] {
        var k := EntrySeq(r)[0].Key();
        assert k in m && m[k].generation == r.generation;
      } else {
        NoEntries(m, r);
      }
    } else {
      hide Indexable;
      NotHeld(m, r);
    }
  }

  lemma NoEntries(m: Contents, r: Record)
    requires r.refs == []
    ensures Placed(m, r) == Without(m, Reservation, r.id)
  {
    assert EntrySeq(r) == [];
  }

  lemma NotHeld(m: Contents, r: Record)
    requires Without(m, Reservation, r.id) == m
    ensures !HeldAt(m, r.id, r.generation)
  {
    WithoutTwice(m, r);
  }
}

/** Keeping one record's index entries in step with the record. */
module RecordIndexing {
  import opened Timeline
  import opened Claims
  import opened Entries
  import opened SegmentTree
  import opened ResourceStates
  import opened CapacityIndexing
  import opened Suspending
  import opened Records
  import opened FabricState
  import opened Steps

  /** One entry per bound resource, with the consuming interval and the amount. */
  function EntrySeq(r: Record): (es: seq<IndexEntry>)
    ensures |es| == |r.refs| && forall i :: 0 <= i < |es| ==> es[i] == r.Entry(r.refs[i].resource)
  {
    seq(|r.refs|, i requires 0 <= i < |r.refs| => r.Entry(r.refs[i].resource))
  }

  function EntryMap(es: seq<IndexEntry>): Contents
    decreases |es|
  {
    if es == [] then map[] else map[es[0].Key() := es[0]] + EntryMap(es[1..])
  }

  /** The index with exactly the record's entries for its identity. */
  function Placed(m: Contents, r: Record): Contents {
    Without(m, Reservation, r.id) + EntryMap(EntrySeq(r))
  }

  /** What the index must hold for the record, everything else unchanged. */
  function Settled(m: Contents, ledger: Ledger, r: Record): Contents {
    if Indexable(ledger, r) then Placed(m, r) else Without(m, Reservation, r.id)
  }

  ghost predicate Distinctly(es: seq<IndexEntry>) {
    && (forall i :: 0 <= i < |es| ==> es[i].Wellformed())
    && (forall i, j :: 0 <= i < j < |es| ==> es[i].Key() != es[j].Key())
  }

  lemma {:induction false} EntryMapIs(es: seq<IndexEntry>)
    requires Distinctly(es)
    ensures forall i :: 0 <= i < |es| ==> es[i].Key() in EntryMap(es) && EntryMap(es)[es[i].Key()] == es[i]
    ensures forall k :: k in EntryMap(es) ==> exists i :: 0 <= i < |es| && es[i].Key() == k
    decreases |es|
  {
    if es != [] {
      var rest := es[1..];
      EntryMapIs(rest);
      forall i | 0 <= i < |es| ensures es[i].Key() in EntryMap(es) && EntryMap(es)[es[i].Key()] == es[i] {
        if i > 0 { assert rest[i - 1] == es[i]; }
      }
      forall k | k in EntryMap(es) ensures exists i :: 0 <= i < |es| && es[i].Key() == k {
        if k in EntryMap(rest) {
          var j :| 0 <= j < |rest| && rest[j].Key() == k;
          assert es[j + 1].Key() == k;
        } else {
          assert es[0].Key() == k;
        }
      }
    }
  }

  /** `whole` is `m` and the entries still to come, which `m` does not have. */
  ghost predicate Completes(m: Contents, es: seq<IndexEntry>, whole: Contents) {
    && (forall k :: k in m ==> k in whole && whole[k] == m[k])
    && (forall i :: 0 <= i < |es| ==> es[i].Key() !in m && es[i].Key() in whole && whole[es[i].Key()] == es[i])
    && (forall k :: k in whole ==> k in m || k in KeysOf(es))
  }

  lemma CompletesNext(m: Contents, es: seq<IndexEntry>, whole: Contents)
    requires Completes(m, es, whole) && Distinctly(es) && es != []
    ensures Completes(m[es[0].Key() := es[0]], es[1..], whole) && Distinctly(es[1..])
    ensures Refusal(es[0], m) == Ok
  {
    var rest := es[1..];
    forall k | k in whole ensures k in m[es[0].Key() := es[0]] || k in KeysOf(rest) {
      if k in KeysOf(es) {
        var i :| 0 <= i < |es| && es[i].Key() == k;
        if i > 0 { assert rest[i - 1].Key() == k; }
      }
    }
    forall i | 0 <= i < |rest| ensures rest[i].Key() !in m[es[0].Key() := es[0]] {
      assert rest[i] == es[i + 1];
    }
  }

  /** Installing distinct new entries refuses none and adds them all, never short of room. */
  lemma {:induction false} InstalledAll(m: Contents, es: seq<IndexEntry>, whole: Contents)
    requires Distinctly(es) && Completes(m, es, whole) && Keyed(whole) && Representable(whole)
    ensures Installed(m, es) == (Ok, whole) && RoomForAll(m, es)
    decreases |es|
  {
    if es == [] {
      assert KeysOf(es) == {};
      assert m == whole;
    } else {
      CompletesNext(m, es, whole);
      RoomWithin(whole, m, es[0]);
      hide Representable, Keyed, Room, Completes, Distinctly, Refusal;
      InstalledAll(m[es[0].Key() := es[0]], es[1..], whole);
    }
  }

  lemma RecordEntries(r: Record)
    requires Distinctly(EntrySeq(r))
    ensures forall i :: 0 <= i < |r.refs| ==>
      EntrySeq(r)[i].Key() in EntryMap(EntrySeq(r)) && EntryMap(EntrySeq(r))[EntrySeq(r)[i].Key()] == EntrySeq(r)[i]
    ensures forall k :: k in EntryMap(EntrySeq(r)) ==> k.kind == Reservation && k.id == r.id && k in KeysOf(EntrySeq(r))
  {
    EntryMapIs(EntrySeq(r));
    forall k | k in EntryMap(EntrySeq(r)) ensures k.kind == Reservation && k.id == r.id && k in KeysOf(EntrySeq(r)) {
      hide EntryMap;
      var i :| 0 <= i < |EntrySeq(r)| && EntrySeq(r)[i].Key() == k;
    }
  }

  lemma PlacedCompletes(m: Contents, r: Record)
    requires Distinctly(EntrySeq(r))
    ensures Completes(Without(m, Reservation, r.id), EntrySeq(r), Placed(m, r))
  {
    RecordEntries(r);
    hide EntryMap, Distinctly;
  }

  lemma EntriesDistinct(r: Record)
    requires Distinct(NamesOf(r.refs)) && "" !in NamesOf(r.refs) && 0 < r.terms.amount && !r.Window().Empty()
    ensures Distinctly(EntrySeq(r))
    ensures forall i :: 0 <= i < |r.refs| ==> EntrySeq(r)[i].kind == Reservation && EntrySeq(r)[i].id == r.id
  {
    var names := NamesOf(r.refs);
    forall i | 0 <= i < |r.refs| ensures names[i] == r.refs[i].resource && r.refs[i].resource != "" {
    }
  }

  /** Some entry of the holder is stored under this generation. */
  ghost predicate HeldAt(m: Contents, id: Identity, generation: nat) {
    exists k :: k in m && k.kind == Reservation && k.id == id && m[k].generation == generation
  }

  method HoldsGeneration(index: CapacityIndex, r: Record) returns (held: bool)
    requires index.Valid()
    ensures held <==> HeldAt(index.contents, r.id, r.generation)
  {
    hide CapacityIndex.Valid;
    var found := index.FindAll(Reservation, r.id);
    var i := 0;
    while i < |found|
      invariant i <= |found|
      invariant forall j :: 0 <= j < i ==> found[j].generation != r.generation
    {
      if found[i].generation == r.generation {
        assert found[i].Key() in HolderKeys(index.contents, Reservation, r.id);
        return true;
      }
      i := i + 1;
    }
    forall k | k in index.contents && k.kind == Reservation && k.id == r.id
      ensures index.contents[k].generation != r.generation
    {
      assert k in HolderKeys(index.contents, Reservation, r.id);
      var j :| 0 <= j < |found| && found[j].Key() == k;
    }
    return false;
  }

  /** Replaces whatever the identity held by the record's entries. */
  method InsertRecord(index: CapacityIndex, r: Record) returns (status: Status)
    requires index.Valid() && Distinct(NamesOf(r.refs)) && "" !in NamesOf(r.refs) && 0 < r.terms.amount
    requires !r.Window().Empty() ==> Keyed(Placed(index.contents, r)) && Representable(Placed(index.contents, r))
    modifies index.Repr
    ensures index.Valid() && fresh(index.Repr - old(index.Repr))
    ensures status == Ok
    ensures index.contents == if r.Window().Empty() then old(index.contents) else Placed(old(index.contents), r)
  {
    hide CapacityIndex.Valid, Keyed, Representable, Without, Room;
    if r.Window().Empty() { return Ok; }
    var es: seq<IndexEntry> := [];
    var i := 0;
    while i < |r.refs|
      invariant i <= |r.refs| && es == EntrySeq(r)[..i]
    {
      es := es + [IndexEntry(Reservation, r.id, r.generation, r.refs[i].resource, r.Window(), r.terms.amount,
                             r.terms.guarantee)];
      i := i + 1;
    }
    assert es == EntrySeq(r);
    EntriesDistinct(r);
    PlacedCompletes(index.contents, r);
    InstalledAll(Without(index.contents, Reservation, r.id), es, Placed(index.contents, r));
    hide Installed, RoomForAll, EntryMap, EntrySeq;
    status := index.ReplaceAll(Reservation, r.id, es);
  }

  method EraseRecord(index: CapacityIndex, r: Record) returns (status: Status)
    requires index.Valid()
    modifies index.Repr
    ensures index.Valid() && fresh(index.Repr - old(index.Repr)) && status == Ok
    ensures index.contents == Without(old(index.contents), Reservation, r.id)
  {
    hide CapacityIndex.Valid, HolderKeys, Without;
    if !index.Owns(Reservation, r.id) {
      HolderGone(index.contents, Reservation, r.id);
      return Ok;
    }
    status := index.EraseAll(Reservation, r.id);
  }

  /**
   Entries found under the record's generation are already the record's; without
   any, an unindexable record has left nothing behind.
   */
  ghost predicate SyncReady(m: Contents, ledger: Ledger, r: Record) {
    if HeldAt(m, r.id, r.generation) then Indexable(ledger, r) ==> m == Placed(m, r)
    else !Indexable(ledger, r) ==> Without(m, Reservation, r.id) == m
  }

  /** Two-way step: entries appear when the record becomes indexable and go when it stops being so. */
  function Synced(m: Contents, ledger: Ledger, r: Record): Contents {
    if Indexable(ledger, r) then
      if exists k :: k in m && k.kind == Reservation && k.id == r.id && m[k].generation == r.generation then m
         else Placed(m, r)
    else if exists k :: k in m && k.kind == Reservation && k.id == r.id && m[k].generation == r.generation then
      Without(m, Reservation, r.id)
    else m
  }

  method SyncIndex(index: CapacityIndex, ledger: Ledger, r: Record) returns (status: Status)
    requires index.Valid() && Distinct(NamesOf(r.refs)) && "" !in NamesOf(r.refs) && 0 < r.terms.amount
    requires Keyed(Synced(index.contents, ledger, r)) && Representable(Synced(index.contents, ledger, r))
    modifies index.Repr
    ensures index.Valid() && fresh(index.Repr - old(index.Repr)) && status == Ok
    ensures index.contents == Synced(old(index.contents), ledger, r)
  {
    hide CapacityIndex.Valid, Keyed, Representable, Without, Placed;
    var should := Indexable(ledger, r);
    var held := HoldsGeneration(index, r);
    if should && !held {
      status := InsertRecord(index, r);
      return;
    }
    if !should && held {
      status := EraseRecord(index, r);
      return;
    }
    return Ok;
  }

  /** The two-way step leaves what the record calls for exactly when the index was ready for it. */
  lemma SyncedSettles(m: Contents, ledger: Ledger, r: Record)
    ensures Synced(m, ledger, r) == Settled(m, ledger, r) <==> SyncReady(m, ledger, r)
  {
    hide Without, Placed, Indexable;
  }

  /** The same step where what the identity holds is already the record's own. */
  method SettleIndex(index: CapacityIndex, ledger: Ledger, r: Record) returns (status: Status)
    requires index.Valid() && Distinct(NamesOf(r.refs)) && "" !in NamesOf(r.refs) && 0 < r.terms.amount
    requires SyncReady(index.contents, ledger, r)
    requires Keyed(Settled(index.contents, ledger, r)) && Representable(Settled(index.contents, ledger, r))
    modifies index.Repr
    ensures index.Valid() && fresh(index.Repr - old(index.Repr)) && status == Ok
    ensures index.contents == Settled(old(index.contents), ledger, r)
  {
    hide CapacityIndex.Valid, Keyed, Representable, SyncReady, Settled, Synced;
    SyncedSettles(index.contents, ledger, r);
    status := SyncIndex(index, ledger, r);
  }

  /** Rewrites the entries even when the record stays indexable. */
  method UpdateIndex(index: CapacityIndex, ledger: Ledger, r: Record) returns (status: Status)
    requires index.Valid() && Distinct(NamesOf(r.refs)) && "" !in NamesOf(r.refs) && 0 < r.terms.amount
    requires !HeldAt(index.contents, r.id, r.generation) ==>
      Without(index.contents, Reservation, r.id) == index.contents
    requires Keyed(Settled(index.contents, ledger, r)) && Representable(Settled(index.contents, ledger, r))
    modifies index.Repr
    ensures index.Valid() && fresh(index.Repr - old(index.Repr)) && status == Ok
    ensures index.contents == Settled(old(index.contents), ledger, r)
  {
    hide CapacityIndex.Valid, Keyed, Representable, Without, HeldAt, Indexable;
    ghost var m := index.contents;
    var held := HoldsGeneration(index, r);
    if held {
      var erased := EraseRecord(index, r);
    }
    assert index.contents == Without(m, Reservation, r.id);
    WithoutTwice(m, r);
    status := SettleIndex(index, ledger, r);
  }

  lemma WithoutTwice(m: Contents, r: Record)
    ensures var w := Without(m, Reservation, r.id);
            Without(w, Reservation, r.id) == w && !HeldAt(w, r.id, r.generation)
  {
  }
}

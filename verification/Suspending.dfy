/**
 Trials: what is set aside in the index while a request is tried out, and how the
 index is put back as it was when the trial comes to nothing.
 */
module Suspending {
  import opened Timeline
  import opened Claims
  import opened SegmentTree
  import opened Entries
  import opened ResourceStates
  import opened CapacityIndexing

  /** Keys of one holder stored under one generation; holds match any generation. */
  function HeldKeys(m: Contents, kind: HolderKind, id: Identity, generation: Option<nat>): set<EntryKey> {
    set k | k in m && k.kind == kind && k.id == id && (generation.None? || m[k].generation == generation.value)
  }

  function KeysOf(es: seq<IndexEntry>): set<EntryKey> {
    set i | 0 <= i < |es| :: es[i].Key()
  }

  /** `es` are entries of `original`, each once, and `now` is what remains. */
  ghost predicate Suspended(original: Contents, now: Contents, es: seq<IndexEntry>) {
    && (forall i :: 0 <= i < |es| ==> es[i].Key() in original && original[es[i].Key()] == es[i])
    && (forall i, j :: 0 <= i < j < |es| ==> es[i].Key() != es[j].Key())
    && now == original - KeysOf(es)
  }

  lemma SuspendOne(original: Contents, now: Contents, es: seq<IndexEntry>, e: IndexEntry)
    requires Suspended(original, now, es) && e.Key() in now && now[e.Key()] == e
    ensures Suspended(original, now - {e.Key()}, es + [e])
  {
    assert KeysOf(es + [e]) == KeysOf(es) + {e.Key()} by {
      forall k | k in KeysOf(es) + {e.Key()} ensures k in KeysOf(es + [e]) {
        if k == e.Key() {
          assert (es + [e])[|es|] == e;
        } else {
          var i :| 0 <= i < |es| && es[i].Key() == k;
          assert (es + [e])[i].Key() == k;
        }
      }
    }
  }

  lemma RestoreOne(original: Contents, now: Contents, es: seq<IndexEntry>)
    requires Suspended(original, now, es) && es != [] && Keyed(original)
    ensures Suspended(original, now[es[0].Key() := es[0]], es[1..])
    ensures Refusal(es[0], now) == Ok
  {
    var e := es[0];
    assert e.Key() in KeysOf(es) && e.Wellformed();
    forall k ensures k in KeysOf(es) <==> k == e.Key() || k in KeysOf(es[1..]) {
      if k in KeysOf(es) && k != e.Key() {
        var i :| 0 <= i < |es| && es[i].Key() == k;
        assert es[1..][i - 1].Key() == k;
      }
      if k in KeysOf(es[1..]) {
        var i :| 0 <= i < |es[1..]| && es[1..][i].Key() == k;
        assert es[i + 1].Key() == k;
      }
    }
  }

  /** An entry of a representable index fits beside any part of the rest. */
  lemma RoomWithin(original: Contents, now: Contents, e: IndexEntry)
    requires Representable(original) && Keyed(original) && e.Key() in original && original[e.Key()] == e
    requires e.Key() !in now && forall k :: k in now ==> k in original && now[k] == original[k]
    ensures Room(On(now, e.resource), e.interval, e.amount)
  {
    forall t | e.interval.Contains(t) && HORIZON.Contains(t)
      ensures Load(ClaimsOf(On(now, e.resource), Combined), t) + e.amount <= SATURATION
    {
      var whole := On(original, e.resource);
      LoadOfSplit(whole, e.Key(), Combined, t);
      LoadDominated(On(now, e.resource), whole - {e.Key()}, Combined, t);
      assert LoadOn(original, e.resource, Combined, t) <= SATURATION;
    }
  }

  class Suspension {
    const index: CapacityIndex
    var entries: seq<IndexEntry>
    var kept: bool
    /** The index as it was when the evaluation began. */
    ghost const original: Contents

    ghost predicate Valid()
      reads this, index, index.Repr
    {
      && this !in index.Repr
      && index.Valid()
      && Keyed(original) && Representable(original)
      && Suspended(original, index.contents, entries)
    }

    constructor (index: CapacityIndex)
      requires index.Valid()
      ensures Valid() && entries == [] && !kept && original == index.contents && this.index == index
      ensures fresh(this)
    {
      hide CapacityIndex.Valid, Representable, Suspended, Keyed;
      this.index := index;
      entries, kept := [], false;
      original := index.contents;
      new;
      index.StaysRepresentable();
      NothingSuspended(original);
    }

    /** Takes the holder's entries out of the index and remembers them. */
    method Suspend(kind: HolderKind, id: Identity, generation: Option<nat>)
      requires Valid()
      modifies this, index.Repr
      ensures Valid() && fresh(index.Repr - old(index.Repr)) && kept == old(kept)
      ensures index.contents == old(index.contents) - HeldKeys(old(index.contents), kind, id, generation)
    {
      hide CapacityIndex.Valid, Representable, Suspended, Keyed;
      ghost var m0 := index.contents;
      var held := index.FindAll(kind, id);
      var i := 0;
      HeldNone(m0, held, kind, id, generation);
      while i < |held|
        invariant i <= |held| && Valid() && fresh(index.Repr - old(index.Repr)) && kept == old(kept)
        invariant index.contents == m0 - HeldPart(held, i, generation)
      {
        HeldNext(m0, held, kind, id, generation, i);
        var e := held[i];
        if generation.None? || e.generation == generation.value {
          SuspendOne(original, index.contents, entries, e);
          entries := entries + [e];
          var erased := index.Erase(kind, e.id, e.generation, e.resource);
        }
        i := i + 1;
      }
    }

    /** Puts every remembered entry back. */
    method Restore()
      requires Valid()
      modifies this, index.Repr
      ensures Valid() && fresh(index.Repr - old(index.Repr)) && kept == old(kept)
      ensures index.contents == original && entries == []
    {
      hide CapacityIndex.Valid, Representable, Suspended, Keyed, Refusal;
      var i := 0;
      ghost var all := entries;
      assert all[0..] == all;
      while i < |entries|
        invariant i <= |entries| && entries == all && index.Valid() && this !in index.Repr
        invariant fresh(index.Repr - old(index.Repr)) && kept == old(kept)
        invariant Suspended(original, index.contents, entries[i..])
      {
        assert entries[i..][0] == entries[i] && entries[i..][1..] == entries[i + 1..];
        RestoreOne(original, index.contents, entries[i..]);
        RestoreRoom(i);
        var inserted := index.Insert(entries[i]);
        i := i + 1;
      }
      assert entries[i..] == [];
      entries := [];
      RestoredAll(original, index.contents);
    }

    lemma RestoreRoom(i: nat)
      requires i < |entries| && Keyed(original) && Representable(original)
      requires Suspended(original, index.contents, entries[i..])
      ensures index.RoomFor(entries[i])
    {
      hide Representable, Keyed;
      assert entries[i..][0] == entries[i];
      assert entries[i].Key() in KeysOf(entries[i..]);
      RoomWithin(original, index.contents, entries[i]);
    }

    method Keep()
      modifies this`kept
      ensures kept
    {
      kept := true;
    }

    /** Leaving the scope: everything comes back unless the caller kept the change. */
    method Leave()
      requires Valid()
      modifies this, index.Repr
      ensures index.Valid() && fresh(index.Repr - old(index.Repr))
      ensures index.contents == if old(kept) then old(index.contents) else original
    {
      if !kept {
        Restore();
      }
    }
  }

  lemma NothingSuspended(original: Contents)
    ensures Suspended(original, original, [])
  {
    assert KeysOf([]) == {};
  }

  lemma RestoredAll(original: Contents, now: Contents)
    requires Suspended(original, now, [])
    ensures now == original
  {
    assert KeysOf([]) == {};
  }

  /** Keys among the first `n` listed entries that the generation test selects. */
  function HeldPart(held: seq<IndexEntry>, n: nat, generation: Option<nat>): set<EntryKey>
    requires n <= |held|
  {
    set i | 0 <= i < n && (generation.None? || held[i].generation == generation.value) :: held[i].Key()
  }

  lemma HeldNone(m: Contents, held: seq<IndexEntry>, kind: HolderKind, id: Identity, generation: Option<nat>)
    requires HolderList(held, m, kind, id)
    ensures m - HeldPart(held, 0, generation) == m
    ensures HeldPart(held, |held|, generation) == HeldKeys(m, kind, id, generation)
  {
    assert HeldPart(held, 0, generation) == {};
    forall k | k in HeldKeys(m, kind, id, generation) ensures k in HeldPart(held, |held|, generation) {
      assert k in HolderKeys(m, kind, id);
      var i :| 0 <= i < |held| && held[i].Key() == k;
    }
  }

  lemma HeldNext(m: Contents, held: seq<IndexEntry>, kind: HolderKind, id: Identity, generation: Option<nat>, i: nat)
    requires HolderList(held, m, kind, id) && i < |held|
    ensures var e := held[i];
            && e.Key() in m - HeldPart(held, i, generation) && m[e.Key()] == e
            && e.kind == kind && e.id == id
            && m - HeldPart(held, i + 1, generation) ==
               (if generation.None? || e.generation == generation.value
                then m - HeldPart(held, i, generation) - {e.Key()}
                else m - HeldPart(held, i, generation))
  {
    var e := held[i];
    var step := if generation.None? || e.generation == generation.value then {e.Key()} else {};
    assert HeldPart(held, i + 1, generation) == HeldPart(held, i, generation) + step;
  }
}

/**
 Everything that takes bandwidth, by the name of what it takes it from. Bookings and
 provisional claims stand side by side in one table, under a key of kind, holder and name.
 */
module CapacityIndexing {
  import opened Timeline
  import opened Claims
  import opened SegmentTree
  import opened Timelines
  import opened Entries
  import opened ResourceStates

  datatype ErrorCode = InvalidInterval | InvalidBandwidth | InvalidName | AlreadyExists | NotFound | Internal

  datatype Status = Ok | Error(code: ErrorCode)

  /** Why an entry is refused before anything is touched. */
  function Refusal(e: IndexEntry, m: Contents): Status {
    if e.interval.Empty() then Error(InvalidInterval)
    else if e.amount <= 0 then Error(InvalidBandwidth)
    else if e.resource == "" then Error(InvalidName)
    else if e.Key() in m then Error(AlreadyExists)
    else Ok
  }

  /** Everything the index holds apart from one holder's entries. */
  function Without(m: Contents, kind: HolderKind, id: Identity): Contents {
    map k | k in m && !(k.kind == kind && k.id == id) :: m[k]
  }

  /** The keys one holder owns, one per resource it is bound to. */
  function HolderKeys(m: Contents, kind: HolderKind, id: Identity): set<EntryKey> {
    set k | k in m && k.kind == kind && k.id == id
  }

  /** Inserting entries in order, stopping at the first refusal. */
  function Installed(m: Contents, es: seq<IndexEntry>): (Status, Contents)
    decreases |es|
  {
    if es == [] then (Ok, m)
    else if Refusal(es[0], m) != Ok then (Refusal(es[0], m), m)
    else Installed(m[es[0].Key() := es[0]], es[1..])
  }

  /** No insertion of the sequence reaches saturation. */
  ghost predicate RoomForAll(m: Contents, es: seq<IndexEntry>)
    decreases |es|
  {
    es != [] && Refusal(es[0], m) == Ok ==>
      && Room(On(m, es[0].resource), es[0].interval, es[0].amount)
      && RoomForAll(m[es[0].Key() := es[0]], es[1..])
  }

  lemma OnPlus(m: Contents, e: IndexEntry)
    ensures On(m[e.Key() := e], e.resource) == On(m, e.resource)[e.Key() := e]
    ensures forall r :: r != e.resource ==> On(m[e.Key() := e], r) == On(m, r)
  {
  }

  lemma OnNothing(m: Contents, resource: ResourceName)
    requires forall k :: k in m ==> k.resource != resource
    ensures On(m, resource) == map[]
  {
  }

  lemma OnOwn(m: Contents, k: EntryKey)
    ensures k in On(m, k.resource) <==> k in m
    ensures k in m ==> On(m, k.resource)[k] == m[k]
  {
  }

  lemma OnMinus(m: Contents, k: EntryKey)
    ensures On(m - {k}, k.resource) == On(m, k.resource) - {k}
    ensures forall r :: r != k.resource ==> On(m - {k}, r) == On(m, r)
  {
  }

  /** What the bookkeeping map records: where each entry starts. */
  function Starts(m: Contents): (s: map<EntryKey, int>)
    ensures s.Keys == m.Keys && forall k :: k in m ==> s[k] == m[k].interval.start
  {
    map k | k in m :: m[k].interval.start
  }

  lemma BookPlus(m: Contents, e: IndexEntry)
    requires Keyed(m) && e.Wellformed() && e.Key() !in m
    ensures var m' := m[e.Key() := e];
            Keyed(m') && Starts(m') == Starts(m)[e.Key() := e.interval.start] && |m'| == |m| + 1
  {
  }

  lemma BookMinus(m: Contents, k: EntryKey)
    requires Keyed(m) && k in m
    ensures var m' := m - {k};
            Keyed(m') && Starts(m') == Starts(m) - {k} && |m'| == |m| - 1
  {
    assert (m - {k}).Keys == m.Keys - {k};
  }

  /** The accounting states share no object with each other. */
  ghost predicate Parted(states: map<ResourceName, ResourceState>, repr: set<object>) {
    && (forall r :: r in states ==> states[r].Footprint() <= repr)
    && (forall r, s :: r in states && s in states && r != s ==> states[r].Footprint() !! states[s].Footprint())
  }

  /** Nothing is shared between `state` and the state of any other resource. */
  ghost predicate Isolated(states: map<ResourceName, ResourceState>, repr: set<object>, name: ResourceName,
                           state: ResourceState)
  {
    forall r :: r in states && r != name ==> states[r].Footprint() <= repr && states[r].Footprint() !! state.Footprint()
  }

  lemma PartedPlus(states: map<ResourceName, ResourceState>, repr: set<object>, name: ResourceName,
                   state: ResourceState)
    requires Parted(states, repr)
    requires Isolated(states, repr, name, state)
    ensures Parted(states[name := state], repr + state.Footprint())
  {
    hide ResourceState.Footprint;
  }

  lemma PartedMinus(states: map<ResourceName, ResourceState>, repr: set<object>, name: ResourceName)
    requires Parted(states, repr)
    ensures Parted(states - {name}, repr)
  {
    hide ResourceState.Footprint;
  }

  class CapacityIndex {
    var resources: map<ResourceName, ResourceState>
    var entries: map<EntryKey, int>
    var entryCount: nat
    /** Every entry the index holds, by its identity. */
    ghost var contents: Contents

    ghost var Repr: set<object>

    ghost predicate Valid()
      reads this, Repr
      ensures Valid() ==> this in Repr
    {
      && this in Repr
      && entryCount == |contents|
      && Booked()
    }

    /** Every clause of the invariant except the running count. */
    ghost predicate Booked()
      reads `contents, `resources, `entries, `Repr, Repr - {this}
    {
      Keyed(contents) && entries == Starts(contents) && Sharded()
    }

    /** One private accounting state per resource that has entries, and for no other. */
    ghost predicate Sharded()
      reads `contents, `resources, `Repr, Repr - {this}
    {
      && Parted(resources, Repr - {this})
      && (forall k :: k in contents ==> k.resource in resources)
      && (forall r :: r in resources ==> Shard(resources[r], On(contents, r)))
    }

    static ghost predicate Shard(state: ResourceState, m: Contents)
      reads state.Footprint()
    {
      state.Valid() && state.entries == m && m != map[]
    }

    constructor ()
      ensures Valid() && contents == map[] && fresh(Repr)
    {
      resources, entries, entryCount, contents := map[], map[], 0, map[];
      Repr := {this};
    }

    /** Keeps saturation out of reach of an insertion. */
    ghost predicate RoomFor(e: IndexEntry)
      reads this
    {
      Room(On(contents, e.resource), e.interval, e.amount)
    }

    method Insert(e: IndexEntry) returns (status: Status)
      requires Valid() && (Refusal(e, contents) == Ok ==> RoomFor(e))
      modifies Repr
      ensures Valid() && fresh(Repr - old(Repr))
      ensures status == Refusal(e, old(contents))
      ensures contents == if status == Ok then old(contents)[e.Key() := e] else old(contents)
    {
      hide Sharded, Keyed, Starts, Room;
      if e.interval.Empty() { return Error(InvalidInterval); }
      if e.amount <= 0 { return Error(InvalidBandwidth); }
      if e.resource == "" { return Error(InvalidName); }
      if e.Key() in entries { return Error(AlreadyExists); }
      BookPlus(contents, e);
      Place(e);
      entryCount := entryCount + 1;
      entries := entries[e.Key() := e.interval.start];
      return Ok;
    }

    /** The resource's accounting state, new when it had no entries, takes the entry. */
    method Place(e: IndexEntry)
      requires this in Repr && Sharded() && RoomFor(e)
      requires e.Wellformed() && e.Key() !in contents
      modifies `resources, `contents, `Repr, Repr - {this}
      ensures this in Repr && Sharded() && fresh(Repr - old(Repr))
      ensures contents == old(contents)[e.Key() := e]
    {
      hide ResourceState.Valid, ResourceState.Footprint, Room, On, Parted, Isolated, Shard;
      var state := StateFor(e.resource);
      OnOwn(contents, e.Key());
      PutOn(state, e);
      Adopt(state, e);
    }

    /** Records a written state under its resource. */
    method Adopt(state: ResourceState, e: IndexEntry)
      requires this in Repr && Parted(resources, Repr - {this})
      requires Isolated(resources, Repr - {this}, e.resource, state) && this !in state.Footprint()
      requires forall k :: k in contents ==> k.resource in resources
      requires Shard(state, On(contents, e.resource)[e.Key() := e])
      requires forall r :: r in resources && r != e.resource ==> Shard(resources[r], On(contents, r))
      modifies `resources, `contents, `Repr
      ensures Sharded() && Repr == old(Repr) + state.Footprint()
      ensures contents == old(contents)[e.Key() := e]
    {
      hide ResourceState.Valid, ResourceState.Footprint, On, Parted, Shard;
      OnPlus(contents, e);
      PartedPlus(resources, Repr - {this}, e.resource, state);
      resources := resources[e.resource := state];
      Repr := Repr + state.Footprint();
      contents := contents[e.Key() := e];
      assert Repr - {this} == old(Repr) - {this} + state.Footprint();
    }

    /** Writing one resource's state leaves every other resource as it was. */
    method PutOn(state: ResourceState, e: IndexEntry)
      requires this in Repr && Sharded() && Isolated(resources, Repr - {this}, e.resource, state)
               && this !in state.Footprint()
      requires state.Valid() && e.Wellformed() && e.Key() !in state.entries && Room(state.entries, e.interval, e.amount)
      modifies state.Footprint()
      ensures Shard(state, old(state.entries)[e.Key() := e])
      ensures forall r :: r in resources && r != e.resource ==> Shard(resources[r], On(contents, r))
    {
      hide ResourceState.Valid, ResourceState.Footprint, Room, On, Parted;
      state.Put(e);
      assert e.Key() in state.entries;
      forall r | r in resources && r != e.resource
        ensures Shard(resources[r], On(contents, r))
      {
        assert old(Shard(resources[r], On(contents, r)));
      }
    }

    /** The state kept for a resource, or a new one that shares nothing with the rest. */
    method StateFor(resource: ResourceName) returns (state: ResourceState)
      requires this in Repr && Sharded()
      ensures state.Valid() && state.entries == On(contents, resource)
      ensures resource in resources ==> state == resources[resource] && state.Footprint() <= Repr
      ensures resource !in resources ==> fresh(state.Footprint())
      ensures this !in state.Footprint() && Isolated(resources, Repr - {this}, resource, state)
    {
      if resource in resources {
        assert Shard(resources[resource], On(contents, resource));
        state := resources[resource];
      } else {
        OnNothing(contents, resource);
        state := new ResourceState();
      }
    }

    /** How an erasure is answered. */
    static function Missing(k: EntryKey, generation: nat, m: Contents): Status {
      if k !in m then Error(NotFound)
      else if m[k].generation != generation then Error(Internal)
      else Ok
    }

    method Erase(kind: HolderKind, id: Identity, generation: nat, resource: ResourceName) returns (status: Status)
      requires Valid()
      modifies Repr
      ensures Valid() && fresh(Repr - old(Repr))
      ensures status == Missing(EntryKey(kind, id, resource), generation, old(contents))
      ensures contents == if status == Ok then old(contents) - {EntryKey(kind, id, resource)} else old(contents)
    {
      hide Sharded, Keyed, Starts;
      var key := EntryKey(kind, id, resource);
      if key !in entries { return Error(NotFound); }
      BookMinus(contents, key);
      var removed := Drop(key, Some(generation), entries[key]);
      if !removed { return Error(Internal); }
      entries := entries - {key};
      if entryCount > 0 {
        entryCount := entryCount - 1;
      }
      return Ok;
    }

    /** Takes one entry out of its resource, and the resource out when nothing is left. */
    method Drop(key: EntryKey, generation: Option<nat>, start: int) returns (removed: bool)
      requires this in Repr && Sharded() && key in contents && start == contents[key].interval.start
      modifies `resources, `contents, `Repr, Repr - {this}
      ensures this in Repr && Sharded() && Repr == old(Repr)
      ensures removed <==> generation.None? || old(contents[key]).generation == generation.value
      ensures contents == if removed then old(contents) - {key} else old(contents)
    {
      hide ResourceState.Valid, ResourceState.Footprint, Room, On, Parted, Isolated;
      var state := StateFor(key.resource);
      var i := state.Locate(key.kind, key.id, generation, start);
      removed := i < |state.byStart|;
      Located(state, key, generation, i);
      if removed {
        TakeOn(state, i, key);
        Release(state, key);
      }
    }

    /** A located position holds the key's entry; none is located only on a generation mismatch. */
    lemma Located(state: ResourceState, key: EntryKey, generation: Option<nat>, i: nat)
      requires state.Valid() && state.entries == On(contents, key.resource) && key in contents && i <= |state.byStart|
      requires i < |state.byStart| ==> Matches(state.byStart[i], key.kind, key.id, generation,
                                               contents[key].interval.start)
      requires i == |state.byStart| ==> forall j :: 0 <= j < |state.byStart| ==>
        !Matches(state.byStart[j], key.kind, key.id, generation, contents[key].interval.start)
      ensures i < |state.byStart| <==> generation.None? || contents[key].generation == generation.value
      ensures i < |state.byStart| ==> state.byStart[i].Key() == key
    {
      hide IntervalCapacityIndex.Valid, ClaimsOf, Load;
      OnOwn(contents, key);
      if i < |state.byStart| {
        ListedOnce(state.byStart, state.entries, key.resource, key, i);
      } else {
        var j :| 0 <= j < |state.byStart| && state.byStart[j].Key() == key;
      }
    }

    method TakeOn(state: ResourceState, i: nat, key: EntryKey)
      requires this in Repr && Sharded() && this !in state.Footprint()
      requires Isolated(resources, Repr - {this}, key.resource, state)
      requires state.Valid() && i < |state.byStart| && state.byStart[i].Key() == key
      modifies state.Footprint()
      ensures if state.entryCount == 0 then old(state.entries) - {key} == map[]
              else Shard(state, old(state.entries) - {key})
      ensures forall r :: r in resources && r != key.resource ==> Shard(resources[r], On(contents, r))
    {
      hide ResourceState.Valid, ResourceState.Footprint, Room, On, Parted;
      state.Take(i);
      forall r | r in resources && r != key.resource
        ensures Shard(resources[r], On(contents, r))
      {
        assert old(Shard(resources[r], On(contents, r)));
      }
    }

    method Release(state: ResourceState, key: EntryKey)
      requires this in Repr && Parted(resources, Repr - {this}) && this !in state.Footprint()
      requires Isolated(resources, Repr - {this}, key.resource, state)
      requires key.resource in resources && resources[key.resource] == state
      requires forall k :: k in contents ==> k.resource in resources
      requires if state.entryCount == 0 then On(contents, key.resource) - {key} == map[]
               else Shard(state, On(contents, key.resource) - {key})
      requires forall r :: r in resources && r != key.resource ==> Shard(resources[r], On(contents, r))
      modifies `resources, `contents
      ensures Sharded() && contents == old(contents) - {key}
    {
      hide Shard, ResourceState.Footprint, Parted, On;
      OnMinus(contents, key);
      contents := contents - {key};
      if state.entryCount == 0 {
        PartedMinus(resources, Repr - {this}, key.resource);
        resources := resources - {key.resource};
        forall k | k in contents ensures k.resource in resources {
          OnOwn(contents, k);
        }
      }
    }

    /** Erases every entry of a holder whatever generation it was stored under. */
    method EraseAll(kind: HolderKind, id: Identity) returns (status: Status)
      requires Valid()
      modifies Repr
      ensures Valid() && fresh(Repr - old(Repr))
      ensures contents == Without(old(contents), kind, id)
      ensures status == if HolderKeys(old(contents), kind, id) == {} then Error(NotFound) else Ok
    {
      hide Sharded, Keyed, Starts;
      var removed := 0;
      var todo := set k | k in entries && k.kind == kind && k.id == id;
      ghost var m0 := contents;
      assert todo == HolderKeys(m0, kind, id);
      hide HolderKeys, Without, Booked;
      while todo != {}
        invariant this in Repr && Booked() && Repr == old(Repr)
        invariant entryCount == |m0| && removed + |contents| == |m0|
        invariant todo == HolderKeys(contents, kind, id)
        invariant removed == 0 ==> contents == m0
        invariant removed > 0 ==> HolderKeys(m0, kind, id) != {}
        invariant Without(contents, kind, id) == Without(m0, kind, id)
        decreases todo
      {
        var k :| k in todo;
        HolderStep(contents, kind, id, k);
        Forget(k);
        removed := removed + 1;
        todo := todo - {k};
      }
      HolderGone(contents, kind, id);
      if removed == 0 { return Error(NotFound); }
      entryCount := Max(0, entryCount - removed);
      return Ok;
    }

    method Forget(k: EntryKey)
      requires this in Repr && Booked() && k in contents
      modifies `resources, `contents, `Repr, `entries, Repr - {this}
      ensures this in Repr && Booked() && Repr == old(Repr)
      ensures contents == old(contents) - {k} && |contents| == |old(contents)| - 1
    {
      hide Sharded, Keyed, Starts;
      BookMinus(contents, k);
      var dropped := Drop(k, None, entries[k]);
      entries := entries - {k};
    }

    /** Replaces a holder's entries by the supplied ones. */
    method ReplaceAll(kind: HolderKind, id: Identity, es: seq<IndexEntry>) returns (status: Status)
      requires Valid() && RoomForAll(Without(contents, kind, id), es)
      modifies Repr
      ensures Valid() && fresh(Repr - old(Repr))
      ensures (status, contents) == Installed(Without(old(contents), kind, id), es)
    {
      hide Valid, Room, On, Without, Refusal;
      var erased := EraseAll(kind, id);
      ghost var m0 := contents;
      var i := 0;
      while i < |es|
        invariant i <= |es| && Valid() && fresh(Repr - old(Repr))
        invariant Installed(m0, es) == Installed(contents, es[i..]) && RoomForAll(contents, es[i..])
      {
        assert es[i..][0] == es[i] && es[i..][1..] == es[i + 1..];
        status := Insert(es[i]);
        if status != Ok { return; }
        i := i + 1;
      }
      return Ok;
    }

    /** Whether the holder owns any entry. */
    predicate Owns(kind: HolderKind, id: Identity)
      requires Valid()
      reads this, Repr
      ensures Owns(kind, id) <==> HolderKeys(contents, kind, id) != {}
    {
      HoldersExist(contents, kind, id);
      exists k :: k in entries && k.kind == kind && k.id == id
    }

    /** The holder's entries, looked up through the ordered lists. */
    method FindAll(kind: HolderKind, id: Identity) returns (found: seq<IndexEntry>)
      requires Valid()
      ensures HolderList(found, contents, kind, id)
      ensures forall i, j :: 0 <= i < j < |found| ==> NameLess(found[i].resource, found[j].resource)
    {
      hide Sharded, Keyed, Starts, NameLess, Orders, Ordered;
      found := [];
      var todo := set k | k in entries && k.kind == kind && k.id == id;
      assert todo == HolderKeys(contents, kind, id);
      hide HolderKeys;
      while todo != {}
        invariant todo <= HolderKeys(contents, kind, id)
        invariant HolderListPart(found, contents, HolderKeys(contents, kind, id) - todo)
        decreases todo
      {
        var k :| k in todo;
        HolderStep(contents, kind, id, k);
        assert contents[k].Key() == k by { KeyedAt(contents, k); }
        var e := Fetch(k, entries[k]);
        HolderListGrow(found, contents, HolderKeys(contents, kind, id) - todo, k);
        found := found + [e];
        assert HolderKeys(contents, kind, id) - todo + {k} == HolderKeys(contents, kind, id) - (todo - {k});
        todo := todo - {k};
      }
      assert HolderKeys(contents, kind, id) - todo == HolderKeys(contents, kind, id);
      NamesOrder();
      ghost var unsorted := found;
      found := SortBy(found, ByName);
      HolderListSorted(unsorted, found, contents, kind, id);
    }

    method Fetch(key: EntryKey, start: int) returns (e: IndexEntry)
      requires this in Repr && Sharded() && Keyed(contents) && key in contents && start == contents[key].interval.start
      ensures e == contents[key]
    {
      hide IntervalCapacityIndex.Valid, ClaimsOf, Load;
      var state := resources[key.resource];
      assert Shard(state, On(contents, key.resource));
      var i := state.Locate(key.kind, key.id, None, start);
      Located(state, key, None, i);
      e := state.byStart[i];
    }

    /** Peak bandwidth of reservations, of holds, or of both together over the window. */
    function Peak(resource: ResourceName, account: Account, window: Interval): (r: int)
      requires Valid()
      reads this, Repr
      ensures PeakOn(contents, resource, account, window, r)
    {
      hide ResourceState.Valid, ResourceState.Peak, ClaimsOf, Load, On, Keyed, Parted;
      if resource in resources then
        assert Shard(resources[resource], On(contents, resource));
        resources[resource].Peak(account, window)
      else
        NoEntriesNoLoad(contents, resource, account, window);
        0
    }

    /** The load of a resource over the window as a list of change points; none where nothing is held. */
    method Timeline(resource: ResourceName, window: Interval, maxPoints: nat)
      returns (points: seq<ChangePoint>, truncated: bool)
      requires Valid()
      ensures Exact(points, On(contents, resource), window)
      ensures !truncated && 0 <= window.start && !window.Empty() && On(contents, resource) != map[] ==>
        StepFunction(points, On(contents, resource), window)
      ensures On(contents, resource) == map[] ==> points == [] && !truncated
      ensures truncated <==>
        var m := On(contents, resource);
        !window.Empty() && (|Sharing(m, window)| > maxPoints + 1 || |Changes(m, window)| > maxPoints + 1)
      ensures var m := On(contents, resource);
              m != map[] && !window.Empty() && |Sharing(m, window)| <= maxPoints + 1 ==>
                Leading(points, m, window, maxPoints + 1)
    {
      hide ResourceState.Valid, ClaimsOf, Load, On, Keyed, Parted, Exact, StepFunction, Leading, Sharing, Changes;
      NoPoints(On(contents, resource), window);
      if resource !in resources || window.Empty() {
        if resource !in resources {
          OnNothing(contents, resource);
          NothingChanges(window);
        }
        return [], false;
      }
      assert Shard(resources[resource], On(contents, resource));
      points, truncated := resources[resource].ChangePoints(window, maxPoints);
    }

    /** Holders that share an instant with the window on a resource, bounded in output and in work. */
    method Overlapping(resource: ResourceName, window: Interval, outputLimit: nat, scanLimit: nat)
      returns (out: seq<IndexEntry>, matched: nat, truncated: bool, ghost looked: set<EntryKey>)
      requires Valid()
      ensures var m := On(contents, resource);
              && Scans(looked, m, window, scanLimit) && matched == |looked * Sharing(m, window)|
              && Overlaps(out, m, window) && Ordered(out, Earlier) && Foremost(out, m, window)
              && |out| == (if matched <= outputLimit then matched else outputLimit)
              && Shows(out, looked, m, window, matched <= outputLimit)
              && (truncated <==> !window.Empty() && (|Begun(m, window)| > scanLimit || matched > outputLimit))
              && (!truncated ==> AllOverlaps(out, m, window))
    {
      hide ResourceState.Valid, ClaimsOf, Load, On, Keyed, Parted, AllOverlaps, Overlaps, Ordered, Foremost, Begun,
           Sharing, Scans, Shows;
      if resource in resources {
        assert Shard(resources[resource], On(contents, resource));
        out, matched, truncated, looked := resources[resource].Overlapping(window, outputLimit, scanLimit);
      } else {
        OnNothing(contents, resource);
        NothingOverlaps(window, scanLimit);
        return [], 0, false, {};
      }
    }

    /** Whatever the index accepted, it still sums exactly. */
    lemma StaysRepresentable()
      requires Valid()
      ensures Representable(contents) && Keyed(contents)
    {
      hide ResourceState.Valid, ClaimsOf, Load, On, Keyed, Parted;
      forall r, t | HORIZON.Contains(t)
        ensures LoadOn(contents, r, Combined, t) <= SATURATION
      {
        if r in resources {
          assert Shard(resources[r], On(contents, r));
          resources[r].StaysBounded(t);
        } else {
          NoEntriesNoLoad(contents, r, Combined, HORIZON);
        }
      }
    }
  }

  lemma NothingOverlaps(window: Interval, limit: nat)
    ensures Overlaps([], map[], window) && AllOverlaps([], map[], window)
    ensures Scans({}, map[], window, limit) && {} * Sharing(map[], window) == {}
    ensures forall all :: Shows([], {}, map[], window, all)
    ensures Ordered([], Earlier) && Foremost([], map[], window) && Begun(map[], window) == {}
    ensures Sharing(map[], window) == {}
  {
  }

  lemma NothingChanges(window: Interval)
    ensures Sharing(map[], window) == {} && Changes(map[], window) == {window.start}
  {
  }

  /** Every load is one the arithmetic represents exactly. */
  ghost predicate Representable(m: Contents) {
    forall r, t :: HORIZON.Contains(t) ==> LoadOn(m, r, Combined, t) <= SATURATION
  }

  /** `r` is the exact peak of one account on a resource; zero off the timeline. */
  ghost predicate PeakOn(m: Contents, resource: ResourceName, account: Account, window: Interval, r: int) {
    if Clipped(window).Empty() then r == 0 else IsPeak(ClaimsOf(On(m, resource), account), Clipped(window), r)
  }

  lemma NoEntriesNoLoad(m: Contents, resource: ResourceName, account: Account, window: Interval)
    requires forall k :: k in m ==> k.resource != resource
    ensures PeakOn(m, resource, account, window, 0)
    ensures forall t :: LoadOn(m, resource, account, t) == 0
  {
    OnNothing(m, resource);
    assert ClaimsOf(On(m, resource), account) == multiset{};
    if !Clipped(window).Empty() {
      assert Clipped(window).Contains(Clipped(window).start);
      assert Load(multiset{}, Clipped(window).start) == 0;
    }
  }

  lemma HoldersExist(m: Contents, kind: HolderKind, id: Identity)
    ensures HolderKeys(m, kind, id) != {} <==> exists k :: k in m && k.kind == kind && k.id == id
  {
    if k :| k in m && k.kind == kind && k.id == id {
      assert k in HolderKeys(m, kind, id);
    }
  }

  /** The list shows each of the keys' entries once. */
  ghost predicate HolderListPart(found: seq<IndexEntry>, m: Contents, keys: set<EntryKey>) {
    && (forall i :: 0 <= i < |found| ==> found[i].Key() in keys && found[i].Key() in m && found[i] == m[found[i].Key()])
    && (forall i, j :: 0 <= i < j < |found| ==> found[i].Key() != found[j].Key())
    && (forall k :: k in keys ==> exists i :: 0 <= i < |found| && found[i].Key() == k)
  }

  ghost predicate HolderList(found: seq<IndexEntry>, m: Contents, kind: HolderKind, id: Identity) {
    HolderListPart(found, m, HolderKeys(m, kind, id))
  }

  lemma HolderListGrow(found: seq<IndexEntry>, m: Contents, keys: set<EntryKey>, k: EntryKey)
    requires HolderListPart(found, m, keys) && k !in keys && k in m && m[k].Key() == k
    ensures HolderListPart(found + [m[k]], m, keys + {k})
  {
    var after := found + [m[k]];
    forall j | j in keys + {k} ensures exists i :: 0 <= i < |after| && after[i].Key() == j {
      if j == k {
        assert after[|found|].Key() == k;
      } else {
        var i :| 0 <= i < |found| && found[i].Key() == j;
        assert after[i].Key() == j;
      }
    }
  }

  /** A holder has one entry per resource, so its entries in order of name are in strict order. */
  lemma HolderListSorted(found: seq<IndexEntry>, sorted: seq<IndexEntry>, m: Contents, kind: HolderKind, id: Identity)
    requires HolderList(found, m, kind, id) && multiset(sorted) == multiset(found) && Ordered(sorted, ByName)
    requires DistinctKeys(found) ==> DistinctKeys(sorted)
    ensures HolderList(sorted, m, kind, id)
    ensures forall i, j :: 0 <= i < j < |sorted| ==> NameLess(sorted[i].resource, sorted[j].resource)
  {
    hide NameLess;
    forall e ensures e in sorted <==> e in found {
      assert e in multiset(sorted) <==> e in multiset(found);
    }
    forall i | 0 <= i < |sorted|
      ensures sorted[i].Key() in HolderKeys(m, kind, id) && sorted[i].Key() in m && sorted[i] == m[sorted[i].Key()]
    {
      assert sorted[i] in found;
    }
    forall k | k in HolderKeys(m, kind, id) ensures exists i :: 0 <= i < |sorted| && sorted[i].Key() == k {
      var i :| 0 <= i < |found| && found[i].Key() == k;
      assert found[i] in sorted;
    }
    forall i, j | 0 <= i < j < |sorted| ensures NameLess(sorted[i].resource, sorted[j].resource) {
      assert sorted[i].Key() in HolderKeys(m, kind, id) && sorted[j].Key() in HolderKeys(m, kind, id);
      NameLessTotal(sorted[i].resource, sorted[j].resource);
    }
  }

  lemma HolderStep(m: Contents, kind: HolderKind, id: Identity, k: EntryKey)
    requires k in HolderKeys(m, kind, id)
    ensures k in m
    ensures HolderKeys(m - {k}, kind, id) == HolderKeys(m, kind, id) - {k}
    ensures Without(m - {k}, kind, id) == Without(m, kind, id)
  {
  }

  lemma KeyedAt(m: Contents, k: EntryKey)
    requires Keyed(m) && k in m
    ensures m[k].Key() == k && m[k].Wellformed()
  {
  }

  lemma HolderGone(m: Contents, kind: HolderKind, id: Identity)
    requires HolderKeys(m, kind, id) == {}
    ensures Without(m, kind, id) == m
  {
    forall k | k in m ensures !(k.kind == kind && k.id == id) {
      assert k !in HolderKeys(m, kind, id);
    }
  }
}

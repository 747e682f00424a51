/** The audit's own accounting of a resource, from records and holds alone. */
module Auditing {
  import opened Timeline
  import opened Claims
  import opened SegmentTree
  import opened Entries
  import opened Timelines
  import opened CapacityIndexing
  import opened Records
  import opened FabricState
  import opened Steps
  import opened Lineage
  import opened Closure
  import opened Bounds
  import opened Deadlines
  import opened Overcommitment

  /** The part of some contents on a resource that some records and some holds account for. */
  function Contributed(m: Contents, current: map<Identity, nat>, resource: ResourceName, keys: set<Key>,
                       ids: set<Identity>): Contents {
    map k | k in m && k.resource == resource
      && (if k.kind == Reservation then k.id in current && Key(k.id, current[k.id]) in keys else k.id in ids) :: m[k]
  }

  lemma ContributedNone(m: Contents, current: map<Identity, nat>, resource: ResourceName)
    ensures Contributed(m, current, resource, {}, {}) == map[]
  {
  }

  lemma ContributedAll(s: State, resource: ResourceName)
    ensures Contributed(Expected(s), s.current, resource, s.records.Keys, s.holds.Keys) == On(Expected(s), resource)
  {
    hide Expected;
    forall k | k in Expected(s) ensures if k.kind == Reservation then k.id in s.current
        && Key(k.id, s.current[k.id]) in s.records else k.id in s.holds {
      ExpectedIs(s, k);
    }
  }

  lemma OneMoreKey(m: Contents, current: map<Identity, nat>, resource: ResourceName, keys: set<Key>, key: Key)
    requires key !in keys
    ensures var e := EntryKey(Reservation, key.id, resource); var was := Contributed(m, current, resource, keys, {});
            && e.kind == Reservation
            && Contributed(m, current, resource, keys + {key}, {})
               == (if key.id in current && current[key.id] == key.generation && e in m then was[e := m[e]] else was)
            && (key.id in current && current[key.id] == key.generation ==> e !in was)
  {
  }

  lemma OneMoreHold(m: Contents, current: map<Identity, nat>, resource: ResourceName, keys: set<Key>,
                    ids: set<Identity>, id: Identity)
    requires id !in ids
    ensures var e := EntryKey(HolderKind.Hold, id, resource); var was := Contributed(m, current, resource, keys, ids);
            && Contributed(m, current, resource, keys, ids + {id}) == (if e in m then was[e := m[e]] else was)
            && e !in was
  {
  }

  /** A record contributes its entry if it is the indexable authority of its identity and binds the resource. */
  lemma RecordContributes(s: State, resource: ResourceName, keys: set<Key>, key: Key)
    requires Healthy(s) && key in s.records && key !in keys
    ensures var r := s.records[key]; var m := Contributed(Expected(s), s.current, resource, keys, {});
            if key.id in s.current && s.current[key.id] == key.generation && Indexable(s.ledger, r) && r.Binds(resource)
            then Contributed(Expected(s), s.current, resource, keys + {key}, {})
                == m[r.Entry(resource).Key() := r.Entry(resource)]
                 && r.Entry(resource).Key() !in m
            else Contributed(Expected(s), s.current, resource, keys + {key}, {}) == m
  {
    hide Healthy, Indexable, Record.Window, Expected, Contributed;
    HealthyRecord(s, key);
    ExpectedIs(s, EntryKey(Reservation, key.id, resource));
    OneMoreKey(Expected(s), s.current, resource, keys, key);
  }

  /** A hold contributes its entry while it is open and covers the resource. */
  lemma HoldContributes(s: State, resource: ResourceName, ids: set<Identity>, id: Identity)
    requires Sized(s) && id in s.holds && id !in ids
    ensures var h := s.holds[id]; var m := Contributed(Expected(s), s.current, resource, s.records.Keys, ids);
            if !h.released && resource in h.resources
            then Contributed(Expected(s), s.current, resource, s.records.Keys, ids + {id})
                == m[h.Entry(resource).Key() := h.Entry(resource)]
                 && h.Entry(resource).Key() !in m
            else Contributed(Expected(s), s.current, resource, s.records.Keys, ids + {id}) == m
  {
    assert s.holds[id].id == id;
    hide Expected, Contributed, Sized, Indexable;
    ExpectedIs(s, EntryKey(HolderKind.Hold, id, resource));
    OneMoreHold(Expected(s), s.current, resource, s.records.Keys, ids, id);
  }

  lemma ClaimAdded(claims: seq<Claim>, m: Contents, e: IndexEntry)
    requires multiset(claims) == ClaimsOf(m, Combined) && e.Key() !in m
    ensures multiset(claims + [e.Claim()]) == ClaimsOf(m[e.Key() := e], Combined)
  {
    ClaimsPlus(m, e, Combined);
  }

  /** Every contribution of records and holds to the resource. */
  method Contributions(ledger: Ledger, records: map<Key, Record>, current: map<Identity, nat>,
                       holds: map<Identity, Hold>, resource: ResourceName, ghost s: State) returns (claims: seq<Claim>)
    requires Healthy(s) && ledger == s.ledger && records == s.records && current == s.current && holds == s.holds
    ensures multiset(claims) == ClaimsOf(On(Expected(s), resource), Combined)
  {
    hide Healthy, ClaimsOf, Expected, Contributed, Indexable, Record.Window, Record.Entry;
    claims := [];
    ContributedNone(Expected(s), s.current, resource);
    NoClaims();
    var work := SortKeys(records.Keys);
    var i := 0;
    assert KeysBefore(work, 0) == {};
    while i < |work|
      invariant i <= |work| && multiset(claims)
                == ClaimsOf(Contributed(Expected(s), s.current, resource, KeysBefore(work, i), {}), Combined)
    {
      var key := work[i];
      assert key in work;
      BeforeNext(work, i);
      RecordContributes(s, resource, KeysBefore(work, i), key);
      var r := records[key];
      if key.id in current && current[key.id] == key.generation && Indexable(ledger, r) && r.Binds(resource) {
        ClaimAdded(claims, Contributed(Expected(s), s.current, resource, KeysBefore(work, i), {}), r.Entry(resource));
        claims := claims + [r.Entry(resource).Claim()];
      }
      i := i + 1;
    }
    BeforeAll(work, records.Keys);
    claims := HoldContributions(holds, resource, s, claims);
    ContributedAll(s, resource);
  }

  method HoldContributions(holds: map<Identity, Hold>, resource: ResourceName, ghost s: State, sofar: seq<Claim>)
    returns (claims: seq<Claim>)
    requires Healthy(s) && holds == s.holds
             && multiset(sofar) == ClaimsOf(Contributed(Expected(s), s.current, resource, s.records.Keys, {}), Combined)
    ensures multiset(claims) == ClaimsOf(Contributed(Expected(s), s.current, resource, s.records.Keys, s.holds.Keys),
                                         Combined)
  {
    hide Inv, Modest, Sized, ClaimsOf, Expected, Contributed;
    InvSized(s);
    claims := sofar;
    var todo := holds.Keys;
    assert holds.Keys - todo == {};
    while todo != {}
      invariant todo <= holds.Keys && multiset(claims)
                == ClaimsOf(Contributed(Expected(s), s.current, resource, s.records.Keys, holds.Keys - todo), Combined)
      decreases todo
    {
      var id :| id in todo;
      HoldContributes(s, resource, holds.Keys - todo, id);
      assert holds.Keys - (todo - {id}) == holds.Keys - todo + {id};
      var h := holds[id];
      if !h.released && resource in h.resources {
        ClaimAdded(claims, Contributed(Expected(s), s.current, resource, s.records.Keys, holds.Keys - todo),
                   h.Entry(resource));
        claims := claims + [h.Entry(resource).Claim()];
      }
      todo := todo - {id};
    }
    assert holds.Keys - todo == holds.Keys;
  }

  /** The audit's sum, sampled at the starts of the contributions alone, is the peak the records and holds call for. */
  method BruteForce(ledger: Ledger, records: map<Key, Record>, current: map<Identity, nat>, holds: map<Identity, Hold>,
                    resource: ResourceName, ghost s: State) returns (brute: int)
    requires Healthy(s) && ledger == s.ledger && records == s.records && current == s.current && holds == s.holds
    ensures PeakOn(Expected(s), resource, Combined, HORIZON, brute)
  {
    hide Healthy, ClaimsOf, Expected, Load, On, Keyed;
    var claims := Contributions(ledger, records, current, holds, resource, s);
    ContributionsBegin(s, resource);
    brute := SampledPeak(claims);
    assert Clipped(HORIZON) == HORIZON;
    SampledExactly(claims, brute);
  }

  lemma SampledExactly(claims: seq<Claim>, brute: int)
    requires NonNegative(multiset(claims)) && forall t :: Load(multiset(claims), t) <= brute
    requires forall c :: c in multiset(claims) ==> HORIZON.Contains(c.interval.start)
    requires brute == 0 || exists i :: 0 <= i < |claims| && Load(multiset(claims), claims[i].interval.start) == brute
    ensures IsPeak(multiset(claims), HORIZON, brute)
  {
    hide Load;
    var starts := seq(|claims|, i requires 0 <= i < |claims| => claims[i].interval.start);
    if i :| 0 <= i < |claims| && Load(multiset(claims), claims[i].interval.start) == brute {
      assert claims[i] in multiset(claims) && starts[i] == claims[i].interval.start;
    }
    SampledIsPeak(multiset(claims), starts, brute);
  }

  /** Contributions take something, from an instant of the timeline on. */
  lemma ContributionsBegin(s: State, resource: ResourceName)
    requires Healthy(s)
    ensures NonNegative(ClaimsOf(On(Expected(s), resource), Combined))
    ensures forall c :: c in ClaimsOf(On(Expected(s), resource), Combined) ==> HORIZON.Contains(c.interval.start)
  {
    hide Healthy, Expected, ClaimsOf;
    HealthyIndex(s);
    OnKeyed(Expected(s), resource);
    ClaimsWellformed(On(Expected(s), resource), Combined);
    forall k | k in On(Expected(s), resource) ensures HORIZON.Contains(On(Expected(s), resource)[k].interval.start) {
      ExpectedStarts(s, k);
    }
    ClaimsBegin(On(Expected(s), resource));
  }

  lemma ExpectedStarts(s: State, k: EntryKey)
    requires Healthy(s) && k in Expected(s)
    ensures HORIZON.Contains(Expected(s)[k].interval.start)
  {
    hide Modest, Expected, AllCurrent;
    ExpectedIs(s, k);
    if k.kind == Reservation {
      assert SoundRecord(s.ledger, s.CurrentRecord(k.id));
    } else {
      assert SoundHold(s.ledger, s.holds[k.id]);
    }
  }

  lemma {:induction false} ClaimsBegin(m: Contents)
    requires forall k :: k in m ==> HORIZON.Contains(m[k].interval.start)
    ensures forall c :: c in ClaimsOf(m, Combined) ==> HORIZON.Contains(c.interval.start)
    decreases |m|
  {
    if m != map[] {
      var k :| k in m;
      assert (m - {k}).Keys == m.Keys - {k};
      ClaimsSplit(m, k, Combined);
      ClaimsBegin(m - {k});
    }
  }

  /** Peaks of the same contents are the same. */
  lemma OnePeak(m: Contents, resource: ResourceName, a: int, b: int)
    requires PeakOn(m, resource, Combined, HORIZON, a) && PeakOn(m, resource, Combined, HORIZON, b)
    ensures a == b
  {
    hide ClaimsOf, Load;
    assert Clipped(HORIZON) == HORIZON;
  }
}

/** Resolving an overcommitment: which obligations are given up, in which order, and when enough is enough. */
module Resolution {
  import opened Timeline
  import opened Claims
  import opened SegmentTree
  import opened Entries
  import opened ResourceStates
  import opened CapacityIndexing
  import opened Records
  import opened FabricState
  import opened Steps
  import opened Lineage
  import opened Closure
  import opened RecordIndexing
  import opened Bounds
  import opened Deadlines
  import opened Effects
  import opened Admission
  import opened Commitments
  import opened Overcommitment
  import opened Refreshing

  /** Bound on the work of one resolution. */
  const REVOCATION_LIMIT := 4096

  lemma LimitIs()
    ensures REVOCATION_LIMIT == 4096
  {
  }

  // ---------------------------------------------------------------------------
  // What is owed on a resource
  // ---------------------------------------------------------------------------

  /** Bandwidth owed at an instant: indexed reservations, and obligations stranded at other generations. */
  ghost function Owed(s: State, m: Contents, resource: ResourceName, t: int): int {
    LoadOn(m, resource, Reserved, t) + LoadOn(Outstanding(s, resource), resource, Combined, t)
  }

  /** Some instant is owed more than the limit. */
  ghost predicate Overfull(s: State, m: Contents, resource: ResourceName, limit: int) {
    exists t :: HORIZON.Contains(t) && Owed(s, m, resource, t) > limit
  }

  /** All that is owed adds up to a representable total. */
  ghost predicate Payable(s: State, m: Contents, resource: ResourceName) {
    forall t :: HORIZON.Contains(t) ==> Owed(s, m, resource, t) <= SATURATION
  }

  /** The records an obligation on the resource may be given up of. */
  ghost predicate Obliged(s: State, m: Contents, resource: ResourceName, k: Key) {
    && k in s.records
    && (Stranded(s.ledger, s.records[k], resource) || IndexedAs(m, resource, k))
  }

  ghost predicate IndexedAs(m: Contents, resource: ResourceName, k: Key) {
    var e := EntryKey(Reservation, k.id, resource); e in m && m[e].generation == k.generation
  }

  /** The order in which obligations are given up: by guarantee, then identity, then generation. */
  predicate GivenUpBefore(s: State, a: Key, b: Key)
    requires a in s.records && b in s.records
  {
    var x, y := s.records[a].terms.guarantee, s.records[b].terms.guarantee;
    if x != y then x.Rank() < y.Rank() else if a.id != b.id then a.id < b.id else a.generation < b.generation
  }

  // ---------------------------------------------------------------------------
  // Claims of a list of candidates
  // ---------------------------------------------------------------------------

  /** What the candidates claim; one whose interval is empty claims nothing. */
  ghost function ListClaims(es: seq<IndexEntry>): multiset<Claim>
    decreases |es|
  {
    if es == [] then multiset{}
    else ListClaims(es[..|es| - 1]) + (if es[|es| - 1].interval.Empty() then multiset{}
                                       else multiset{es[|es| - 1].Claim()})
  }

  lemma ListMore(es: seq<IndexEntry>, e: IndexEntry)
    ensures ListClaims(es + [e]) == ListClaims(es) + (if e.interval.Empty() then multiset{} else multiset{e.Claim()})
  {
    assert (es + [e])[..|es|] == es;
  }

  lemma {:induction false} ListJoin(a: seq<IndexEntry>, b: seq<IndexEntry>)
    ensures ListClaims(a + b) == ListClaims(a) + ListClaims(b)
    decreases |b|
  {
    if b == [] {
      assert a + b == a;
    } else {
      var init, last := b[..|b| - 1], b[|b| - 1];
      assert a + b == (a + init) + [last] && b == init + [last];
      ListMore(a + init, last);
      ListMore(init, last);
      ListJoin(a, init);
    }
  }

  lemma {:induction false} ListPositive(es: seq<IndexEntry>)
    requires forall i :: 0 <= i < |es| ==> 0 < es[i].amount
    ensures NonNegative(ListClaims(es))
    decreases |es|
  {
    if es != [] {
      ListPositive(es[..|es| - 1]);
    }
  }

  lemma {:induction false} LoadJoin(a: multiset<Claim>, b: multiset<Claim>, t: int)
    ensures Load(a + b, t) == Load(a, t) + Load(b, t)
    decreases |b|
  {
    if b == multiset{} {
      assert a + b == a;
    } else {
      var c :| c in b;
      LoadJoin(a, b - multiset{c}, t);
      LoadSplit(b, c, t);
      assert a + b == (a + (b - multiset{c})) + multiset{c};
      LoadPlus(a + (b - multiset{c}), c, t);
    }
  }

  /** A prefix and the next candidate weigh no more than the whole list. */
  lemma PrefixWeighs(es: seq<IndexEntry>, i: nat, t: int)
    requires i < |es| && forall j :: 0 <= j < |es| ==> 0 < es[j].amount
    ensures es[i].interval.Contains(t) ==> Load(ListClaims(es[..i]), t) + es[i].amount <= Load(ListClaims(es), t)
  {
    if es[i].interval.Contains(t) {
      assert es == es[..i] + [es[i]] + es[i + 1..];
      ListJoin(es[..i] + [es[i]], es[i + 1..]);
      LoadJoin(ListClaims(es[..i] + [es[i]]), ListClaims(es[i + 1..]), t);
      ListMore(es[..i], es[i]);
      LoadPlus(ListClaims(es[..i]), es[i].Claim(), t);
      ListPositive(es[i + 1..]);
      LoadNonNegative(ListClaims(es[i + 1..]), t);
    }
  }

  /** The entries of a map, each listed once, claim what the map claims. */
  ghost predicate Lists(es: seq<IndexEntry>, m: Contents) {
    && (forall i :: 0 <= i < |es| ==> es[i].Key() in m && m[es[i].Key()] == es[i] && !es[i].interval.Empty())
    && (forall i, j :: 0 <= i < j < |es| ==> es[i].Key() != es[j].Key())
    && (forall k :: k in m ==> exists i :: 0 <= i < |es| && es[i].Key() == k)
  }

  lemma {:induction false} ListedClaims(es: seq<IndexEntry>, m: Contents)
    requires Lists(es, m)
    ensures ListClaims(es) == ClaimsOf(m, Combined)
    decreases |es|
  {
    if es == [] {
      assert m == map[];
    } else {
      var n := |es| - 1;
      var k := es[n].Key();
      ListsShorter(es, m);
      ListedClaims(es[..n], m - {k});
      ClaimsSplit(m, k, Combined);
    }
  }

  lemma ListsShorter(es: seq<IndexEntry>, m: Contents)
    requires Lists(es, m) && es != []
    ensures Lists(es[..|es| - 1], m - {es[|es| - 1].Key()})
  {
    var n := |es| - 1;
    forall x | x in m - {es[n].Key()} ensures exists i :: 0 <= i < n && es[..n][i].Key() == x {
      var i :| 0 <= i < |es| && es[i].Key() == x;
      assert es[..n][i] == es[i];
    }
  }

  // ---------------------------------------------------------------------------
  // Gathering the candidates
  // ---------------------------------------------------------------------------

  /** The reservations indexed on a resource. */
  function ReservedOn(m: Contents, resource: ResourceName): Contents {
    map k | k in m && k.resource == resource && k.kind == Reservation :: m[k]
  }

  function ReservedOf(m: Contents): Contents { map k | k in m && k.kind == Reservation :: m[k] }

  lemma ReservedWithout(m: Contents, k: EntryKey)
    requires k in m
    ensures ReservedOf(m - {k}) == if k.kind == Reservation then ReservedOf(m) - {k} else ReservedOf(m)
    ensures k.kind == Reservation ==> k in ReservedOf(m) && ReservedOf(m)[k] == m[k]
  {
  }

  lemma {:induction false} ReservedClaims(m: Contents)
    requires Keyed(m)
    ensures ClaimsOf(ReservedOf(m), Combined) == ClaimsOf(m, Reserved)
    decreases |m|
  {
    if m == map[] {
      assert ReservedOf(m) == map[];
    } else {
      var k :| k in m;
      KeyedWithoutKey(m, k);
      ReservedWithout(m, k);
      hide ReservedOf, ClaimsOf;
      ReservedClaims(m - {k});
      ClaimsSplit(m, k, Reserved);
      if k.kind == Reservation { ClaimsSplit(ReservedOf(m), k, Combined); }
    }
  }

  lemma KeyedWithoutKey(m: Contents, k: EntryKey)
    requires Keyed(m) && k in m
    ensures Keyed(m - {k}) && (m - {k}).Keys == m.Keys - {k} && m[k].kind == k.kind
  {
  }

  lemma ReservedOnClaims(m: Contents, resource: ResourceName)
    requires Keyed(m)
    ensures ClaimsOf(ReservedOn(m, resource), Combined) == ClaimsOf(On(m, resource), Reserved)
  {
    assert ReservedOn(m, resource) == ReservedOf(On(m, resource));
    ReservedClaims(On(m, resource));
  }

  /** Every reservation indexed shares an instant with the horizon. */
  ghost predicate OnHorizon(m: Contents) {
    forall k :: k in m && k.kind == Reservation ==> m[k].interval.Overlaps(HORIZON)
  }

  /** What a scan of so many of the resource's entries comes by: the reservations among those looked at. */
  ghost predicate Views(v: Contents, m: Contents, resource: ResourceName, scanLimit: nat) {
    exists looked :: Scans(looked, On(m, resource), HORIZON, scanLimit) && v == Viewed(m, resource, looked)
  }

  function Viewed(m: Contents, resource: ResourceName, looked: set<EntryKey>): Contents {
    map k | k in m && k in looked && k.resource == resource && k.kind == Reservation :: m[k]
  }

  /** Some reservations on the resource. */
  ghost predicate PartOn(v: Contents, m: Contents, resource: ResourceName) {
    forall k :: k in v ==> k in m && v[k] == m[k] && k.resource == resource && k.kind == Reservation
  }

  lemma ViewIsPart(v: Contents, m: Contents, resource: ResourceName, scanLimit: nat)
    requires Views(v, m, resource, scanLimit)
    ensures PartOn(v, m, resource) && ReservedOn(v, resource) == v && (Keyed(m) ==> Keyed(v))
    ensures forall s, k :: Obliged(s, v, resource, k) ==> Obliged(s, m, resource, k)
  {
    hide Scans, Stranded;
    forall s, k | Obliged(s, v, resource, k) ensures Obliged(s, m, resource, k) {
      assert IndexedAs(v, resource, k) ==> IndexedAs(m, resource, k);
    }
  }

  /** A scan within its limit comes by all of them. */
  lemma ViewsAll(v: Contents, m: Contents, resource: ResourceName, scanLimit: nat)
    requires Views(v, m, resource, scanLimit) && OnHorizon(m) && |On(m, resource)| <= scanLimit
    ensures v == ReservedOn(m, resource)
  {
    hide Scans, Sharing;
    var looked :| Scans(looked, On(m, resource), HORIZON, scanLimit) && v == Viewed(m, resource, looked);
    SharingWithinBegun(On(m, resource), HORIZON);
    ScansAll(looked, On(m, resource), HORIZON, scanLimit);
  }

  /** Seeing all of the resource's reservations is as good as seeing the index. */
  lemma AllInView(s: State, m: Contents, resource: ResourceName, limit: int)
    requires Keyed(m)
    ensures var v := ReservedOn(m, resource);
            && (Overfull(s, v, resource, limit) <==> Overfull(s, m, resource, limit))
            && forall k :: FirstObliged(s, v, resource, k) <==> FirstObliged(s, m, resource, k)
  {
    hide Stranded, ClaimsOf, Load, Outstanding, GivenUpBefore;
    var v := ReservedOn(m, resource);
    assert ReservedOn(v, resource) == v && Keyed(v);
    ReservedOnClaims(m, resource);
    ReservedOnClaims(v, resource);
    forall k ensures Obliged(s, v, resource, k) <==> Obliged(s, m, resource, k) {
    }
    forall t ensures Owed(s, v, resource, t) == Owed(s, m, resource, t) {
    }
    hide Owed, Obliged;
  }

  /** What is seen is no more than there is. */
  lemma ViewPayable(s: State, v: Contents, m: Contents, resource: ResourceName)
    requires Keyed(m) && PartOn(v, m, resource) && Payable(s, m, resource)
    ensures Payable(s, v, resource)
  {
    hide Outstanding, ClaimsOf, Load;
    OnKeyed(m, resource);
    forall t | HORIZON.Contains(t) ensures Owed(s, v, resource, t) <= SATURATION {
      assert Owed(s, m, resource, t) <= SATURATION;
      LoadDominated(On(v, resource), On(m, resource), Reserved, t);
    }
  }

  /** The reservations a scan of the resource comes by, each once. */
  method IndexedObligations(index: CapacityIndex, resource: ResourceName, scanLimit: nat)
    returns (es: seq<IndexEntry>, ghost v: Contents)
    requires index.Valid() && Keyed(index.contents) && OnHorizon(index.contents)
    ensures Views(v, index.contents, resource, scanLimit) && Lists(es, v)
  {
    hide CapacityIndex.Valid, Keyed, OnHorizon, Lists, Overlaps, AllOverlaps, Ordered, Foremost, Begun, Sharing, On,
         Scans, Shows, Viewed;
    ghost var m := index.contents;
    var overlaps, total, truncated, looked := index.Overlapping(resource, HORIZON, scanLimit, scanLimit);
    LookedMatch(looked, On(m, resource), HORIZON, scanLimit);
    es, v := [], Viewed(m, resource, looked);
    var i := 0;
    ghost var at: seq<nat> := [];
    while i < |overlaps|
      invariant i <= |overlaps| && |at| == |es|
      invariant forall j :: 0 <= j < |es| ==> at[j] < i && es[j] == overlaps[at[j]] && es[j].kind == Reservation
      invariant forall j, l :: 0 <= j < l < |at| ==> at[j] < at[l]
      invariant forall j :: 0 <= j < i && overlaps[j].kind == Reservation ==> overlaps[j] in es
    {
      if overlaps[i].kind == Reservation {
        es := es + [overlaps[i]];
        at := at + [i];
      }
      i := i + 1;
    }
    ReservationsListed(m, resource, overlaps, es, at, looked);
  }

  lemma ReservationsListed(m: Contents, resource: ResourceName, overlaps: seq<IndexEntry>, es: seq<IndexEntry>,
                           at: seq<nat>, looked: set<EntryKey>)
    requires Keyed(m) && OnHorizon(m) && Overlaps(overlaps, On(m, resource), HORIZON)
             && Shows(overlaps, looked, On(m, resource), HORIZON, true)
    requires |at| == |es| && forall j :: 0 <= j < |es| ==>
      at[j] < |overlaps| && es[j] == overlaps[at[j]] && es[j].kind == Reservation
    requires forall j, l :: 0 <= j < l < |at| ==> at[j] < at[l]
    requires forall j :: 0 <= j < |overlaps| && overlaps[j].kind == Reservation ==> overlaps[j] in es
    ensures Lists(es, Viewed(m, resource, looked))
  {
    var v := Viewed(m, resource, looked);
    forall k | k in v ensures exists i :: 0 <= i < |es| && es[i].Key() == k {
      assert k in On(m, resource) && m[k].Key() == k && m[k] in overlaps;
      var j :| 0 <= j < |overlaps| && overlaps[j] == m[k];
      var i :| 0 <= i < |es| && es[i] == overlaps[j];
    }
    forall i | 0 <= i < |es| ensures es[i].Key() in v && v[es[i].Key()] == es[i] && !es[i].interval.Empty() {
      assert es[i] in overlaps;
    }
  }

  /** One entry per stranded record bound to the resource, in key order. */
  method StrandedObligations(ledger: Ledger, records: map<Key, Record>, resource: ResourceName, ghost s: State)
    returns (es: seq<IndexEntry>)
    requires Healthy(s) && ledger == s.ledger && records == s.records
    ensures ListClaims(es) == ClaimsOf(Outstanding(s, resource), Combined)
    ensures forall i :: 0 <= i < |es| ==> StrandedEntry(s, resource, es[i])
    ensures forall k :: k in s.records && Stranded(s.ledger, s.records[k], resource) ==>
      s.records[k].Entry(resource) in es
  {
    hide Healthy, ListClaims, ClaimsOf, Outstanding, OutstandingAmong, Stranded, StrandedEntry, Record.Window,
         Record.Entry;
    es := [];
    var work := SortKeys(records.Keys);
    var i := 0;
    AmongAll(s, resource);
    NoClaims();
    NoList();
    assert KeysBefore(work, 0) == {};
    while i < |work|
      invariant i <= |work| && ListClaims(es) == ClaimsOf(OutstandingAmong(s, resource, KeysBefore(work, i)), Combined)
      invariant forall j :: 0 <= j < |es| ==> StrandedEntry(s, resource, es[j])
      invariant forall j :: 0 <= j < i && Stranded(ledger, records[work[j]], resource) ==>
        records[work[j]].Entry(resource) in es
    {
      assert work[i] in work;
      BeforeNext(work, i);
      var r := records[work[i]];
      var stale := AnyStale(ledger, r, resource);
      StrandedNext(s, resource, KeysBefore(work, i), work[i], es);
      if stale { es := es + [r.Entry(resource)]; }
      i := i + 1;
    }
    BeforeAll(work, records.Keys);
    AmongAll(s, resource);
    forall k | k in s.records && Stranded(s.ledger, s.records[k], resource) ensures s.records[k].Entry(resource) in es {
      assert k in work;
    }
  }

  /** The entry of a stranded record. */
  ghost predicate StrandedEntry(s: State, resource: ResourceName, e: IndexEntry) {
    var k := Key(e.id, e.generation);
    k in s.records && Stranded(s.ledger, s.records[k], resource) && e == s.records[k].Entry(resource)
  }

  lemma NoList()
    ensures ListClaims([]) == multiset{}
  {
  }

  lemma StrandedNext(s: State, resource: ResourceName, keys: set<Key>, key: Key, es: seq<IndexEntry>)
    requires Healthy(s) && key in s.records && key !in keys
    requires ListClaims(es) == ClaimsOf(OutstandingAmong(s, resource, keys), Combined)
    ensures var r := s.records[key];
    var es' := if Stranded(s.ledger, r, resource) then es + [r.Entry(resource)] else es;
            && ListClaims(es') == ClaimsOf(OutstandingAmong(s, resource, keys + {key}), Combined)
            && (Stranded(s.ledger, r, resource) ==> StrandedEntry(s, resource, r.Entry(resource)))
  {
    hide Healthy, ListClaims, ClaimsOf, Outstanding, OutstandingAmong, Stranded, Record.Window;
    var r := s.records[key];
    HealthyRecord(s, key);
    OutstandingNext(s, resource, keys, key);
    if Stranded(s.ledger, r, resource) {
      ListMore(es, r.Entry(resource));
      if !r.Window().Empty() { ClaimsPlus(OutstandingAmong(s, resource, keys), r.Entry(resource), Combined); }
    }
  }

  /** What all candidates together would put on the resource, summed in an accumulator of its own. */
  method ListPeak(es: seq<IndexEntry>) returns (peak: int)
    requires forall i :: 0 <= i < |es| ==> 0 < es[i].amount
    requires forall t :: HORIZON.Contains(t) ==> Load(ListClaims(es), t) <= SATURATION
    ensures IsPeak(ListClaims(es), HORIZON, peak)
  {
    hide IntervalCapacityIndex.Valid, Load, ListClaims;
    var effective := new IntervalCapacityIndex();
    NoList();
    var i := 0;
    assert es[..0] == [];
    while i < |es|
      invariant i <= |es| && fresh(effective) && effective.Valid() && effective.claims == ListClaims(es[..i])
    {
      assert es[..i + 1] == es[..i] + [es[i]];
      ListMore(es[..i], es[i]);
      forall t | es[i].interval.Contains(t) && HORIZON.Contains(t)
          ensures Load(ListClaims(es[..i]), t) + es[i].amount <= SATURATION {
        PrefixWeighs(es, i, t);
      }
      if !es[i].interval.Empty() { effective.Add(es[i].interval, es[i].amount); }
      i := i + 1;
    }
    assert es[..i] == es;
    peak := effective.Peak(HORIZON);
    assert Clipped(HORIZON) == HORIZON;
  }

  // ---------------------------------------------------------------------------
  // The next to be given up
  // ---------------------------------------------------------------------------

  /** An indexed reservation is its authoritative record's. */
  lemma IndexedIsRecord(m: Contents, s: State, under: Ledgers, behind: set<Identity>, e: EntryKey)
    requires Healthy(s) && InMix(m, s, under, behind) && e in m && e.kind == Reservation
    ensures var k := Key(e.id, m[e].generation);
            && k in s.records && s.records[k].Consumes() && m[e] == s.records[k].Entry(e.resource)
            && k.id in s.current && s.current[k.id] == k.generation && m[e].Key() == e
  {
    hide Healthy, AllCurrent, Record.Window, InMix;
    MixAnswers(s, m, under, behind, e);
    var k := Key(e.id, s.current[e.id]);
    HealthyRecord(s, k);
  }

  lemma MixOnHorizon(m: Contents, s: State, under: Ledgers, behind: set<Identity>)
    requires Healthy(s) && InMix(m, s, under, behind)
    ensures OnHorizon(m)
  {
    hide Healthy, InMix;
    forall k | k in m && k.kind == Reservation ensures m[k].interval.Overlaps(HORIZON) {
      IndexedIsRecord(m, s, under, behind, k);
      WindowOnHorizon(s, Key(k.id, m[k].generation));
      MixNonempty(m, s, under, behind, k);
    }
  }

  lemma WindowOnHorizon(s: State, k: Key)
    requires Healthy(s) && k in s.records
    ensures var w := s.records[k].Window(); 0 <= w.start < MAX_TIMESTAMP_NS && w.end <= MAX_TIMESTAMP_NS
  {
    hide Healthy;
    HealthyRecord(s, k);
  }

  lemma MixNonempty(m: Contents, s: State, under: Ledgers, behind: set<Identity>, k: EntryKey)
    requires InMix(m, s, under, behind) && k in m && k.kind == Reservation
    ensures !m[k].interval.Empty()
  {
    hide InMix, AllCurrent, Record.Window;
    MixAnswers(s, m, under, behind, k);
  }

  /** A candidate stands for an obligation, under its own key and class. */
  ghost predicate StandsFor(s: State, m: Contents, resource: ResourceName, e: IndexEntry) {
    var k := Key(e.id, e.generation);
    Obliged(s, m, resource, k) && e.guarantee == s.records[k].terms.guarantee && e.amount == s.records[k].terms.amount
  }

  lemma CandidatesStand(s: State, m: Contents, under: Ledgers, behind: set<Identity>, resource: ResourceName,
                        v: Contents, a: seq<IndexEntry>, b: seq<IndexEntry>)
    requires Healthy(s) && InMix(m, s, under, behind) && PartOn(v, m, resource) && Lists(a, v)
    requires forall i :: 0 <= i < |b| ==> StrandedEntry(s, resource, b[i])
    requires forall k :: k in s.records && Stranded(s.ledger, s.records[k], resource) ==>
      s.records[k].Entry(resource) in b
    ensures forall i :: 0 <= i < |a + b| ==> StandsFor(s, v, resource, (a + b)[i]) && 0 < (a + b)[i].amount
    ensures forall k :: Obliged(s, v, resource, k) ==>
      exists i :: 0 <= i < |a + b| && Key((a + b)[i].id, (a + b)[i].generation) == k
  {
    hide Healthy, InMix, Stranded, Record.Window;
    var es := a + b;
    forall i | 0 <= i < |es| ensures StandsFor(s, v, resource, es[i]) && 0 < es[i].amount {
      if i < |a| {
        assert es[i] == a[i];
        IndexedIsRecord(m, s, under, behind, a[i].Key());
        HealthyRecord(s, Key(a[i].id, a[i].generation));
      } else {
        assert es[i] == b[i - |a|];
        HealthyRecord(s, Key(es[i].id, es[i].generation));
      }
    }
    forall k | Obliged(s, v, resource, k) ensures exists i :: 0 <= i < |es| && Key(es[i].id, es[i].generation) == k {
      if Stranded(s.ledger, s.records[k], resource) {
        var i :| 0 <= i < |b| && b[i] == s.records[k].Entry(resource);
        HealthyRecord(s, k);
        assert es[|a| + i] == b[i];
      } else {
        var e := EntryKey(Reservation, k.id, resource);
        assert e in v;
        var i :| 0 <= i < |a| && a[i].Key() == e;
        assert es[i] == a[i];
      }
    }
  }

  /** What the candidates claim is what is owed. */
  lemma ListOwed(s: State, m: Contents, resource: ResourceName, a: seq<IndexEntry>, b: seq<IndexEntry>, t: int)
    requires Keyed(m) && Lists(a, m) && ReservedOn(m, resource) == m
    requires ListClaims(b) == ClaimsOf(Outstanding(s, resource), Combined)
    ensures Load(ListClaims(a + b), t) == Owed(s, m, resource, t)
  {
    hide Lists, ListClaims, ClaimsOf, Load, Outstanding;
    ListJoin(a, b);
    ListedClaims(a, m);
    ReservedOnClaims(m, resource);
    LoadJoin(ListClaims(a), ListClaims(b), t);
    OutstandingOn(s, resource);
  }

  /** Nobody obliged on the resource comes before this one. */
  ghost predicate FirstObliged(s: State, m: Contents, resource: ResourceName, k: Key) {
    Obliged(s, m, resource, k) && forall x :: Obliged(s, m, resource, x) ==> !GivenUpBefore(s, x, k)
  }

  /** While something that is seen is owed beyond the ceiling, the obligation that is to be given up next. */
  method NextVictim(index: CapacityIndex, ledger: Ledger, records: map<Key, Record>, resource: ResourceName,
                    scanLimit: nat, ghost s: State, ghost under: Ledgers, ghost behind: set<Identity>)
    returns (victim: Option<Key>, ghost v: Contents)
    requires index.Valid() && Healthy(s) && InMix(index.contents, s, under, behind) && ledger == s.ledger
             && records == s.records
    requires resource in ledger && Payable(s, index.contents, resource)
    ensures Views(v, index.contents, resource, scanLimit)
    ensures victim.None? ==> !Overfull(s, v, resource, CeilingOf(ledger, resource))
    ensures victim.Some? ==>
      Overfull(s, v, resource, CeilingOf(ledger, resource)) && FirstObliged(s, v, resource, victim.value)
  {
    hide CapacityIndex.Valid, Healthy, InMix, Lists, ListClaims, ClaimsOf, Load, Outstanding, Stranded, StrandedEntry,
         StandsFor, Owed, Obliged, Ranked, Views, PartOn;
    ghost var m := index.contents;
    MixRepresentable(s, m, under, behind);
    MixOnHorizon(m, s, under, behind);
    var indexed, seen := IndexedObligations(index, resource, scanLimit);
    v := seen;
    ViewIsPart(v, m, resource, scanLimit);
    ViewPayable(s, v, m, resource);
    var stranded := StrandedObligations(ledger, records, resource, s);
    var candidates := indexed + stranded;
    CandidatesStand(s, m, under, behind, resource, v, indexed, stranded);
    forall t ensures Load(ListClaims(candidates), t) == Owed(s, v, resource, t) {
      ListOwed(s, v, resource, indexed, stranded, t);
    }
    if candidates == [] {
      NothingOwed(s, v, resource, candidates);
      return None, v;
    }
    var peak := ListPeak(candidates);
    PeakOwed(s, v, resource, candidates, peak, CeilingOf(ledger, resource));
    if peak <= CeilingOf(ledger, resource) { return None, v; }
    var ranked := Rank(candidates);
    FirstRanked(s, v, resource, candidates, ranked);
    return Some(Key(ranked[0].id, ranked[0].generation)), v;
  }

  lemma NothingOwed(s: State, m: Contents, resource: ResourceName, es: seq<IndexEntry>)
    requires es == [] && resource in s.ledger && forall t :: Load(ListClaims(es), t) == Owed(s, m, resource, t)
    ensures !Overfull(s, m, resource, CeilingOf(s.ledger, resource))
  {
    hide Owed;
    forall t ensures Owed(s, m, resource, t) <= CeilingOf(s.ledger, resource) {
      assert Load(ListClaims(es), t) == 0;
    }
  }

  lemma PeakOwed(s: State, m: Contents, resource: ResourceName, es: seq<IndexEntry>, peak: int, limit: int)
    requires IsPeak(ListClaims(es), HORIZON, peak) && forall t :: Load(ListClaims(es), t) == Owed(s, m, resource, t)
    ensures Overfull(s, m, resource, limit) <==> peak > limit
  {
    hide Owed, Load, ListClaims;
    var t :| HORIZON.Contains(t) && Load(ListClaims(es), t) == peak;
    assert Owed(s, m, resource, t) == peak;
  }

  lemma FirstRanked(s: State, m: Contents, resource: ResourceName, es: seq<IndexEntry>, ranked: seq<IndexEntry>)
    requires es != [] && Ranked(ranked) && multiset(ranked) == multiset(es)
    requires forall i :: 0 <= i < |es| ==> StandsFor(s, m, resource, es[i])
    requires forall k :: Obliged(s, m, resource, k) ==>
      exists i :: 0 <= i < |es| && Key(es[i].id, es[i].generation) == k
    ensures ranked != [] && FirstObliged(s, m, resource, Key(ranked[0].id, ranked[0].generation))
  {
    hide Stranded, IndexedAs;
    assert |multiset(ranked)| == |multiset(es)|;
    var first := ranked[0];
    assert first in multiset(ranked) && first in es;
    forall x | Obliged(s, m, resource, x) ensures !GivenUpBefore(s, x, Key(first.id, first.generation)) {
      var i :| 0 <= i < |es| && Key(es[i].id, es[i].generation) == x;
      assert es[i] in multiset(ranked);
      var j :| 0 <= j < |ranked| && ranked[j] == es[i];
      if j > 0 { assert !Sooner(ranked[j], ranked[0]); }
    }
  }

  // ---------------------------------------------------------------------------
  // Giving up one after the other
  // ---------------------------------------------------------------------------

  /** The state and the index once some records are revoked. */
  ghost predicate OverfullAfter(s: State, m: Contents, resource: ResourceName, limit: int, revoked: seq<Key>)
    requires Known(s, revoked)
  {
    Overfull(RevokedAll(s, revoked), Lacking(m, IdsOfKeys(revoked)), resource, limit)
  }

  /** The revoked are the first in line, in order. */
  ghost predicate InLine(s: State, m: Contents, resource: ResourceName, revoked: seq<Key>)
    requires Known(s, revoked)
  {
    && (forall i :: 0 <= i < |revoked| ==> Obliged(s, m, resource, revoked[i]))
    && (forall i, j :: 0 <= i < j < |revoked| ==> GivenUpBefore(s, revoked[i], revoked[j]))
    && (forall k, i :: Obliged(s, m, resource, k) && k !in revoked && 0 <= i < |revoked| ==>
        GivenUpBefore(s, revoked[i], k))
  }

  /** The revoked are the first in line, each revoked because those before it were not enough. */
  ghost predicate GivesUp(s: State, m: Contents, resource: ResourceName, limit: int, revoked: seq<Key>) {
    && Known(s, revoked) && InLine(s, m, resource, revoked)
    && (forall i :: 0 <= i < |revoked| ==> Known(s, revoked[..i]) && OverfullAfter(s, m, resource, limit, revoked[..i]))
  }

  /** The obligations still standing are those not yet given up. */
  ghost predicate StillObliged(s: State, m: Contents, s': State, m': Contents, resource: ResourceName,
                               revoked: seq<Key>)
  {
    forall k :: Obliged(s', m', resource, k) <==> Obliged(s, m, resource, k) && k !in revoked
  }

  lemma GivesUpMore(s: State, m: Contents, resource: ResourceName, limit: int, revoked: seq<Key>, k: Key, s1: State,
                    m1: Contents)
    requires GivesUp(s, m, resource, limit, revoked) && StillObliged(s, m, s1, m1, resource, revoked)
    requires s1.records == RevokedAll(s, revoked).records && FirstObliged(s1, m1, resource, k)
    requires OverfullAfter(s, m, resource, limit, revoked)
    ensures GivesUp(s, m, resource, limit, revoked + [k])
  {
    hide Obliged, RevokedAll, OverfullAfter, GivenUpBefore, FirstObliged, StillObliged, InLine;
    NextInLine(s, m, resource, revoked, k, s1, m1);
    LineGrows(s, m, resource, revoked, k);
    PrefixesOverfull(s, m, resource, limit, revoked, k);
  }

  lemma LineGrows(s: State, m: Contents, resource: ResourceName, revoked: seq<Key>, k: Key)
    requires Known(s, revoked) && InLine(s, m, resource, revoked) && Obliged(s, m, resource, k) && k !in revoked
    requires forall x :: Obliged(s, m, resource, x) && x !in revoked && x != k ==> GivenUpBefore(s, k, x)
    ensures Known(s, revoked + [k]) && InLine(s, m, resource, revoked + [k])
  {
    hide Stranded, IndexedAs, GivenUpBefore;
    var more := revoked + [k];
    forall x, i | Obliged(s, m, resource, x) && x !in more && 0 <= i < |more| ensures GivenUpBefore(s, more[i], x) {
      NotIn(revoked, k, x);
    }
  }

  lemma PrefixesOverfull(s: State, m: Contents, resource: ResourceName, limit: int, revoked: seq<Key>, k: Key)
    requires Known(s, revoked) && OverfullAfter(s, m, resource, limit, revoked)
    requires forall i :: 0 <= i < |revoked| ==>
      Known(s, revoked[..i]) && OverfullAfter(s, m, resource, limit, revoked[..i])
    ensures var more := revoked + [k];
            forall i :: 0 <= i < |more| ==> Known(s, more[..i]) && OverfullAfter(s, m, resource, limit, more[..i])
  {
    hide OverfullAfter, Known;
    var more := revoked + [k];
    forall i | 0 <= i < |more| ensures Known(s, more[..i]) && OverfullAfter(s, m, resource, limit, more[..i]) {
      assert more[..i] == if i < |revoked| then revoked[..i] else revoked;
    }
  }

  /** The first still obliged comes after those already revoked and before everybody else. */
  lemma NextInLine(s: State, m: Contents, resource: ResourceName, revoked: seq<Key>, k: Key, s1: State, m1: Contents)
    requires Known(s, revoked) && StillObliged(s, m, s1, m1, resource, revoked)
    requires s1.records == RevokedAll(s, revoked).records && FirstObliged(s1, m1, resource, k)
    ensures Obliged(s, m, resource, k) && k !in revoked
    ensures forall x :: Obliged(s, m, resource, x) && x !in revoked && x != k ==> GivenUpBefore(s, k, x)
  {
    RevokedAllKeeps(s, revoked);
    hide Stranded, IndexedAs, RevokedAll;
    forall x | Obliged(s, m, resource, x) && x !in revoked && x != k ensures GivenUpBefore(s, k, x) {
      assert Obliged(s1, m1, resource, x) && !GivenUpBefore(s1, x, k);
      ClassOrder(s.records[x].terms.guarantee, s.records[k].terms.guarantee);
    }
  }

  lemma ClassOrder(a: GuaranteeClass, b: GuaranteeClass)
    ensures a != b ==> a.Rank() < b.Rank() || b.Rank() < a.Rank()
  {
  }

  lemma NotIn(revoked: seq<Key>, k: Key, x: Key)
    requires x !in revoked + [k]
    ensures x !in revoked && x != k
  {
    assert (revoked + [k])[|revoked|] == k;
    forall i | 0 <= i < |revoked| ensures revoked[i] != x {
      assert (revoked + [k])[i] == revoked[i];
    }
  }

  /** One more revocation: the record and its entries are gone, everything else stays owed. */
  lemma OneGivenUp(m: Contents, s: State, m': Contents, s': State, under: Ledgers, behind: set<Identity>, k: Key)
    requires Healthy(s) && InMix(m, s, under, behind) && InMix(m', s', under, behind - {k.id})
    requires k in s.records && k.id in s.current && s.current[k.id] == k.generation
    requires OnlyRecords(s, s') && s'.records == s.records[k := s.records[k].(state := Revoked)]
    ensures m' == Without(m, Reservation, k.id)
    ensures forall resource, x :: Obliged(s', m', resource, x) <==> Obliged(s, m, resource, x) && x != k
  {
    hide Healthy, InMix;
    forall e ensures (e in m' <==> e in Without(m, Reservation, k.id)) && (e in m' ==> m'[e] == m[e]) {
      MixAnswers(s, m, under, behind, e);
      MixAnswers(s', m', under, behind - {k.id}, e);
      GivenUpWanted(s, s', under, behind, k, e);
    }
    forall resource, x ensures Obliged(s', m', resource, x) <==> Obliged(s, m, resource, x) && x != k {
      var e := EntryKey(Reservation, x.id, resource);
      if x.id == k.id {
        if x in s.records { HealthyRecord(s, x); }
        if e in m { IndexedIsRecord(m, s, under, behind, e); }
      }
      hide AllCurrent;
    }
  }

  lemma GivenUpWanted(s: State, s': State, under: Ledgers, behind: set<Identity>, k: Key, e: EntryKey)
    requires k in s.records && k.id in s.current && s.current[k.id] == k.generation
    requires OnlyRecords(s, s') && s'.records == s.records[k := s.records[k].(state := Revoked)]
    ensures WantedIn(s', under, behind - {k.id}, e)
            == if e.kind == Reservation && e.id == k.id then None else WantedIn(s, under, behind, e)
  {
    hide AllCurrent, Record.Window;
  }

  lemma NoneGivenUp(s: State, m: Contents, resource: ResourceName, limit: int)
    ensures GivesUp(s, m, resource, limit, []) && StillObliged(s, m, s, m, resource, []) && RevokedAll(s, []) == s
    ensures Known(s, [])
    ensures Lacking(m, IdsOfKeys([])) == m
  {
    assert IdsOfKeys([]) == {};
  }

  /** Once some are revoked, a scan still sees more owed than the limit, and this one first in line. */
  ghost predicate NextSeen(s: State, m: Contents, resource: ResourceName, limit: int, scanLimit: nat, revoked: seq<Key>,
                           k: Key)
  {
    && Known(s, revoked)
    && exists v :: Views(v, Lacking(m, IdsOfKeys(revoked)), resource, scanLimit)
                   && Overfull(RevokedAll(s, revoked), v, resource, limit)
                   && FirstObliged(RevokedAll(s, revoked), v, resource, k)
  }

  /** Each was the next a scan saw. */
  ghost predicate InTurn(s: State, m: Contents, resource: ResourceName, limit: int, scanLimit: nat, revoked: seq<Key>) {
    forall i :: 0 <= i < |revoked| ==> NextSeen(s, m, resource, limit, scanLimit, revoked[..i], revoked[i])
  }

  /** A scan sees no more owed than the limit. */
  ghost predicate SeesEnough(s: State, m: Contents, resource: ResourceName, limit: int, scanLimit: nat) {
    exists v :: Views(v, m, resource, scanLimit) && !Overfull(s, v, resource, limit)
  }

  /** What holds while obligations are being given up. */
  ghost predicate GivingUp(s: State, m: Contents, s': State, m': Contents, resource: ResourceName, limit: int,
                           scanLimit: nat, revoked: seq<Key>)
  {
    && Known(s, revoked) && StillObliged(s, m, s', m', resource, revoked)
    && s' == RevokedAll(s, revoked).(journal := s'.journal) && m' == Lacking(m, IdsOfKeys(revoked))
    && InTurn(s, m, resource, limit, scanLimit, revoked)
    && (|On(m, resource)| <= scanLimit ==> GivesUp(s, m, resource, limit, revoked))
  }

  /** What is owed, and to whom first, does not depend on the journal. */
  lemma JournalAside(s: State, s': State, v: Contents, resource: ResourceName, limit: int)
    requires s' == s.(journal := s'.journal)
    ensures Overfull(s', v, resource, limit) <==> Overfull(s, v, resource, limit)
    ensures forall k :: FirstObliged(s', v, resource, k) <==> FirstObliged(s, v, resource, k)
  {
    hide Stranded;
    OutstandingSame(s, s', resource);
    forall t ensures Owed(s', v, resource, t) == Owed(s, v, resource, t) {
      hide LoadOn, Outstanding;
    }
    hide Owed;
    forall k ensures Obliged(s', v, resource, k) <==> Obliged(s, v, resource, k) {
    }
    hide Obliged;
  }

  /** What is outstanding does not depend on the journal. */
  lemma OutstandingSame(s: State, s': State, resource: ResourceName)
    requires s' == s.(journal := s'.journal)
    ensures Outstanding(s', resource) == Outstanding(s, resource)
  {
    hide Stranded, Record.Window, Record.Entry;
  }

  /** One more step of giving up. */
  lemma GivingUpMore(s: State, m: Contents, s1: State, m1: Contents, s2: State, m2: Contents, resource: ResourceName,
                     limit: int, scanLimit: nat, revoked: seq<Key>, k: Key, v: Contents)
    requires GivingUp(s, m, s1, m1, resource, limit, scanLimit, revoked) && Keyed(m1) && OnHorizon(m1)
    requires Views(v, m1, resource, scanLimit) && Overfull(s1, v, resource, limit) && FirstObliged(s1, v, resource, k)
    requires k in s1.records && OnlyRecords(s1, s2) && s2.records == s1.records[k := s1.records[k].(state := Revoked)]
    requires m2 == Without(m1, Reservation, k.id)
    requires forall x :: Obliged(s2, m2, resource, x) <==> Obliged(s1, m1, resource, x) && x != k
    ensures GivingUp(s, m, s2, m2, resource, limit, scanLimit, revoked + [k])
  {
    hide GivesUp, RevokedAll, Lacking, IdsOfKeys, Overfull, FirstObliged, Obliged, Without, On, Keyed, OnHorizon, Views,
         InTurn;
    JournalAside(RevokedAll(s, revoked), s1, v, resource, limit);
    TurnMore(s, m, resource, limit, scanLimit, revoked, k);
    if |On(m, resource)| <= scanLimit {
      LackingFits(m, IdsOfKeys(revoked), resource);
      ViewsAll(v, m1, resource, scanLimit);
      AllInView(s1, m1, resource, limit);
      JournalAside(RevokedAll(s, revoked), s1, m1, resource, limit);
      GivesUpMore(s, m, resource, limit, revoked, k, s1, m1);
    }
    RevokedOneMore(s, revoked, k, s1, s2);
    LackingOneMore(m, revoked, k);
    forall x ensures x !in revoked + [k] <==> x !in revoked && x != k {
      if x !in revoked + [k] { NotIn(revoked, k, x); }
    }
  }

  lemma TurnMore(s: State, m: Contents, resource: ResourceName, limit: int, scanLimit: nat, revoked: seq<Key>, k: Key)
    requires InTurn(s, m, resource, limit, scanLimit, revoked) && NextSeen(s, m, resource, limit, scanLimit, revoked, k)
    ensures InTurn(s, m, resource, limit, scanLimit, revoked + [k])
  {
    hide NextSeen;
    var more := revoked + [k];
    forall i | 0 <= i < |more| ensures NextSeen(s, m, resource, limit, scanLimit, more[..i], more[i]) {
      assert more[..i] == if i < |revoked| then revoked[..i] else revoked;
    }
  }

  lemma LackingFits(m: Contents, ids: set<Identity>, resource: ResourceName)
    ensures |On(Lacking(m, ids), resource)| <= |On(m, resource)|
  {
    SmallerMap(On(Lacking(m, ids), resource), On(m, resource));
  }

  lemma RevokedOneMore(s: State, revoked: seq<Key>, k: Key, s1: State, s2: State)
    requires Known(s, revoked) && s1 == RevokedAll(s, revoked).(journal := s1.journal)
    requires k in s1.records && OnlyRecords(s1, s2) && s2.records == s1.records[k := s1.records[k].(state := Revoked)]
    ensures Known(s, revoked + [k]) && s2 == RevokedAll(s, revoked + [k]).(journal := s2.journal)
  {
    hide RevokedAll;
    RevokedAllKeeps(s, revoked);
    RevokedMore(s, revoked, k);
    RevokedAllKeeps(s, revoked + [k]);
    var a, b := RevokedAll(s, revoked), RevokedAll(s, revoked + [k]);
    assert b.records == a.records[k := a.records[k].(state := Revoked)];
  }

  lemma LackingOneMore(m: Contents, revoked: seq<Key>, k: Key)
    ensures Without(Lacking(m, IdsOfKeys(revoked)), Reservation, k.id) == Lacking(m, IdsOfKeys(revoked + [k]))
  {
    var more := revoked + [k];
    forall id ensures id in IdsOfKeys(more) <==> id in IdsOfKeys(revoked) || id == k.id {
      if id in IdsOfKeys(revoked) {
        var i :| 0 <= i < |revoked| && revoked[i].id == id;
        assert more[i].id == id;
      }
      if id == k.id { assert more[|revoked|].id == id; }
    }
    hide IdsOfKeys;
  }

  /** Giving up owes no more than before. */
  lemma GivingUpEases(m: Contents, s: State, m': Contents, s': State, k: Key, resource: ResourceName)
    requires Healthy(s) && Keyed(m) && Payable(s, m, resource) && m' == Without(m, Reservation, k.id)
    requires k in s.records && OnlyRecords(s, s') && s'.records == s.records[k := s.records[k].(state := Revoked)]
    ensures Payable(s', m', resource)
  {
    hide Healthy, LoadOn, Outstanding, Keyed;
    OutstandingKeyed(s, resource);
    forall t | HORIZON.Contains(t) ensures Owed(s', m', resource, t) <= SATURATION {
      assert Owed(s, m, resource, t) <= SATURATION;
      EasedIndex(m, k.id, resource, t);
      EasedOutstanding(s, s', k, resource, t);
    }
  }

  lemma SmallerMap(a: Contents, b: Contents)
    requires a.Keys <= b.Keys
    ensures |a| <= |b|
  {
    SmallerSet(a.Keys, b.Keys);
  }

  lemma SmallerSet<T>(a: set<T>, b: set<T>)
    requires a <= b
    ensures |a| <= |b|
  {
    assert b == a + (b - a);
  }

  lemma EasedIndex(m: Contents, id: Identity, resource: ResourceName, t: int)
    requires Keyed(m)
    ensures LoadOn(Without(m, Reservation, id), resource, Reserved, t) <= LoadOn(m, resource, Reserved, t)
  {
    var a, b := On(Without(m, Reservation, id), resource), On(m, resource);
    OnKeyed(m, resource);
    LoadDominated(a, b, Reserved, t);
  }

  lemma EasedOutstanding(s: State, s': State, k: Key, resource: ResourceName, t: int)
    requires Keyed(Outstanding(s, resource)) && k in s.records
    requires OnlyRecords(s, s') && s'.records == s.records[k := s.records[k].(state := Revoked)]
    ensures LoadOn(Outstanding(s', resource), resource, Combined, t)
            <= LoadOn(Outstanding(s, resource), resource, Combined, t)
  {
    hide Outstanding, Load, ClaimsOf;
    var a, b := On(Outstanding(s', resource), resource), On(Outstanding(s, resource), resource);
    OnKeyed(Outstanding(s, resource), resource);
    forall e | e in a ensures e in b && a[e] == b[e] {
      EasedEntry(s, s', k, resource, e);
    }
    LoadDominated(a, b, Combined, t);
  }

  lemma EasedEntry(s: State, s': State, k: Key, resource: ResourceName, e: EntryKey)
    requires k in s.records && e in Outstanding(s', resource)
    requires OnlyRecords(s, s') && s'.records == s.records[k := s.records[k].(state := Revoked)]
    ensures e in Outstanding(s, resource) && Outstanding(s', resource)[e] == Outstanding(s, resource)[e]
  {
    hide AllCurrent, Record.Window, KeysInPlay;
    OutstandingIs(s', resource, e.id);
    OutstandingIs(s, resource, e.id);
    OutstandingShape(s', resource, e);
    hide Outstanding;
  }

  // ---------------------------------------------------------------------------
  // Fewer and fewer
  // ---------------------------------------------------------------------------

  function ConsumingKeys(records: map<Key, Record>): set<Key> { set k | k in records && records[k].Consumes() }

  lemma FewerConsume(records: map<Key, Record>, k: Key)
    requires k in records && records[k].Consumes()
    ensures ConsumingKeys(records[k := records[k].(state := Revoked)]) < ConsumingKeys(records)
  {
    assert k in ConsumingKeys(records);
    assert k !in ConsumingKeys(records[k := records[k].(state := Revoked)]);
  }

  lemma FirstConsumes(s: State, m: Contents, under: Ledgers, behind: set<Identity>, resource: ResourceName, k: Key)
    requires Healthy(s) && InMix(m, s, under, behind) && Obliged(s, m, resource, k)
    ensures k in s.records && s.records[k].Consumes()
  {
    hide Healthy, InMix, AllCurrent, Record.Window;
    if !Stranded(s.ledger, s.records[k], resource) {
      IndexedIsRecord(m, s, under, behind, EntryKey(Reservation, k.id, resource));
    }
  }

  lemma OnlyRecordsLedger(s: State, s': State)
    requires OnlyRecords(s, s')
    ensures s'.ledger == s.ledger
  {
  }

  lemma GivingUpParts(s: State, m: Contents, s': State, m': Contents, resource: ResourceName, limit: int,
                      scanLimit: nat, revoked: seq<Key>)
    requires GivingUp(s, m, s', m', resource, limit, scanLimit, revoked) && Keyed(m') && OnHorizon(m')
    ensures Known(s, revoked) && s' == RevokedAll(s, revoked).(journal := s'.journal)
    ensures s'.overcommitted == s.overcommitted && InTurn(s, m, resource, limit, scanLimit, revoked)
    ensures |On(m, resource)| <= scanLimit ==> GivesUp(s, m, resource, limit, revoked)
    ensures SeesEnough(s', m', resource, limit, scanLimit) ==>
      && SeesEnough(RevokedAll(s, revoked), Lacking(m, IdsOfKeys(revoked)), resource, limit, scanLimit)
      && (|On(m, resource)| <= scanLimit ==> !OverfullAfter(s, m, resource, limit, revoked))
  {
    hide GivesUp, StillObliged, RevokedAll, Overfull, Lacking, InTurn, Views, IdsOfKeys, On, Keyed, OnHorizon;
    RevokedAllKeeps(s, revoked);
    if SeesEnough(s', m', resource, limit, scanLimit) {
      var v :| Views(v, m', resource, scanLimit) && !Overfull(s', v, resource, limit);
      JournalAside(RevokedAll(s, revoked), s', v, resource, limit);
      if |On(m, resource)| <= scanLimit {
        LackingFits(m, IdsOfKeys(revoked), resource);
        ViewsAll(v, m', resource, scanLimit);
        AllInView(s', m', resource, limit);
        JournalAside(RevokedAll(s, revoked), s', m', resource, limit);
      }
    }
  }

  /** While nobody is behind, what is owed is within what is bound, so it is always payable. */
  lemma PayableAtRest(s: State, m: Contents, under: Ledgers, resource: ResourceName)
    requires Healthy(s) && InMix(m, s, under, {})
    ensures Payable(s, m, resource)
  {
    hide Healthy, InMix, LoadOn, Outstanding;
    MixRepresentable(s, m, under, {});
    OutstandingKeyed(s, resource);
    forall t | HORIZON.Contains(t) ensures Owed(s, m, resource, t) <= SATURATION {
      OwedWithinDemand(s, m, under, resource, t);
      DemandBounded(s, resource, t);
    }
  }

  lemma DemandBounded(s: State, resource: ResourceName, t: int)
    requires Healthy(s) && HORIZON.Contains(t)
    ensures LoadOn(Demand(s), resource, Combined, t) <= SATURATION && Sized(s) && Keyed(Demand(s))
  {
    hide Inv, LoadOn, Demand, Sized;
    InvSized(s);
    DemandKeyed(s);
    ModestHere(s, resource, t);
  }

  /** Indexed and stranded obligations are apart, and both are bound. */
  lemma OwedWithinDemand(s: State, m: Contents, under: Ledgers, resource: ResourceName, t: int)
    requires Healthy(s) && InMix(m, s, under, {}) && Keyed(m) && Keyed(Outstanding(s, resource)) && HORIZON.Contains(t)
    ensures Owed(s, m, resource, t) <= LoadOn(Demand(s), resource, Combined, t)
  {
    hide Healthy, InMix, Outstanding, Demand, ClaimsOf, Load, Keyed;
    var a, b := ReservedOn(m, resource), Outstanding(s, resource);
    DemandBounded(s, resource, t);
    OnKeyed(Demand(s), resource);
    forall k | k in a ensures k !in b && k in On(Demand(s), resource)
        && Weight(a[k], Combined, t) <= Weight(On(Demand(s), resource)[k], Combined, t) {
      IndexedOwed(s, m, under, resource, k, t);
    }
    forall k | k in b ensures k in On(Demand(s), resource)
        && Weight(b[k], Combined, t) <= Weight(On(Demand(s), resource)[k], Combined, t) {
      StrandedOwed(s, resource, k, t);
    }
    ReservedOnClaims(m, resource);
    OutstandingOn(s, resource);
    ApartClaims(a, b, t);
    LoadDominated(a + b, On(Demand(s), resource), Combined, t);
  }

  lemma IndexedOwed(s: State, m: Contents, under: Ledgers, resource: ResourceName, k: EntryKey, t: int)
    requires Healthy(s) && InMix(m, s, under, {}) && k in ReservedOn(m, resource) && HORIZON.Contains(t)
    ensures k !in Outstanding(s, resource) && k in On(Demand(s), resource)
    ensures Weight(m[k], Combined, t) <= Weight(On(Demand(s), resource)[k], Combined, t)
  {
    hide InMix, Demand, AllCurrent, Record.Window, Inv, Modest, Sized, Outstanding;
    InvSized(s);
    MixAnswers(s, m, under, {}, k);
    WantedIsStaked(s, under, {}, k);
    OnDemand(s, resource, k);
    OutstandingIs(s, resource, k.id);
    StakeCovers(s, k, t);
  }

  lemma StrandedOwed(s: State, resource: ResourceName, k: EntryKey, t: int)
    requires Healthy(s) && k in Outstanding(s, resource) && HORIZON.Contains(t)
    ensures k in On(Demand(s), resource)
    ensures Weight(Outstanding(s, resource)[k], Combined, t) <= Weight(On(Demand(s), resource)[k], Combined, t)
  {
    hide Inv, Modest, Demand, Sized, Outstanding;
    InvSized(s);
    OutstandingShape(s, resource, k);
    OutstandingStake(s, resource, k);
    OnDemand(s, resource, k);
    StakeCovers(s, k, t);
  }

  /** Entries under different keys weigh together what they weigh apart. */
  lemma {:induction false} ApartClaims(a: Contents, b: Contents, t: int)
    requires forall k :: k in a ==> k !in b
    ensures Load(ClaimsOf(a + b, Combined), t) == Load(ClaimsOf(a, Combined), t) + Load(ClaimsOf(b, Combined), t)
    decreases |a|
  {
    hide ClaimsOf, Load;
    if a == map[] {
      assert a + b == b;
      NoLoad(t);
    } else {
      var k :| k in a;
      ApartWithout(a, b, k);
      ApartClaims(a - {k}, b, t);
      ClaimsSplit(a + b, k, Combined);
      ClaimsSplit(a, k, Combined);
      LoadPlus(ClaimsOf((a - {k}) + b, Combined), a[k].Claim(), t);
      LoadPlus(ClaimsOf(a - {k}, Combined), a[k].Claim(), t);
    }
  }

  lemma ApartWithout(a: Contents, b: Contents, k: EntryKey)
    requires k in a && k !in b
    ensures (a - {k}).Keys == a.Keys - {k} && (a + b) - {k} == (a - {k}) + b && k in a + b && (a + b)[k] == a[k]
  {
  }

  lemma NoLoad(t: int)
    ensures Load(ClaimsOf(map[], Combined), t) == 0
  {
  }
}

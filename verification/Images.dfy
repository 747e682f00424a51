/** The image a snapshot keeps of the state, and what loading it again rebuilds. */
module Images {
  import opened Timeline
  import opened Claims
  import opened Entries
  import opened Records
  import opened FabricState
  import opened Steps
  import opened Lineage
  import opened Replay
  import opened Histories

  datatype Grouping = Grouping(series: Identity, members: seq<Identity>)

  datatype Registration = Registration(claimant: Identity, generation: nat)

  datatype Episode = Episode(resource: ResourceName, resolved: bool)

  datatype Image = Image(
    capacity: seq<LedgerEntry>,
    reservations: seq<Record>,
    series: seq<Grouping>,
    edges: seq<(Key, Key)>,
    attempts: seq<Attempt>,
    claimants: seq<Registration>,
    overcommits: seq<Episode>)

  // ---------------------------------------------------------------------------
  // Loading
  // ---------------------------------------------------------------------------

  function LedgerOf(entries: seq<LedgerEntry>): Ledger
    decreases |entries|
  {
    if entries == [] then map[]
    else LedgerOf(entries[..|entries| - 1])[entries[|entries| - 1].capacity.resource := entries[|entries| - 1]]
  }

  function SeriesOf(groupings: seq<Grouping>): map<Identity, seq<Identity>>
    decreases |groupings|
  {
    if groupings == [] then map[]
    else
      SeriesOf(groupings[..|groupings| - 1])[groupings[|groupings| - 1].series := groupings[|groupings| - 1].members]
  }

  /** The newest generation of each claimant. */
  function ClaimantsOf(registrations: seq<Registration>): map<Identity, nat>
    decreases |registrations|
  {
    if registrations == [] then map[]
    else
      var before := ClaimantsOf(registrations[..|registrations| - 1]);
      var r := registrations[|registrations| - 1];
      if r.claimant !in before || r.generation > before[r.claimant] then before[r.claimant := r.generation] else before
  }

  function RememberedAll(s: State, attempts: seq<Attempt>): State
    decreases |attempts|
  {
    if attempts == [] then s else Remembered(RememberedAll(s, attempts[..|attempts| - 1]), attempts[|attempts| - 1])
  }

  /** The resources whose latest episode is unresolved. */
  function OvercommittedOf(episodes: seq<Episode>): set<ResourceName>
    decreases |episodes|
  {
    if episodes == [] then {}
    else
      var before, last := OvercommittedOf(episodes[..|episodes| - 1]), episodes[|episodes| - 1];
      if last.resolved then before - {last.resource} else before + {last.resource}
  }

  /** The state a snapshot is loaded into: no hold, nothing in the journal. */
  function Restored(maxAttempts: nat, image: Image): State {
    var loaded := Initial(maxAttempts).(ledger := LedgerOf(image.capacity), series := SeriesOf(image.series),
                                        edges := image.edges, claimants := ClaimantsOf(image.claimants),
                                        overcommitted := OvercommittedOf(image.overcommits));
    RememberedAll(RegisteredAll(loaded, image.reservations), image.attempts)
  }

  // ---------------------------------------------------------------------------
  // Capturing
  // ---------------------------------------------------------------------------

  /** The elements of a set, in some order. */
  ghost function Enumerated<T(!new)>(s: set<T>): (r: seq<T>)
    ensures forall x :: x in r <==> x in s
    decreases |s|
  {
    if s == {} then [] else var x :| x in s; [x] + Enumerated(s - {x})
  }

  function Least(s: set<nat>): (n: nat)
    requires s != {}
    ensures n in s && forall x :: x in s ==> n <= x
  {
    LeastExists(s);
    var n :| n in s && forall x :: x in s ==> n <= x;
    n
  }

  lemma LeastExists(s: set<nat>)
    requires s != {}
    ensures exists n :: n in s && forall x :: x in s ==> n <= x
  {
    var n := FindLeast(s);
  }

  lemma FindLeast(s: set<nat>) returns (n: nat)
    requires s != {}
    ensures n in s && forall x :: x in s ==> n <= x
    decreases s
  {
    var some :| some in s;
    n := some;
    if y :| y in s && y < some {
      var below := set x | x in s && x < some;
      assert y in below && some !in below;
      n := FindLeast(below);
      assert forall x :: x in s ==> x in below || some <= x;
    }
  }

  /** Identities from the smallest up: the order in which a snapshot lists attempts. */
  function Ascending(ids: set<Identity>): (r: seq<Identity>)
    ensures |r| == |ids| && (forall x :: x in r <==> x in ids)
    decreases |ids|
  {
    if ids == {} then [] else [Least(ids)] + Ascending(ids - {Least(ids)})
  }

  lemma {:induction false} AscendingRises(ids: set<Identity>)
    ensures Rising(Ascending(ids))
    decreases |ids|
  {
    if ids != {} {
      var least, rest := Least(ids), ids - {Least(ids)};
      AscendingRises(rest);
      LeastFirst(ids);
      hide Ascending, Least, Rising;
      RisingBehind(least, Ascending(rest));
    }
  }

  lemma LeastFirst(ids: set<Identity>)
    requires ids != {}
    ensures Least(ids) in ids && Ascending(ids) == [Least(ids)] + Ascending(ids - {Least(ids)})
    ensures forall x :: x in Ascending(ids - {Least(ids)}) ==> Least(ids) < x
  {
  }

  lemma RisingBehind(first: Identity, rest: seq<Identity>)
    requires Rising(rest) && forall x :: x in rest ==> first < x
    ensures Rising([first] + rest)
  {
    var ids := [first] + rest;
    forall i, j | 0 <= i < j < |ids| ensures ids[i] < ids[j] {
      assert ids[j] == rest[j - 1] && rest[j - 1] in rest;
      if i > 0 { assert ids[i] == rest[i - 1]; }
    }
  }

  ghost function Capture(s: State): Image {
    Image(
      Enumerated(s.ledger.Values), Enumerated(s.records.Values),
      Enumerated(set id | id in s.series :: Grouping(id, s.series[id])), s.edges,
      AttemptsOf(s, Ascending(s.attempts.Keys)),
      Enumerated(set id | id in s.claimants :: Registration(id, s.claimants[id])),
      Enumerated(set name | name in s.overcommitted :: Episode(name, false)))
  }

  ghost function AttemptsOf(s: State, ids: seq<Identity>): (r: seq<Attempt>)
    requires forall i :: 0 <= i < |ids| ==> ids[i] in s.attempts
    ensures |r| == |ids| && forall i :: 0 <= i < |ids| ==> r[i] == s.attempts[ids[i]]
  {
    seq(|ids|, i requires 0 <= i < |ids| => s.attempts[ids[i]])
  }

  /** The attempts remembered, each filed under its identity, are those in the order, within the bound. */
  ghost predicate Kept(s: State) {
    && (forall id :: id in s.attempts ==> s.attempts[id].id == id)
    && (forall id :: id in s.attempts <==> id in s.attemptOrder)
    && Distinct(s.attemptOrder) && |s.attemptOrder| <= s.maxAttempts
  }

  // ---------------------------------------------------------------------------
  // Loading returns what was captured
  // ---------------------------------------------------------------------------

  lemma {:induction false} LedgerReturns(ledger: Ledger, entries: seq<LedgerEntry>)
    requires forall e :: e in entries ==> e.capacity.resource in ledger && ledger[e.capacity.resource] == e
    ensures LedgerOf(entries).Keys == set e | e in entries :: e.capacity.resource
    ensures forall r :: r in LedgerOf(entries) ==> r in ledger && LedgerOf(entries)[r] == ledger[r]
    decreases |entries|
  {
    if entries != [] {
      var init, last := entries[..|entries| - 1], entries[|entries| - 1];
      assert entries == init + [last];
      LedgerReturns(ledger, init);
    }
  }

  lemma LedgerRestored(ledger: Ledger, entries: seq<LedgerEntry>)
    requires forall r :: r in ledger ==> ledger[r].capacity.resource == r
    requires forall e :: e in entries <==> e in ledger.Values
    ensures LedgerOf(entries) == ledger
  {
    LedgerReturns(ledger, entries);
    forall r | r in ledger ensures r in LedgerOf(entries) {
      assert ledger[r] in entries;
    }
  }

  lemma {:induction false} SeriesReturns(series: map<Identity, seq<Identity>>, groupings: seq<Grouping>)
    requires forall g :: g in groupings ==> g.series in series && series[g.series] == g.members
    ensures SeriesOf(groupings).Keys == set g | g in groupings :: g.series
    ensures forall id :: id in SeriesOf(groupings) ==> id in series && SeriesOf(groupings)[id] == series[id]
    decreases |groupings|
  {
    if groupings != [] {
      var init, last := groupings[..|groupings| - 1], groupings[|groupings| - 1];
      assert groupings == init + [last];
      SeriesReturns(series, init);
    }
  }

  lemma SeriesRestored(series: map<Identity, seq<Identity>>, groupings: seq<Grouping>)
    requires forall g :: g in groupings <==> g in (set id | id in series :: Grouping(id, series[id]))
    ensures SeriesOf(groupings) == series
  {
    SeriesReturns(series, groupings);
    forall id | id in series ensures id in SeriesOf(groupings) {
      assert Grouping(id, series[id]) in groupings;
    }
  }

  lemma {:induction false} ClaimantsReturn(claimants: map<Identity, nat>, registrations: seq<Registration>)
    requires forall r :: r in registrations ==> r.claimant in claimants && claimants[r.claimant] == r.generation
    ensures ClaimantsOf(registrations).Keys == set r | r in registrations :: r.claimant
    ensures forall id :: id in ClaimantsOf(registrations) ==>
      id in claimants && ClaimantsOf(registrations)[id] == claimants[id]
    decreases |registrations|
  {
    if registrations != [] {
      var init, last := registrations[..|registrations| - 1], registrations[|registrations| - 1];
      assert registrations == init + [last];
      ClaimantsReturn(claimants, init);
    }
  }

  lemma ClaimantsRestored(claimants: map<Identity, nat>, registrations: seq<Registration>)
    requires forall r :: r in registrations <==> r in (set id | id in claimants :: Registration(id, claimants[id]))
    ensures ClaimantsOf(registrations) == claimants
  {
    ClaimantsReturn(claimants, registrations);
    forall id | id in claimants ensures id in ClaimantsOf(registrations) {
      assert Registration(id, claimants[id]) in registrations;
    }
  }

  lemma {:induction false} OvercommitsReturn(episodes: seq<Episode>)
    requires forall e :: e in episodes ==> !e.resolved
    ensures OvercommittedOf(episodes) == set e | e in episodes :: e.resource
    decreases |episodes|
  {
    if episodes != [] {
      var init, last := episodes[..|episodes| - 1], episodes[|episodes| - 1];
      assert episodes == init + [last];
      OvercommitsReturn(init);
    }
  }

  /** Registering records of one table, in any order, rebuilds what is current from the newest of each identity. */
  lemma {:induction false} RegisteredFrom(s: State, rs: seq<Record>, records: RecordTable)
    requires forall i :: 0 <= i < |rs| ==> rs[i].KeyOf() in records && records[rs[i].KeyOf()] == rs[i]
    ensures var s' := RegisteredAll(s, rs);
            && s' == s.(records := s'.records, current := s'.current)
            && (forall k :: k in s'.records <==>
                  k in s.records || (k in records && records[k] in rs && records[k].KeyOf() == k))
            && (forall k :: k in s'.records ==>
                  if k in records && records[k] in rs && records[k].KeyOf() == k then s'.records[k] == records[k]
                  else s'.records[k] == s.records[k])
    decreases |rs|
  {
    if rs != [] {
      var rest := rs[1..];
      RegisteredFrom(Registered(s, rs[0]), rest, records);
      assert rs == [rs[0]] + rest;
    }
  }

  lemma {:induction false} NewestIsCurrent(s: State, rs: seq<Record>)
    ensures var s' := RegisteredAll(s, rs);
            && (forall id :: id in s.current ==> id in s'.current && s.current[id] <= s'.current[id])
            && (forall i :: 0 <= i < |rs| ==> rs[i].id in s'.current && rs[i].generation <= s'.current[rs[i].id])
            && (forall id :: id in s'.current ==>
                  || (id in s.current && s'.current[id] == s.current[id])
                  || exists i :: 0 <= i < |rs| && rs[i].id == id && rs[i].generation == s'.current[id])
    decreases |rs|
  {
    if rs != [] {
      var s1, rest := Registered(s, rs[0]), rs[1..];
      var s' := RegisteredAll(s1, rest);
      NewestIsCurrent(s1, rest);
      forall i | 0 <= i < |rs| ensures rs[i].id in s'.current && rs[i].generation <= s'.current[rs[i].id] {
        if i > 0 { assert rest[i - 1] == rs[i]; }
      }
      forall id | id in s'.current && !(id in s.current && s'.current[id] == s.current[id])
        ensures exists i :: 0 <= i < |rs| && rs[i].id == id && rs[i].generation == s'.current[id]
      {
        if id in s1.current && s'.current[id] == s1.current[id] {
          assert rs[0].id == id && rs[0].generation == s'.current[id];
        } else {
          var i :| 0 <= i < |rest| && rest[i].id == id && rest[i].generation == s'.current[id];
          assert rs[i + 1] == rest[i];
        }
      }
    }
  }

  lemma ListedUnderKeys(s: State, rs: seq<Record>)
    requires Filed(s.records, s.current) && forall r :: r in rs <==> r in s.records.Values
    ensures forall i :: 0 <= i < |rs| ==> rs[i].KeyOf() in s.records && s.records[rs[i].KeyOf()] == rs[i]
    ensures forall k :: k in s.records ==> s.records[k] in rs && s.records[k].KeyOf() == k
  {
    forall i | 0 <= i < |rs| ensures rs[i].KeyOf() in s.records && s.records[rs[i].KeyOf()] == rs[i] {
      assert rs[i] in s.records.Values;
      var k :| k in s.records && s.records[k] == rs[i];
    }
  }

  lemma CurrentRestored(s: State, loaded: State, rs: seq<Record>)
    requires Filed(s.records, s.current) && GapFree(s.records, s.current) && loaded.current == map[]
    requires forall i :: 0 <= i < |rs| ==> rs[i].KeyOf() in s.records && s.records[rs[i].KeyOf()] == rs[i]
    requires forall k :: k in s.records ==> s.records[k] in rs && s.records[k].KeyOf() == k
    ensures RegisteredAll(loaded, rs).current == s.current
  {
    hide RegisteredAll, Follows;
    NewestIsCurrent(loaded, rs);
    var current := RegisteredAll(loaded, rs).current;
    forall id | id in current ensures id in s.current && current[id] <= s.current[id] {
      var j :| 0 <= j < |rs| && rs[j].id == id && rs[j].generation == current[id];
      assert rs[j].KeyOf() in s.records;
    }
    forall id | id in s.current ensures id in current && s.current[id] <= current[id] {
      var newest := Key(id, s.current[id]);
      assert Complete(s.records, id, s.current[id]);
      assert newest in s.records;
      var i :| 0 <= i < |rs| && rs[i] == s.records[newest];
    }
  }

  lemma RecordsRestored(s: State, loaded: State, rs: seq<Record>)
    requires Chained(s) && loaded.records == map[] && loaded.current == map[]
    requires forall r :: r in rs <==> r in s.records.Values
    ensures RegisteredAll(loaded, rs) == loaded.(records := s.records, current := s.current)
  {
    hide RegisteredAll, Filed, GapFree, OneAuthority;
    ListedUnderKeys(s, rs);
    RegisteredFrom(loaded, rs, s.records);
    CurrentRestored(s, loaded, rs);
    assert RegisteredAll(loaded, rs).records == s.records;
  }

  function IdsIn(attempts: seq<Attempt>): seq<Identity> {
    seq(|attempts|, i requires 0 <= i < |attempts| => attempts[i].id)
  }

  lemma RememberedLast(s: State, a: Attempt)
    requires a.id !in s.attempts && |s.attemptOrder| < s.maxAttempts
    ensures Remembered(s, a) == s.(attempts := s.attempts[a.id := a], attemptOrder := s.attemptOrder + [a.id])
  {
  }

  /** All the attempts are remembered, in order. */
  ghost predicate Holds(s: State, s': State, attempts: seq<Attempt>) {
    && s' == s.(attempts := s'.attempts, attemptOrder := IdsIn(attempts))
    && (forall id :: id in s'.attempts <==> id in IdsIn(attempts))
    && (forall i :: 0 <= i < |attempts| ==>
          attempts[i].id in s'.attempts && s'.attempts[attempts[i].id] == attempts[i])
  }

  lemma {:induction false} AttemptsReturn(s: State, attempts: seq<Attempt>)
    requires s.attempts == map[] && s.attemptOrder == [] && |attempts| <= s.maxAttempts && Distinct(IdsIn(attempts))
    ensures Holds(s, RememberedAll(s, attempts), attempts)
    decreases |attempts|
  {
    if attempts != [] {
      var init, last := attempts[..|attempts| - 1], attempts[|attempts| - 1];
      LastIsNew(attempts);
      AttemptsReturn(s, init);
      HoldsNext(s, RememberedAll(s, init), init, last);
      assert init + [last] == attempts;
      hide Remembered, Holds;
    } else {
      assert IdsIn(attempts) == [];
    }
  }

  lemma HoldsNext(s: State, s': State, init: seq<Attempt>, last: Attempt)
    requires Holds(s, s', init) && last.id !in IdsIn(init) && |init| < s.maxAttempts
    ensures Holds(s, Remembered(s', last), init + [last])
  {
    hide Remembered;
    var attempts := init + [last];
    RememberedLast(s', last);
    assert IdsIn(attempts) == IdsIn(init) + [last.id];
    forall i | 0 <= i < |init| ensures attempts[i] == init[i] && init[i].id in IdsIn(init) {
      assert IdsIn(init)[i] == init[i].id;
    }
  }

  lemma LastIsNew(attempts: seq<Attempt>)
    requires attempts != [] && Distinct(IdsIn(attempts))
    ensures attempts[|attempts| - 1].id !in IdsIn(attempts[..|attempts| - 1])
    ensures Distinct(IdsIn(attempts[..|attempts| - 1]))
  {
    var n := |attempts| - 1;
    var init := IdsIn(attempts[..n]);
    assert forall i :: 0 <= i < n ==> IdsIn(attempts)[i] == init[i];
    assert IdsIn(attempts)[n] == attempts[n].id;
    forall i, j | 0 <= i < j < |init| ensures init[i] != init[j] {
      assert IdsIn(attempts)[i] == init[i] && IdsIn(attempts)[j] == init[j];
    }
  }

  lemma {:induction false} EvictedKept(s: State)
    requires forall id :: id in s.attempts ==> s.attempts[id].id == id
    requires forall id :: id in s.attempts <==> id in s.attemptOrder
    requires Distinct(s.attemptOrder)
    ensures Kept(Evicted(s))
    decreases |s.attemptOrder|
  {
    if |s.attemptOrder| > s.maxAttempts {
      var order := s.attemptOrder;
      assert order == [order[0]] + order[1..];
      var s1 := s.(attempts := s.attempts - {order[0]}, attemptOrder := order[1..]);
      forall i, j | 0 <= i < j < |order[1..]| ensures order[1..][i] != order[1..][j] {
        assert order[i + 1] != order[j + 1];
      }
      assert order[0] !in order[1..];
      EvictedKept(s1);
    }
  }

  lemma AttemptsRestored(s: State, loaded: State)
    requires Kept(s) && loaded.attempts == map[] && loaded.attemptOrder == [] && loaded.maxAttempts == s.maxAttempts
    ensures var ids := Ascending(s.attempts.Keys);
            RememberedAll(loaded, AttemptsOf(s, ids)) == loaded.(attempts := s.attempts, attemptOrder := ids)
  {
    hide RememberedAll, Ascending;
    var ids := Ascending(s.attempts.Keys);
    var attempts := AttemptsOf(s, ids);
    assert IdsIn(attempts) == ids;
    AscendingRises(s.attempts.Keys);
    AsManyAsListed(s);
    AttemptsReturn(loaded, attempts);
    var restored := RememberedAll(loaded, attempts);
    forall id | id in s.attempts ensures id in restored.attempts && restored.attempts[id] == s.attempts[id] {
      var i :| 0 <= i < |ids| && ids[i] == id;
      assert attempts[i] == s.attempts[id];
    }
    assert restored.attempts == s.attempts;
  }

  /** Restoring a captured state returns it without its holds, the attempts in order of identity instead of age. */
  lemma RestoreReturns(s: State)
    requires Inv(s) && Kept(s)
    ensures Restored(s.maxAttempts, Capture(s))
            == s.(holds := map[], journal := [], attemptOrder := Ascending(s.attempts.Keys))
  {
    hide RememberedAll, RegisteredAll, SoundRecords, SoundHolds, LedgerOf, SeriesOf, ClaimantsOf, OvercommittedOf,
         Chained, Ascending, Kept;
    var image := Capture(s);
    LedgerRestored(s.ledger, image.capacity);
    SeriesRestored(s.series, image.series);
    ClaimantsRestored(s.claimants, image.claimants);
    OvercommitsReturn(image.overcommits);
    forall name | name in s.overcommitted ensures Episode(name, false) in image.overcommits {
    }
    assert OvercommittedOf(image.overcommits) == s.overcommitted;
    var loaded := Initial(s.maxAttempts).(ledger := s.ledger, series := s.series, edges := s.edges,
                                          claimants := s.claimants, overcommitted := s.overcommitted);
    RecordsRestored(s, loaded, image.reservations);
    AttemptsRestored(s, loaded.(records := s.records, current := s.current));
  }

  lemma AsManyAsListed(s: State)
    requires Kept(s)
    ensures |s.attempts.Keys| == |s.attemptOrder|
  {
    DistinctCount(s.attemptOrder);
    assert s.attempts.Keys == Members(s.attemptOrder);
  }

  function Members(ids: seq<Identity>): set<Identity> { set id | id in ids }

  lemma {:induction false} DistinctCount(ids: seq<Identity>)
    requires Distinct(ids)
    ensures |Members(ids)| == |ids|
    decreases |ids|
  {
    if ids != [] {
      var n := |ids| - 1;
      var init := ids[..n];
      assert ids == init + [ids[n]];
      DistinctCount(init);
      assert ids[n] !in Members(init);
      assert Members(ids) == Members(init) + {ids[n]};
    }
  }

  /** Nothing at all is lost by the round trip, holds apart, exactly when attempts were made in order of identity. */
  lemma OrderReturns(s: State)
    requires Inv(s) && Kept(s)
    ensures Restored(s.maxAttempts, Capture(s)) == s.(holds := map[], journal := []) <==> Rising(s.attemptOrder)
  {
    hide Restored, Capture, Inv;
    RestoreReturns(s);
    AscendingRises(s.attempts.Keys);
    if Rising(s.attemptOrder) { OneAscent(s.attemptOrder, Ascending(s.attempts.Keys)); }
  }

  /** A set of identities has one rising order. */
  lemma {:induction false} OneAscent(a: seq<Identity>, b: seq<Identity>)
    requires Rising(a) && Rising(b) && forall id :: id in a <==> id in b
    ensures a == b
    decreases |a|
  {
    if a == [] {
      assert forall i :: 0 <= i < |b| ==> b[i] in a;
    } else {
      assert a[0] in b;
      assert b[0] in a;
      assert a[0] == b[0];
      assert a == [a[0]] + a[1..] && b == [b[0]] + b[1..];
      forall id ensures id in a[1..] <==> id in b[1..] {
        if id in a[1..] { assert id in b && id != b[0]; }
        if id in b[1..] { assert id in a && id != a[0]; }
      }
      OneAscent(a[1..], b[1..]);
    }
  }

  // ---------------------------------------------------------------------------
  // The attempts are kept in order along every run
  // ---------------------------------------------------------------------------

  lemma RememberedKept(s: State, a: Attempt)
    requires Kept(s)
    ensures Kept(Remembered(s, a))
  {
    hide Evicted;
    EvictedKept(Listed(s, a));
  }

  /** What a commit has made of the state before its attempt is remembered. */
  function Committing(s: State, d: DurableRecord): State
    requires d.ReservationMutation? && Applicable(s, d)
  {
    RevokedAll(Grouped(RegisteredAll(Registered(Predeceased(s, d), d.record), d.members), d), d.companions)
  }

  lemma CommittingKeepsAttempts(s: State, d: DurableRecord)
    requires d.ReservationMutation? && Applicable(s, d)
    ensures SameAttempts(Committing(s, d), s) && Applied(s, d) == RememberedIf(Committing(s, d), d.attempt)
  {
    hide Remembered, RegisteredAll, RevokedAll, Predeceased, Grouped;
    var s1 := Registered(Predeceased(s, d), d.record);
    PredeceasedForgetsNothing(s, d);
    RegisteredAllKeepsRest(s1, d.members);
    var s2 := RegisteredAll(s1, d.members);
    GroupedKeeps(s2, d);
    GroupedKnown(s2, d);
    RevokedAllKeeps(Grouped(s2, d), d.companions);
  }

  lemma AppliedKept(s: State, d: DurableRecord)
    requires Kept(s) && Applicable(s, d)
    ensures Kept(Applied(s, d))
  {
    hide Remembered, Committing, RegisteredAll, RevokedAll, Known, Stated, WithdrawnAll, Grouped, Predeceased;
    match d
    case ReservationMutation(_, _, _, _, _, attempt) =>
      CommittingKeepsAttempts(s, d);
      if attempt.Some? { RememberedKept(Committing(s, d), attempt.value); }
    case StateMutation(key, to, recallAt, attempt) =>
      TransitionShape(s, key, to, recallAt);
      if attempt.Some? { RememberedKept(s.(records := Noted(s, d)), attempt.value); }
    case AttemptOutcome(attempt) => RememberedKept(s, attempt);
    case _ =>
  }

  lemma NextKept(s: State, step: Step)
    requires Kept(s) && Enabled(s, step)
    ensures Kept(Next(s, step))
  {
    hide Enabled, Next, Applicable, Applied;
    StepAppends(s, step);
    match Appends(step)
    case None =>
    case Some(d) => AppliedKept(s, d);
  }

  lemma {:induction false} ReplayedKept(s: State, records: seq<DurableRecord>)
    requires Kept(s) && Replayable(s, records)
    ensures Kept(Replayed(s, records))
    decreases |records|
  {
    hide Kept, Applicable, Applied;
    if records != [] {
      AppliedKept(s, records[0]);
      ReplayedKept(Applied(s, records[0]), records[1..]);
    }
  }

  lemma RecoveredKept(s: State)
    requires Denoted(s)
    ensures Kept(Recovered(s))
  {
    hide Replayed, Replayable;
    ReplayedKept(Initial(s.maxAttempts), s.journal);
  }

  /**
   Along any life from the beginning, loading the captured state returns it, up to holds and the order of attempts.
   */
  lemma {:induction false} LifeIsCaptured(s: State, events: seq<Event>)
    requires Inv(s) && Denoted(s) && Kept(s) && Lives(s, events)
    ensures var now := Lived(s, events);
            && Kept(now)
            && Restored(now.maxAttempts, Capture(now))
               == now.(holds := map[], journal := [], attemptOrder := Ascending(now.attempts.Keys))
    decreases |events|
  {
    hide Inv, Denoted, Kept, Possible, After, Restored, Capture, Ascending;
    if events == [] {
      RestoreReturns(s);
    } else {
      EventKeeps(s, events[0]);
      EventKept(s, events[0]);
      LifeIsCaptured(After(s, events[0]), events[1..]);
    }
  }

  lemma EventKept(s: State, e: Event)
    requires Kept(s) && Possible(s, e)
    ensures Kept(After(s, e))
  {
    hide Kept, Denoted, Recovered, Enabled, Next;
    match e
    case Act(step) => NextKept(s, step);
    case Crash => RecoveredKept(s);
  }

  // ---------------------------------------------------------------------------
  // Replaying above a snapshot
  // ---------------------------------------------------------------------------

  function Reordered(s: State, order: seq<Identity>): State { s.(attemptOrder := order) }

  lemma {:induction false} RegisteredReordered(s: State, rs: seq<Record>, order: seq<Identity>)
    ensures RegisteredAll(Reordered(s, order), rs) == Reordered(RegisteredAll(s, rs), order)
    decreases |rs|
  {
    if rs != [] {
      assert Registered(Reordered(s, order), rs[0]) == Reordered(Registered(s, rs[0]), order);
      RegisteredReordered(Registered(s, rs[0]), rs[1..], order);
    }
  }

  lemma {:induction false} RevokedReordered(s: State, keys: seq<Key>, order: seq<Identity>)
    requires Known(s, keys)
    ensures Known(Reordered(s, order), keys)
    ensures RevokedAll(Reordered(s, order), keys) == Reordered(RevokedAll(s, keys), order)
    decreases |keys|
  {
    if keys != [] {
      assert WithState(Reordered(s, order), keys[0], Revoked) == Reordered(WithState(s, keys[0], Revoked), order);
      RevokedReordered(WithState(s, keys[0], Revoked), keys[1..], order);
    }
  }

  lemma CommittingReordered(s: State, d: DurableRecord, order: seq<Identity>)
    requires d.ReservationMutation? && Applicable(s, d)
    ensures Applicable(Reordered(s, order), d)
    ensures Committing(Reordered(s, order), d) == Reordered(Committing(s, d), order)
  {
    hide RegisteredAll, RevokedAll;
    assert Predeceased(Reordered(s, order), d) == Reordered(Predeceased(s, d), order);
    var s1 := Registered(Predeceased(s, d), d.record);
    assert Registered(Reordered(Predeceased(s, d), order), d.record) == Reordered(s1, order);
    RegisteredReordered(s1, d.members, order);
    var s2 := RegisteredAll(s1, d.members);
    assert Grouped(Reordered(s2, order), d) == Reordered(Grouped(s2, d), order);
    RevokedReordered(Grouped(s2, d), d.companions, order);
  }

  function AttemptWith(d: DurableRecord): Option<Attempt> {
    match d
    case ReservationMutation(_, _, _, _, _, attempt) => attempt
    case StateMutation(_, _, _, attempt) => attempt
    case AttemptOutcome(attempt) => Some(attempt)
    case _ => None
  }

  /** No attempt has to be forgotten for the one the record carries, if any. */
  predicate FindsRoom(s: State, d: DurableRecord) {
    var a := AttemptWith(d);
    a.Some? ==> |s.attemptOrder| + (if a.value.id in s.attempts then 0 else 1) <= s.maxAttempts
  }

  /** While no attempt is forgotten, the order of the earlier ones changes nothing else. */
  lemma RememberedReordered(s: State, a: Attempt, order: seq<Identity>)
    requires |order| == |s.attemptOrder| && FindsRoom(s, AttemptOutcome(a))
    ensures var order' := Remembered(Reordered(s, order), a).attemptOrder;
            && |order'| == |Remembered(s, a).attemptOrder|
            && Remembered(Reordered(s, order), a) == Reordered(Remembered(s, a), order')
  {
  }

  lemma CommitReordered(s: State, d: DurableRecord, order: seq<Identity>)
    requires d.ReservationMutation? && Applicable(s, d) && |order| == |s.attemptOrder| && FindsRoom(s, d)
    ensures Applicable(Reordered(s, order), d)
    ensures var order' := Applied(Reordered(s, order), d).attemptOrder;
            && |order'| == |Applied(s, d).attemptOrder|
            && Applied(Reordered(s, order), d) == Reordered(Applied(s, d), order')
  {
    hide Remembered, Committing, Applicable, Applied;
    CommittingReordered(s, d, order);
    CommittingKeepsAttempts(s, d);
    CommittingKeepsAttempts(Reordered(s, order), d);
    if d.attempt.Some? { RememberedReordered(Committing(s, d), d.attempt.value, order); }
  }

  lemma TransitionReordered(s: State, d: DurableRecord, order: seq<Identity>)
    requires d.StateMutation? && Applicable(s, d) && |order| == |s.attemptOrder| && FindsRoom(s, d)
    ensures Applicable(Reordered(s, order), d)
    ensures var order' := Applied(Reordered(s, order), d).attemptOrder;
            && |order'| == |Applied(s, d).attemptOrder|
            && Applied(Reordered(s, order), d) == Reordered(Applied(s, d), order')
  {
    hide Remembered;
    TransitionShape(s, d.key, d.to, d.recallAt);
    TransitionShape(Reordered(s, order), d.key, d.to, d.recallAt);
    if d.attempt.Some? { RememberedReordered(s.(records := Noted(s, d)), d.attempt.value, order); }
  }

  lemma AppliedReordered(s: State, d: DurableRecord, order: seq<Identity>)
    requires Applicable(s, d) && |order| == |s.attemptOrder| && FindsRoom(s, d)
    ensures Applicable(Reordered(s, order), d)
    ensures var order' := Applied(Reordered(s, order), d).attemptOrder;
            && |order'| == |Applied(s, d).attemptOrder|
            && Applied(Reordered(s, order), d) == Reordered(Applied(s, d), order')
  {
    hide Remembered, RegisteredAll, RevokedAll, Stated, WithdrawnAll, Grouped, Predeceased, Known;
    match d
    case ReservationMutation(_, _, _, _, _, _) => CommitReordered(s, d, order);
    case StateMutation(_, _, _, _) => TransitionReordered(s, d, order);
    case AttemptOutcome(attempt) => RememberedReordered(s, attempt, order);
    case _ =>
  }

  /** Alike, and the attempts are the same in possibly another order. */
  predicate Echoes(a: State, b: State) {
    |a.attemptOrder| == |b.attemptOrder| && Alike(a, Reordered(b, a.attemptOrder))
  }

  lemma AppliedEchoes(a: State, b: State, d: DurableRecord)
    requires Echoes(a, b) && Applicable(a, d) && FindsRoom(a, d)
    ensures Applicable(b, d) && Echoes(Applied(a, d), Applied(b, d))
  {
    hide Applied, Applicable;
    var b' := Reordered(b, a.attemptOrder);
    AlikeApplied(a, b', d);
    assert Reordered(b', b.attemptOrder) == b;
    AppliedReordered(b', d, b.attemptOrder);
    var after, order := Applied(b', d), Applied(b, d).attemptOrder;
    assert Reordered(Reordered(after, order), Applied(a, d).attemptOrder) == after;
  }

  /** Each of the records finds room for its attempt. */
  ghost predicate Roomy(s: State, records: seq<DurableRecord>)
    requires Replayable(s, records)
    decreases |records|
  {
    records != [] ==> FindsRoom(s, records[0]) && Roomy(Applied(s, records[0]), records[1..])
  }

  lemma {:induction false} ReplayedEchoes(a: State, b: State, records: seq<DurableRecord>)
    requires Echoes(a, b) && Replayable(a, records) && Roomy(a, records)
    ensures Replayable(b, records) && Echoes(Replayed(a, records), Replayed(b, records))
    decreases |records|
  {
    hide Echoes, Applicable, Applied;
    if records != [] {
      AppliedEchoes(a, b, records[0]);
      ReplayedEchoes(Applied(a, records[0]), Applied(b, records[0]), records[1..]);
    }
  }

  // ---------------------------------------------------------------------------
  // A snapshot forgets which attempt is the oldest
  // ---------------------------------------------------------------------------

  function Refusal(id: Identity): DurableRecord {
    AttemptOutcome(Attempt(id, StateRequest(Key(1, 1), Released), PolicyRejected, Key(1, 1)))
  }

  lemma Refuses(s: State, id: Identity)
    requires id !in s.attempts
    ensures Enabled(s, Note(Refusal(id)))
    ensures Next(s, Note(Refusal(id))) == Remembered(s, Refusal(id).outcome).(journal := s.journal + [Refusal(id)])
  {
  }

  /** Attempts 2 and then 1 were refused. */
  function TwoRefused(): State {
    Initial(2).(attempts := map[2 := Refusal(2).outcome, 1 := Refusal(1).outcome], attemptOrder := [2, 1],
                journal := [Refusal(2), Refusal(1)])
  }

  lemma TwoAreRefused()
    ensures var events := [Act(Note(Refusal(2))), Act(Note(Refusal(1)))];
            Lives(Initial(2), events) && Lived(Initial(2), events) == TwoRefused()
  {
    hide Enabled, Next, Evicted;
    var s0 := Initial(2);
    Refuses(s0, 2);
    RememberedLast(s0, Refusal(2).outcome);
    var s1 := Next(s0, Note(Refusal(2)));
    Refuses(s1, 1);
    RememberedLast(s1, Refusal(1).outcome);
    var events := [Act(Note(Refusal(2))), Act(Note(Refusal(1)))];
    assert events[1..] == [Act(Note(Refusal(1)))] && events[1..][1..] == [];
    assert Next(s1, Note(Refusal(1))) == TwoRefused();
  }

  lemma TwoRefusedRestored()
    ensures Restored(2, Capture(TwoRefused())) == TwoRefused().(journal := [], attemptOrder := [1, 2])
  {
    hide Restored, Capture, Ascending, Inv, Kept;
    var s := TwoRefused();
    TwoAreKept();
    RestoreReturns(s);
    assert s.attempts.Keys == {1, 2};
    AscendingRises({1, 2});
    OneAscent([1, 2], Ascending({1, 2}));
  }

  lemma TwoAreKept()
    ensures Inv(TwoRefused()) && Kept(TwoRefused())
  {
    var s := TwoRefused();
    assert s.attemptOrder[0] == 2 && s.attemptOrder[1] == 1;
  }

  /** Of two attempts in an order, with room for two, a third displaces the first. */
  lemma ThirdDisplacesFirst(s: State, first: Identity, second: Identity)
    requires s.maxAttempts == 2 && s.attemptOrder == [first, second] && s.attempts.Keys == {first, second}
    requires first != second && 3 !in s.attempts
    ensures Remembered(s, Refusal(3).outcome).attempts.Keys == {second, 3}
  {
    var listed := Listed(s, Refusal(3).outcome);
    assert listed.attemptOrder == [first, second, 3] && listed.attemptOrder[1..] == [second, 3];
    var once := listed.(attempts := listed.attempts - {first}, attemptOrder := [second, 3]);
    assert Evicted(listed) == Evicted(once) && Evicted(once) == once;
  }

  /**
   Attempts 2 and then 1, with room for two: after a third the coordinator still
   remembers 1, unless it was restarted from a snapshot taken before.
   */
  lemma SnapshotForgetsAge()
    ensures var events := [Act(Note(Refusal(2))), Act(Note(Refusal(1)))];
            Lives(Initial(2), events) && Lived(Initial(2), events) == TwoRefused()
    ensures 1 in Applied(TwoRefused(), Refusal(3)).attempts
    ensures 1 !in Applied(Restored(2, Capture(TwoRefused())), Refusal(3)).attempts
  {
    hide Restored, Capture, Remembered, Lives, Lived;
    TwoAreRefused();
    TwoRefusedRestored();
    ThirdDisplacesFirst(TwoRefused(), 2, 1);
    ThirdDisplacesFirst(TwoRefused().(journal := [], attemptOrder := [1, 2]), 1, 2);
  }
}

/**
 The pass over the live records as a function of the state before it: what each turn
 does, who is passed over, and when nobody is.
 */
module Turns {
  import opened Timeline
  import opened Claims
  import opened Entries
  import opened CapacityIndexing
  import opened Records
  import opened FabricState
  import opened Steps
  import opened Lineage
  import opened Closure
  import opened RecordIndexing
  import opened Bounds
  import opened Deadlines
  import opened Effects
  import opened Admission
  import opened Commitments
  import opened Orders
  import opened Successions
  import opened Refreshing

  // ---------------------------------------------------------------------------
  // One binding
  // ---------------------------------------------------------------------------

  /** There is only one canonical binding of a set of names to a ledger. */
  lemma OneBinding(ledger: Ledger, names: seq<ResourceName>, a: seq<ResourceRef>, b: seq<ResourceRef>)
    requires BoundTo(ledger, names, a) && BoundTo(ledger, names, b)
    ensures a == b
  {
    forall n ensures n in NamesOf(a) <==> n in NamesOf(b) {
      assert n in names <==> n in NamesOf(a);
    }
    SameCanonical(ledger, a, b);
  }

  lemma {:induction false} SameCanonical(ledger: Ledger, a: seq<ResourceRef>, b: seq<ResourceRef>)
    requires Canonical(a) && Canonical(b) && AllCurrent(ledger, a) && AllCurrent(ledger, b)
    requires forall n :: n in NamesOf(a) <==> n in NamesOf(b)
    ensures a == b
    decreases |a|
  {
    hide NameLess;
    SomeName(b);
    if a != [] {
      assert NamesOf(a)[0] in NamesOf(a);
      FirstIsFirst(a, b);
      FirstIsFirst(b, a);
      TailNames(a);
      TailNames(b);
      assert IsCurrent(ledger, a[0]) && IsCurrent(ledger, b[0]);
      assert Canonical(a[1..]) && Canonical(b[1..]);
      assert AllCurrent(ledger, a[1..]) && AllCurrent(ledger, b[1..]);
      SameCanonical(ledger, a[1..], b[1..]);
      assert a == [a[0]] + a[1..] && b == [b[0]] + b[1..];
    }
  }

  lemma SomeName(b: seq<ResourceRef>)
    ensures b != [] ==> b[0].resource in NamesOf(b)
  {
    if b != [] { assert NamesOf(b)[0] == b[0].resource; }
  }

  /** The first name of one is no greater than the first of the other. */
  lemma FirstIsFirst(a: seq<ResourceRef>, b: seq<ResourceRef>)
    requires a != [] && Canonical(a) && Canonical(b) && forall n :: n in NamesOf(a) <==> n in NamesOf(b)
    ensures b != [] && a[0].resource == b[0].resource
  {
    assert NamesOf(a)[0] in NamesOf(b);
    var j :| 0 <= j < |b| && NamesOf(b)[j] == a[0].resource;
    assert NamesOf(b)[0] in NamesOf(a);
    var i :| 0 <= i < |a| && NamesOf(a)[i] == b[0].resource;
    NameNotLessItself(a[0].resource);
    if i > 0 && j > 0 { NameLessTrans(a[0].resource, b[0].resource, b[j].resource); }
  }

  lemma TailNames(a: seq<ResourceRef>)
    requires a != [] && Canonical(a)
    ensures forall n :: n in NamesOf(a[1..]) <==> n in NamesOf(a) && n != a[0].resource
  {
    CanonicalDistinct(a);
    hide NameLess, Canonical;
    forall n ensures n in NamesOf(a[1..]) <==> n in NamesOf(a) && n != a[0].resource {
      if n in NamesOf(a[1..]) {
        var i :| 0 <= i < |a[1..]| && NamesOf(a[1..])[i] == n;
        assert NamesOf(a)[i + 1] == n && NamesOf(a)[0] == a[0].resource;
      }
      if n in NamesOf(a) && n != a[0].resource {
        var i :| 0 <= i < |a| && NamesOf(a)[i] == n;
        assert NamesOf(a[1..])[i - 1] == n;
      }
    }
  }

  // ---------------------------------------------------------------------------
  // One turn
  // ---------------------------------------------------------------------------

  /** The record can be bound anew and closes without its own entries. */
  ghost predicate Rederives(s: State, m: Contents, key: Key, policy: Policy, refs: seq<ResourceRef>)
    requires key in s.records
  {
    var t := s.records[key].terms;
    && BoundTo(s.ledger, t.resources, refs)
    && Verdict(s.ledger, s.overcommitted, Without(m, Reservation, key.id), refs, t.interval, t.amount, policy,
               t.headroom) == Outcome.Committable
  }

  /** Its revalidation is tried, comes to nothing, and leaves the record marked current. */
  ghost predicate PassedOver(s: State, m: Contents, key: Key, auto: bool, policy: Policy) {
    && Suspect(s, key, auto, policy)
    && !exists refs :: Rederives(s, m, key, policy, refs)
  }

  /** A record marked current whose bindings have moved and whose policy revalidates on its own. */
  ghost predicate Suspect(s: State, key: Key, auto: bool, policy: Policy) {
    && key in s.records && auto && policy.autoRevalidate
    && s.records[key].applicability == Current && !AllCurrent(s.ledger, s.records[key].refs)
  }

  /** The mark and the reason, if they are not the same already. */
  function MarkedAs(s: State, key: Key, applicability: Applicability, reason: Reason): State {
    if key in s.records && !(s.records[key].applicability == applicability && s.records[key].reason == reason)
    then Transitioned(s, ApplicabilityMutation(key, applicability, reason)) else s
  }

  /** What a record's turn makes of the state, judged against the index contents. */
  ghost function Turned(s: State, m: Contents, key: Key, auto: bool, policy: Policy, now: int): State
    requires key in s.records
  {
    var r := s.records[key];
    if AllCurrent(s.ledger, r.refs) then if r.applicability == Current then s else MarkedAs(s, key, Current, NoReason)
    else
      var reason := StaleReason(s.ledger, r.refs);
      if auto && policy.autoRevalidate then
        if refs :| Rederives(s, m, key, policy, refs) then
          var s1 := Succeeded(s, RevalidationRecord(r, refs, now));
          if r.applicability == Current then s1 else MarkedAs(s1, key, RevalidationRequired, reason)
        else if r.applicability == Current then s
        else MarkedAs(s, key, RevalidationRequired, reason)
      else MarkedAs(s, key, RevalidationRequired, reason)
  }

  function StaleReason(ledger: Ledger, refs: seq<ResourceRef>): Reason {
    match Staleness(ledger, refs)
    case None => NoReason
    case Some(reason) => reason
  }

  /** A revalidation that came about is the one the turn takes. */
  lemma TurnRederives(s: State, m: Contents, key: Key, policy: Policy, refs: seq<ResourceRef>, now: int)
    requires key in s.records && !AllCurrent(s.ledger, s.records[key].refs) && policy.autoRevalidate
    requires Rederives(s, m, key, policy, refs)
    ensures var r := s.records[key]; var s1 := Succeeded(s, RevalidationRecord(r, refs, now));
            Turned(s, m, key, true, policy, now) ==
            if r.applicability == Current then s1
               else MarkedAs(s1, key, RevalidationRequired, StaleReason(s.ledger, r.refs))
    ensures !PassedOver(s, m, key, true, policy)
  {
    hide Verdict, BoundTo, Succeeded, MarkedAs, AllCurrent;
    forall other | Rederives(s, m, key, policy, other) ensures other == refs {
      OneBinding(s.ledger, s.records[key].terms.resources, other, refs);
    }
  }

  /** A revalidation that came to nothing leaves the record as it is, or marks it. */
  lemma TurnFails(s: State, m: Contents, key: Key, policy: Policy, refs: seq<ResourceRef>, now: int)
    requires key in s.records && !AllCurrent(s.ledger, s.records[key].refs) && policy.autoRevalidate
    requires var t := s.records[key].terms;
             AllLive(s.ledger, t.resources) ==>
               && BoundTo(s.ledger, t.resources, refs)
               && Verdict(s.ledger, s.overcommitted, Without(m, Reservation, key.id), refs, t.interval, t.amount,
                          policy, t.headroom) != Outcome.Committable
    ensures var r := s.records[key];
            Turned(s, m, key, true, policy, now) ==
            if r.applicability == Current then s
               else MarkedAs(s, key, RevalidationRequired, StaleReason(s.ledger, r.refs))
    ensures s.records[key].applicability == Current ==> PassedOver(s, m, key, true, policy)
  {
    hide Verdict, MarkedAs, AllCurrent, Canonical;
    forall other | Rederives(s, m, key, policy, other) ensures false {
      BoundIsLive(s.ledger, s.records[key].terms.resources, other);
      OneBinding(s.ledger, s.records[key].terms.resources, other, refs);
    }
  }

  lemma BoundIsLive(ledger: Ledger, names: seq<ResourceName>, refs: seq<ResourceRef>)
    requires BoundTo(ledger, names, refs)
    ensures AllLive(ledger, names)
  {
    hide Canonical;
    forall i | 0 <= i < |names| ensures Live(ledger, names[i]) {
      assert names[i] in names;
      var j :| 0 <= j < |refs| && NamesOf(refs)[j] == names[i];
      assert IsCurrent(ledger, refs[j]);
    }
  }

  // ---------------------------------------------------------------------------
  // The whole pass
  // ---------------------------------------------------------------------------

  datatype Pass = Pass(state: State, left: set<Key>, pending: set<Identity>)

  ghost function NextTurn(p: Pass, before: Ledgers, key: Key, auto: bool, policyOf: Record -> Policy, now: int): Pass {
    if key !in p.state.records then p
    else
      var m, policy := Indexed(p.state, before, p.pending), policyOf(p.state.records[key]);
      if Returns(p.state, before, key) then p
      else if PassedOver(p.state, m, key, auto, policy) then p.(left := p.left + {key})
      else Pass(Turned(p.state, m, key, auto, policy, now), p.left, p.pending - {key.id})
  }

  /** Turn by turn, in the order given. */
  ghost function Passed(p: Pass, before: Ledgers, work: seq<Key>, auto: bool, policyOf: Record -> Policy, now: int)
    : Pass
    decreases |work|
  {
    if work == [] then p else Passed(NextTurn(p, before, work[0], auto, policyOf, now), before, work[1..], auto,
                                     policyOf, now)
  }

  lemma {:induction false} PassedMore(p: Pass, before: Ledgers, work: seq<Key>, key: Key, auto: bool,
                                      policyOf: Record -> Policy, now: int)
    ensures Passed(p, before, work + [key], auto, policyOf, now)
            == NextTurn(Passed(p, before, work, auto, policyOf, now), before, key, auto, policyOf, now)
    decreases |work|
  {
    hide NextTurn;
    if work == [] {
      assert [key][1..] == [];
      assert Passed(NextTurn(p, before, key, auto, policyOf, now), before, [], auto, policyOf, now)
             == NextTurn(p, before, key, auto, policyOf, now);
      assert (work + [key])[1..] == [];
    } else {
      assert (work + [key])[1..] == work[1..] + [key];
      PassedMore(NextTurn(p, before, work[0], auto, policyOf, now), before, work[1..], key, auto, policyOf, now);
    }
  }

  /** The pass as it stands when the `i`-th record's turn comes. */
  ghost function AtTurn(p: Pass, before: Ledgers, work: seq<Key>, i: nat, auto: bool, policyOf: Record -> Policy,
                        now: int): Pass
    requires i <= |work|
  {
    Passed(p, before, work[..i], auto, policyOf, now)
  }

  /** Whether the record is passed over at its turn. */
  ghost predicate PassedAt(p: Pass, before: Ledgers, work: seq<Key>, i: nat, auto: bool, policyOf: Record -> Policy,
                           now: int)
    requires i < |work|
  {
    var q := AtTurn(p, before, work, i, auto, policyOf, now);
    && work[i] in q.state.records
    && PassedOver(q.state, Indexed(q.state, before, q.pending), work[i], auto, policyOf(q.state.records[work[i]]))
  }

  lemma ReturnedIsNotPassedOver(s: State, m: Contents, before: Ledgers, key: Key, auto: bool, policy: Policy)
    ensures Returns(s, before, key) ==> !PassedOver(s, m, key, auto, policy)
  {
    hide AllCurrent, Rederives, Record.Window;
  }

  lemma LeftNext(p: Pass, before: Ledgers, work: seq<Key>, n: nat, auto: bool, policyOf: Record -> Policy, now: int)
    requires 0 < n <= |work|
    ensures AtTurn(p, before, work, n, auto, policyOf, now).left
            == AtTurn(p, before, work, n - 1, auto, policyOf, now).left
               + if PassedAt(p, before, work, n - 1, auto, policyOf, now) then {work[n - 1]} else {}
  {
    hide PassedOver, Turned, Indexed, Passed, Returns;
    assert work[..n] == work[..n - 1] + [work[n - 1]];
    PassedMore(p, before, work[..n - 1], work[n - 1], auto, policyOf, now);
    var q := AtTurn(p, before, work, n - 1, auto, policyOf, now);
    if work[n - 1] in q.state.records {
      ReturnedIsNotPassedOver(q.state, Indexed(q.state, before, q.pending), before, work[n - 1], auto,
                              policyOf(q.state.records[work[n - 1]]));
    }
  }

  /** Exactly the records passed over at their turn are left; so none is left if and only if none is passed over. */
  lemma {:induction false} LeftExactly(p: Pass, before: Ledgers, work: seq<Key>, n: nat, auto: bool,
                                       policyOf: Record -> Policy, now: int)
    requires n <= |work|
    ensures var q := AtTurn(p, before, work, n, auto, policyOf, now);
            forall k :: k in q.left <==>
              k in p.left || exists i :: 0 <= i < n && work[i] == k && PassedAt(p, before, work, i, auto, policyOf, now)
    decreases n
  {
    hide PassedOver, Turned, Indexed;
    if n == 0 {
      assert work[..0] == [];
    } else {
      LeftExactly(p, before, work, n - 1, auto, policyOf, now);
      LeftNext(p, before, work, n, auto, policyOf, now);
      hide AtTurn, PassedAt;
    }
  }

  lemma NoneLeft(s: State, pending: set<Identity>, before: Ledgers, work: seq<Key>, auto: bool,
                 policyOf: Record -> Policy, now: int)
    ensures Passed(Pass(s, {}, pending), before, work, auto, policyOf, now).left == {}
            <==> forall i :: 0 <= i < |work| ==> !PassedAt(Pass(s, {}, pending), before, work, i, auto, policyOf, now)
  {
    hide PassedAt, NextTurn;
    var p := Pass(s, {}, pending);
    LeftExactly(p, before, work, |work|, auto, policyOf, now);
    assert work[..|work|] == work;
    if i :| 0 <= i < |work| && PassedAt(p, before, work, i, auto, policyOf, now) {
      assert work[i] in AtTurn(p, before, work, |work|, auto, policyOf, now).left;
    }
  }

  // ---------------------------------------------------------------------------
  // Judged before the pass begins
  // ---------------------------------------------------------------------------

  /** Records of other identities are as they were. */
  ghost predicate OthersKept(s: State, s': State, id: Identity) {
    s'.ledger == s.ledger && forall k: Key :: k.id != id && k in s.records ==>
        k in s'.records && s'.records[k] == s.records[k]
  }

  lemma TurnKeepsOthers(s: State, m: Contents, key: Key, auto: bool, policy: Policy, now: int)
    requires key in s.records && s.records[key].KeyOf() == key
    ensures OthersKept(s, Turned(s, m, key, auto, policy, now), key.id)
  {
    hide Rederives, AllCurrent, Staleness, MarkedAs, Succeeded, OthersKept;
    var r := s.records[key];
    OthersItself(s, key.id);
    MarkKeepsOthers(s, key, Current, NoReason);
    MarkKeepsOthers(s, key, RevalidationRequired, StaleReason(s.ledger, r.refs));
    if refs :| auto && policy.autoRevalidate && !AllCurrent(s.ledger, r.refs) && Rederives(s, m, key, policy, refs) {
      TurnRederives(s, m, key, policy, refs, now);
      SuccessionKeepsOthers(s, key, refs, now);
      var s1 := Succeeded(s, RevalidationRecord(r, refs, now));
      MarkKeepsOthers(s1, key, RevalidationRequired, StaleReason(s.ledger, r.refs));
      OthersJoin(s, s1, MarkedAs(s1, key, RevalidationRequired, StaleReason(s.ledger, r.refs)), key.id);
    }
  }

  lemma OthersItself(s: State, id: Identity)
    ensures OthersKept(s, s, id)
  {
  }

  lemma OthersJoin(a: State, b: State, c: State, id: Identity)
    requires OthersKept(a, b, id) && OthersKept(b, c, id)
    ensures OthersKept(a, c, id)
  {
  }

  lemma MarkKeepsOthers(s: State, key: Key, applicability: Applicability, reason: Reason)
    ensures OthersKept(s, MarkedAs(s, key, applicability, reason), key.id)
  {
  }

  lemma SuccessionKeepsOthers(s: State, key: Key, refs: seq<ResourceRef>, now: int)
    requires key in s.records && s.records[key].KeyOf() == key
    ensures OthersKept(s, Succeeded(s, RevalidationRecord(s.records[key], refs, now)), key.id)
  {
  }

  lemma {:induction false} KeptUntilTurn(s: State, pending: set<Identity>, before: Ledgers, work: seq<Key>, i: nat,
                                         auto: bool, policyOf: Record -> Policy, now: int)
    requires DistinctOwners(work) && i <= |work|
    requires forall j :: 0 <= j < |work| ==> work[j] in s.records && s.records[work[j]].KeyOf() == work[j]
    ensures var q := AtTurn(Pass(s, {}, pending), before, work, i, auto, policyOf, now);
            q.state.ledger == s.ledger
            && forall j :: i <= j < |work| ==>
               work[j] in q.state.records && q.state.records[work[j]] == s.records[work[j]]
    decreases i
  {
    hide PassedOver, Turned, Indexed;
    if i == 0 {
      assert work[..0] == [];
    } else {
      KeptUntilTurn(s, pending, before, work, i - 1, auto, policyOf, now);
      assert work[..i] == work[..i - 1] + [work[i - 1]];
      PassedMore(Pass(s, {}, pending), before, work[..i - 1], work[i - 1], auto, policyOf, now);
      var q := AtTurn(Pass(s, {}, pending), before, work, i - 1, auto, policyOf, now);
      TurnKeepsOthers(q.state, Indexed(q.state, before, q.pending), work[i - 1], auto,
                      policyOf(q.state.records[work[i - 1]]), now);
    }
  }

  /** Whether a record returns is decided before the pass. */
  lemma ReturnsAsBefore(s: State, pending: set<Identity>, before: Ledgers, work: seq<Key>, i: nat, auto: bool,
                        policyOf: Record -> Policy, now: int, s': State)
    requires DistinctOwners(work) && i < |work|
    requires forall j :: 0 <= j < |work| ==> work[j] in s.records && s.records[work[j]].KeyOf() == work[j]
    requires s' == Passed(Pass(s, {}, pending), before, work[..i], auto, policyOf, now).state
    ensures Returns(s', before, work[i]) <==> Returns(s, before, work[i])
  {
    hide Passed, AllCurrent, Record.Window;
    KeptUntilTurn(s, pending, before, work, i, auto, policyOf, now);
  }

  /** The records of the work list that return. */
  ghost function ReturnedOf(s: State, before: Ledgers, work: seq<Key>): set<Key> {
    set k | k in work && Returns(s, before, k)
  }

  lemma ReturnedNext(s: State, before: Ledgers, work: seq<Key>, i: nat)
    requires i < |work|
    ensures ReturnedOf(s, before, work[..i + 1])
            == ReturnedOf(s, before, work[..i]) + if Returns(s, before, work[i]) then {work[i]} else {}
  {
    hide Returns;
    assert work[..i + 1] == work[..i] + [work[i]];
  }

  lemma NobodyReturned(s: State, before: Ledgers, work: seq<Key>)
    ensures ReturnedOf(s, before, work[..0]) == {} && ReturnedOf(s, before, work[..|work|])
            == ReturnedOf(s, before, work)
  {
    hide Returns;
    assert work[..|work|] == work;
  }

  lemma OnlyStandingReturn(s: State, before: Ledgers, key: Key)
    requires key in s.records
    ensures Returns(s, before, key) ==>
      AllCurrent(s.ledger, s.records[key].refs) && s.records[key].applicability == Current
  {
  }

  /** Only a record that is suspect before the pass can be passed over; without one, none is left. */
  lemma NoSuspects(s: State, pending: set<Identity>, before: Ledgers, work: seq<Key>, auto: bool,
                   policyOf: Record -> Policy, now: int)
    requires DistinctOwners(work)
    requires forall j :: 0 <= j < |work| ==> work[j] in s.records && s.records[work[j]].KeyOf() == work[j]
    ensures forall i :: 0 <= i < |work| && PassedAt(Pass(s, {}, pending), before, work, i, auto, policyOf, now) ==>
      Suspect(s, work[i], auto, policyOf(s.records[work[i]]))
    ensures (forall i :: 0 <= i < |work| ==> !Suspect(s, work[i], auto, policyOf(s.records[work[i]]))) ==>
      Passed(Pass(s, {}, pending), before, work, auto, policyOf, now).left == {}
  {
    hide Passed, Indexed, Rederives, AllCurrent;
    forall i | 0 <= i < |work| && PassedAt(Pass(s, {}, pending), before, work, i, auto, policyOf, now)
      ensures Suspect(s, work[i], auto, policyOf(s.records[work[i]]))
    {
      KeptUntilTurn(s, pending, before, work, i, auto, policyOf, now);
    }
    NoneLeft(s, pending, before, work, auto, policyOf, now);
  }

  /** Nothing happens at the turn of a record that is current and whose bindings stand. */
  ghost predicate Quiet(s: State, key: Key) {
    key in s.records && s.records[key].applicability == Current && AllCurrent(s.ledger, s.records[key].refs)
  }

  lemma {:induction false} QuietUntil(s: State, m: Contents, pending: set<Identity>, before: Ledgers, work: seq<Key>,
                                      i: nat, auto: bool, policyOf: Record -> Policy, now: int)
    requires InMix(m, s, before, pending) && i <= |work| && forall j :: 0 <= j < i ==>
      Quiet(s, work[j]) && Waiting(s, before, work[j])
    ensures var q := AtTurn(Pass(s, {}, pending), before, work, i, auto, policyOf, now);
            q.state == s && q.left == {} && InMix(m, s, before, q.pending)
    decreases i
  {
    hide InMix, Rederives, Indexed, AllCurrent, Record.Window;
    if i == 0 {
      assert work[..0] == [];
    } else {
      QuietUntil(s, m, pending, before, work, i - 1, auto, policyOf, now);
      assert work[..i] == work[..i - 1] + [work[i - 1]];
      PassedMore(Pass(s, {}, pending), before, work[..i - 1], work[i - 1], auto, policyOf, now);
      var q := AtTurn(Pass(s, {}, pending), before, work, i - 1, auto, policyOf, now);
      assert Quiet(s, work[i - 1]) && Waiting(s, before, work[i - 1]);
      if !Returns(s, before, work[i - 1]) { DropPending(m, s, before, q.pending, work[i - 1].id); }
    }
  }

  /**
   The first record in line that is not quiet is passed over exactly when it is suspect and,
   by the index as it stands before the pass, cannot be re-derived.
   */
  lemma FirstInLine(s: State, m: Contents, pending: set<Identity>, before: Ledgers, work: seq<Key>, i: nat, auto: bool,
                    policyOf: Record -> Policy, now: int)
    requires InMix(m, s, before, pending) && i < |work| && forall j :: 0 <= j < i ==>
      Quiet(s, work[j]) && Waiting(s, before, work[j])
    requires work[i] in s.records
    ensures PassedAt(Pass(s, {}, pending), before, work, i, auto, policyOf, now) <==>
            Suspect(s, work[i], auto, policyOf(s.records[work[i]])) && !exists refs ::
                Rederives(s, m, work[i], policyOf(s.records[work[i]]), refs)
  {
    hide InMix, Rederives, Indexed, AllCurrent, Passed;
    QuietUntil(s, m, pending, before, work, i, auto, policyOf, now);
    var q := AtTurn(Pass(s, {}, pending), before, work, i, auto, policyOf, now);
    IndexedUnique(m, s, before, q.pending);
    assert PassedAt(Pass(s, {}, pending), before, work, i, auto, policyOf, now)
           <==> PassedOver(s, m, work[i], auto, policyOf(s.records[work[i]]));
  }

  /** A suspect record bound to a resource that is gone is always passed over, whatever else the pass does. */
  lemma WithdrawnIsPassedOver(s: State, pending: set<Identity>, before: Ledgers, work: seq<Key>, i: nat, auto: bool,
                              policyOf: Record -> Policy, now: int)
    requires DistinctOwners(work) && i < |work|
    requires forall j :: 0 <= j < |work| ==> work[j] in s.records && s.records[work[j]].KeyOf() == work[j]
    requires Suspect(s, work[i], auto, policyOf(s.records[work[i]]))
             && !AllLive(s.ledger, s.records[work[i]].terms.resources)
    ensures PassedAt(Pass(s, {}, pending), before, work, i, auto, policyOf, now)
    ensures work[i] in Passed(Pass(s, {}, pending), before, work, auto, policyOf, now).left
  {
    hide Passed, Indexed, AllCurrent, Verdict, Canonical, AllLive;
    KeptUntilTurn(s, pending, before, work, i, auto, policyOf, now);
    var q := AtTurn(Pass(s, {}, pending), before, work, i, auto, policyOf, now);
    var m, policy := Indexed(q.state, before, q.pending), policyOf(q.state.records[work[i]]);
    forall refs | Rederives(q.state, m, work[i], policy, refs) ensures false {
      BoundIsLive(s.ledger, s.records[work[i]].terms.resources, refs);
    }
    assert PassedAt(Pass(s, {}, pending), before, work, i, auto, policyOf, now);
    hide PassedAt;
    LeftExactly(Pass(s, {}, pending), before, work, |work|, auto, policyOf, now);
    assert work[..|work|] == work;
    assert work[i] in AtTurn(Pass(s, {}, pending), before, work, |work|, auto, policyOf, now).left;
  }

  /** What can be said of a pass before it begins. */
  ghost predicate Foreseen(s: State, m: Contents, before: Ledgers, work: seq<Key>, policyOf: Record -> Policy,
                           now: int)
  {
    var p := Pass(s, {}, IdSet(LiveKeys(s.records)));
    var left := Passed(p, before, work, true, policyOf, now).left;
    && (left == {} <==> forall i :: 0 <= i < |work| ==> !PassedAt(p, before, work, i, true, policyOf, now))
    && (forall i :: 0 <= i < |work| ==> work[i] in s.records)
    && (forall i :: 0 <= i < |work| && PassedAt(p, before, work, i, true, policyOf, now) ==>
          Suspect(s, work[i], true, policyOf(s.records[work[i]])))
    && (forall i :: 0 <= i < |work| && (forall j :: 0 <= j < i ==> Quiet(s, work[j])) ==>
          (PassedAt(p, before, work, i, true, policyOf, now) <==>
           Suspect(s, work[i], true, policyOf(s.records[work[i]]))
               && Refused(s, m, work[i], policyOf(s.records[work[i]]))))
    && (forall i :: 0 <= i < |work| && Suspect(s, work[i], true, policyOf(s.records[work[i]]))
                    && !AllLive(s.ledger, s.records[work[i]].terms.resources) ==>
          PassedAt(p, before, work, i, true, policyOf, now) && work[i] in left)
  }

  /** The record cannot be bound anew, or does not close without its own entries. */
  ghost predicate Refused(s: State, m: Contents, key: Key, policy: Policy)
    requires key in s.records
  {
    !exists refs :: Rederives(s, m, key, policy, refs)
  }

  lemma AllForeseen(s: State, m: Contents, before: Ledgers, work: seq<Key>, policyOf: Record -> Policy, now: int)
    requires Healthy(s) && InMix(m, s, before, IdSet(LiveKeys(s.records)))
    requires Ascending(work) && forall k :: k in work <==> k in LiveKeys(s.records)
    requires forall k :: k in LiveKeys(s.records) ==> Waiting(s, before, k)
    ensures Foreseen(s, m, before, work, policyOf, now)
  {
    hide Healthy, InMix, Passed, PassedAt, Suspect, Rederives, AllLive, IdSet, Quiet, Refused, Waiting;
    var p := Pass(s, {}, IdSet(LiveKeys(s.records)));
    WorkIsFiled(s, before, work);
    NoneLeft(s, p.pending, before, work, true, policyOf, now);
    NoSuspects(s, p.pending, before, work, true, policyOf, now);
    forall i | 0 <= i < |work| && (forall j :: 0 <= j < i ==> Quiet(s, work[j]))
      ensures PassedAt(p, before, work, i, true, policyOf, now) <==>
              && Suspect(s, work[i], true, policyOf(s.records[work[i]]))
              && Refused(s, m, work[i], policyOf(s.records[work[i]]))
    {
      FirstIsRefused(s, m, p.pending, before, work, i, policyOf, now);
    }
    forall i | && 0 <= i < |work| && Suspect(s, work[i], true, policyOf(s.records[work[i]]))
               && !AllLive(s.ledger, s.records[work[i]].terms.resources)
      ensures && PassedAt(p, before, work, i, true, policyOf, now)
              && work[i] in Passed(p, before, work, true, policyOf, now).left
    {
      WithdrawnIsPassedOver(s, p.pending, before, work, i, true, policyOf, now);
    }
  }

  lemma WorkIsFiled(s: State, before: Ledgers, work: seq<Key>)
    requires Healthy(s) && Ascending(work) && forall k :: k in work <==> k in LiveKeys(s.records)
    requires forall k :: k in LiveKeys(s.records) ==> Waiting(s, before, k)
    ensures DistinctOwners(work)
    ensures forall j :: 0 <= j < |work| ==>
      work[j] in s.records && s.records[work[j]].KeyOf() == work[j] && Waiting(s, before, work[j])
  {
    hide Healthy, Waiting, DistinctOwners;
    AllMidway(s, before, work);
    MidwayOwners(s, before, work, {}, {});
    forall j | 0 <= j < |work|
      ensures work[j] in s.records && s.records[work[j]].KeyOf() == work[j] && Waiting(s, before, work[j])
    {
      assert work[j] in work;
      HealthyRecord(s, work[j]);
    }
  }

  lemma FirstIsRefused(s: State, m: Contents, pending: set<Identity>, before: Ledgers, work: seq<Key>, i: nat,
                       policyOf: Record -> Policy, now: int)
    requires InMix(m, s, before, pending) && i < |work| && work[i] in s.records
    requires forall j :: 0 <= j < i ==> Quiet(s, work[j]) && Waiting(s, before, work[j])
    ensures PassedAt(Pass(s, {}, pending), before, work, i, true, policyOf, now) <==>
            && Suspect(s, work[i], true, policyOf(s.records[work[i]]))
            && Refused(s, m, work[i], policyOf(s.records[work[i]]))
  {
    hide InMix, PassedAt, Suspect, Rederives, Quiet, Waiting;
    FirstInLine(s, m, pending, before, work, i, true, policyOf, now);
  }

  /**
   Nothing is written at the turn of a record whose bindings stand and that is marked current. If it was
   pending, it may be taken for indexed exactly when it was indexed before, or takes nothing: otherwise
   its bindings come back to it and its entries do not.
   */
  lemma ComesBackUnindexed(s: State, m: Contents, before: Ledgers, pending: set<Identity>, key: Key, auto: bool,
                           policy: Policy, now: int)
    requires Healthy(s) && InMix(m, s, before, pending)
    requires Quiet(s, key) && !IsTerminal(s.records[key].state) && key.id in pending
    ensures Turned(s, m, key, auto, policy, now) == s && !PassedOver(s, m, key, auto, policy)
    ensures InMix(m, s, before, pending - {key.id}) <==>
            var r := s.records[key];
            AllCurrent(before(key.id), r.refs) || !r.Consumes() || r.Window().Empty()
  {
    hide Healthy, InMix, Record.Window, AllCurrent, Wanted;
    OtherTurns(s, m, key, auto, policy, now);
    HealthyRecord(s, key);
    LiveIsCurrent(s, key);
    if Returns(s, before, key) {
      NoEntryReturns(s, m, before, pending, key);
    } else {
      DropPending(m, s, before, pending, key.id);
    }
  }

  lemma LiveIsCurrent(s: State, key: Key)
    requires Healthy(s) && key in s.records && !IsTerminal(s.records[key].state)
    ensures key.id in s.current && s.current[key.id] == key.generation
  {
    hide Healthy;
    HealthyRecord(s, key);
  }

  lemma NoEntryReturns(s: State, m: Contents, before: Ledgers, pending: set<Identity>, key: Key)
    requires Healthy(s) && InMix(m, s, before, pending) && Returns(s, before, key) && key.id in pending
    requires key.id in s.current && s.current[key.id] == key.generation
    ensures !InMix(m, s, before, pending - {key.id})
  {
    hide Healthy, Record.Window;
    var r := s.records[key];
    HealthyRecord(s, key);
    var e := EntryKey(Reservation, key.id, r.refs[0].resource);
    assert r.Binds(e.resource);
    assert Answers(m, e, WantedIn(s, before, pending, e));
    assert WantedIn(s, before, pending, e) == None;
    assert WantedIn(s, before, pending - {key.id}, e).Some?;
    assert !Answers(m, e, WantedIn(s, before, pending - {key.id}, e));
  }

  // ---------------------------------------------------------------------------
  // Turns as they are taken
  // ---------------------------------------------------------------------------

  /** How a revalidation attempt ends decides the turn of a stale record. */
  lemma StaleTurn(s: State, s1: State, m: Contents, key: Key, policy: Policy, now: int, refs: seq<ResourceRef>,
                  done: bool)
    requires key in s.records && !AllCurrent(s.ledger, s.records[key].refs) && policy.autoRevalidate
    requires Revalidates(s, s1, key, policy, now, Without(m, Reservation, key.id), refs, done)
    ensures done ==> !PassedOver(s, m, key, true, policy)
    ensures !done && s.records[key].applicability == Current ==> PassedOver(s, m, key, true, policy)
    ensures s.records[key].applicability != Current ==> !PassedOver(s, m, key, true, policy)
    ensures var reason := StaleReason(s.ledger, s.records[key].refs);
            Turned(s, m, key, true, policy, now) ==
            if s.records[key].applicability == Current then s1 else MarkedAs(s1, key, RevalidationRequired, reason)
  {
    hide Verdict, BoundTo, Succeeded, MarkedAs, AllCurrent, AllLive, Turned, CanSupersede;
    if done {
      TurnRederives(s, m, key, policy, refs, now);
    } else {
      TurnFails(s, m, key, policy, refs, now);
    }
  }

  lemma OtherTurns(s: State, m: Contents, key: Key, auto: bool, policy: Policy, now: int)
    requires key in s.records
    ensures AllCurrent(s.ledger, s.records[key].refs) ==>
      Turned(s, m, key, auto, policy, now)
          == (if s.records[key].applicability == Current then s else MarkedAs(s, key, Current, NoReason))
      && !PassedOver(s, m, key, auto, policy)
    ensures !AllCurrent(s.ledger, s.records[key].refs) && !(auto && policy.autoRevalidate) ==>
      Turned(s, m, key, auto, policy, now)
          == MarkedAs(s, key, RevalidationRequired, StaleReason(s.ledger, s.records[key].refs))
      && !PassedOver(s, m, key, auto, policy)
  {
    hide AllCurrent, MarkedAs, Staleness;
  }

  /** One turn taken is the next turn of the pass. */
  lemma TurnTaken(p: Pass, before: Ledgers, m: Contents, key: Key, auto: bool, policyOf: Record -> Policy, now: int,
                  s': State, behind: bool)
    requires key in p.state.records && InMix(m, p.state, before, p.pending)
    requires s' == Turned(p.state, m, key, auto, policyOf(p.state.records[key]), now)
    requires behind <==> PassedOver(p.state, m, key, auto, policyOf(p.state.records[key]))
    requires behind ==> s' == p.state
    ensures Returns(p.state, before, key) ==> s' == p.state && !behind
    ensures NextTurn(p, before, key, auto, policyOf, now)
            == if behind then Pass(s', p.left + {key}, p.pending)
               else if Returns(p.state, before, key) then p else Pass(s', p.left, p.pending - {key.id})
  {
    OtherTurns(p.state, m, key, auto, policyOf(p.state.records[key]), now);
    hide InMix, PassedOver, Turned, Indexed, Record.Window, AllCurrent;
    IndexedUnique(m, p.state, before, p.pending);
  }

  lemma PassBegins(p: Pass, before: Ledgers, work: seq<Key>, auto: bool, policyOf: Record -> Policy, now: int)
    ensures Passed(p, before, [], auto, policyOf, now) == p
    ensures forall i :: 0 <= i < |work| ==> work[..i + 1] == work[..i] + [work[i]]
    ensures work[..0] == [] && work[0..] == work && work[..|work|] == work
  {
  }

  /** A snapshot's statement, taken before anyone is worked through it. */
  function Taken(s: State, resources: seq<Capacity>, withdrawals: seq<ResourceName>): State
    requires Stated(s.ledger, resources).Some?
  {
    s.(ledger := Ingested(s.ledger, resources, withdrawals), journal := s.journal
       + [Statement(s.ledger, resources, withdrawals)])
  }

  /** The records that come of a pass over all live records in key order, and who is left. */
  ghost predicate WorkedOut(s: State, s': State, before: Ledgers, work: seq<Key>, policyOf: Record -> Policy, now: int,
                            left: set<Key>)
  {
    && Ascending(work) && (forall k :: k in work <==> k in LiveKeys(s.records))
    && var p := Passed(Pass(s, {}, IdSet(LiveKeys(s.records))), before, work, true, policyOf, now);
       left == p.left && s'.records == p.state.records && s'.current == p.state.current
  }

  lemma PassRecords(s: State, s': State, before: Ledgers, work: seq<Key>, policyOf: Record -> Policy, now: int,
                    left: set<Key>, pending: set<Identity>)
    requires Ascending(work) && forall k :: k in work <==> k in LiveKeys(s.records)
    requires Pass(s', left, pending)
             == Passed(Pass(s, {}, IdSet(LiveKeys(s.records))), before, work, true, policyOf, now)
    ensures WorkedOut(s, s', before, work, policyOf, now, left)
  {
    hide Passed;
  }

  lemma WorkedOutSame(s: State, s': State, s'': State, before: Ledgers, work: seq<Key>, policyOf: Record -> Policy,
                      now: int, left: set<Key>)
    requires WorkedOut(s, s', before, work, policyOf, now, left) && s''.records == s'.records
             && s''.current == s'.current
    ensures WorkedOut(s, s'', before, work, policyOf, now, left)
  {
    hide Passed;
  }
}

/** Index entries, the claims they make on a resource, and the load those add up to. */
module Entries {
  import opened Timeline
  import opened Claims

  type Identity = nat
  type ResourceName = string

  /** Lexicographic order of names. */
  predicate NameLess(a: ResourceName, b: ResourceName)
    decreases |a|
  {
    b != [] && (a == [] || a[0] < b[0] || (a[0] == b[0] && NameLess(a[1..], b[1..])))
  }

  lemma {:induction false} NameLessTrans(a: ResourceName, b: ResourceName, c: ResourceName)
    requires NameLess(a, b) && NameLess(b, c)
    ensures NameLess(a, c)
    decreases |a|
  {
    if a != [] && a[0] == b[0] && b[0] == c[0] {
      NameLessTrans(a[1..], b[1..], c[1..]);
    }
  }

  lemma {:induction false} NameLessTotal(a: ResourceName, b: ResourceName)
    requires a != b
    ensures NameLess(a, b) || NameLess(b, a)
    decreases |a|
  {
    if a != [] && b != [] && a[0] == b[0] {
      assert a == [a[0]] + a[1..] && b == [b[0]] + b[1..];
      NameLessTotal(a[1..], b[1..]);
    }
  }

  lemma {:induction false} NameNotLessItself(a: ResourceName)
    ensures !NameLess(a, a)
    decreases |a|
  {
    if a != [] { NameNotLessItself(a[1..]); }
  }

  /** A request may displace what stands before it in this order. */
  datatype GuaranteeClass = Scavenger | Preemptible | Protected | Guaranteed {
    function Rank(): nat {
      match this
      case Scavenger => 0
      case Preemptible => 1
      case Protected => 2
      case Guaranteed => 3
    }
  }

  datatype HolderKind = Reservation | Hold

  datatype EntryKey = EntryKey(kind: HolderKind, id: Identity, resource: ResourceName)

  datatype IndexEntry = IndexEntry(kind: HolderKind, id: Identity, generation: nat, resource: ResourceName,
                                   interval: Interval, amount: int, guarantee: GuaranteeClass) {
    function Key(): EntryKey { EntryKey(kind, id, resource) }

    function Claim(): Claim { Claims.Claim(interval, amount) }

    predicate Wellformed() { !interval.Empty() && 0 < amount && resource != "" }
  }

  type Contents = map<EntryKey, IndexEntry>

  /** The three sums kept per resource. */
  datatype Account = Reserved | OnHold | Combined {
    predicate Includes(kind: HolderKind) {
      match this
      case Reserved => kind == Reservation
      case OnHold => kind == Hold
      case Combined => true
    }
  }

  ghost predicate Keyed(m: Contents) {
    forall k :: k in m ==> m[k].Key() == k && m[k].Wellformed()
  }

  /** The entries on one resource. */
  function On(m: Contents, resource: ResourceName): Contents {
    map k | k in m && k.resource == resource :: m[k]
  }

  function One(e: IndexEntry, account: Account): multiset<Claim> {
    if account.Includes(e.kind) then multiset{e.Claim()} else multiset{}
  }

  lemma OneTakenBack(x: multiset<Claim>, e: IndexEntry, account: Account)
    ensures !account.Includes(e.kind) ==> x + One(e, account) == x
    ensures account.Includes(e.kind) ==>
      e.Claim() in x + One(e, account) && x + One(e, account) - multiset{e.Claim()} == x
  {
  }

  /** Claims of the entries whose holder is of one of the given kinds. */
  ghost function ClaimsOf(m: Contents, account: Account): multiset<Claim>
    decreases |m|
  {
    if m == map[] then multiset{}
    else
      var k :| k in m;
      assert (m - {k}).Keys == m.Keys - {k};
      ClaimsOf(m - {k}, account) + One(m[k], account)
  }

  lemma {:induction false} ClaimsSplit(m: Contents, k: EntryKey, account: Account)
    requires k in m
    ensures ClaimsOf(m, account) == ClaimsOf(m - {k}, account) + One(m[k], account)
    decreases |m|
  {
    hide One;
    var d :| d in m && ClaimsOf(m, account) == ClaimsOf(m - {d}, account) + One(m[d], account);
    assert (m - {d}).Keys == m.Keys - {d} && (m - {k}).Keys == m.Keys - {k};
    if d != k {
      var base := ClaimsOf(m - {d} - {k}, account);
      ClaimsSplit(m - {d}, k, account);
      ClaimsSplit(m - {k}, d, account);
      assert m - {d} - {k} == m - {k} - {d};
      assert base + One(m[k], account) + One(m[d], account) == base + One(m[d], account) + One(m[k], account);
    }
  }

  lemma ClaimsPlus(m: Contents, e: IndexEntry, account: Account)
    requires e.Key() !in m
    ensures ClaimsOf(m[e.Key() := e], account) == ClaimsOf(m, account) + One(e, account)
  {
    ClaimsSplit(m[e.Key() := e], e.Key(), account);
    assert m[e.Key() := e] - {e.Key()} == m;
  }

  lemma OneWellformed(e: IndexEntry, account: Account)
    requires e.Wellformed()
    ensures forall c :: c in One(e, account) ==> !c.interval.Empty() && 0 < c.amount
  {
  }

  /** Wellformed entries make only non-empty, positive claims. */
  lemma {:induction false} ClaimsWellformed(m: Contents, account: Account)
    requires Keyed(m)
    ensures forall c :: c in ClaimsOf(m, account) ==> !c.interval.Empty() && 0 < c.amount
    decreases |m|
  {
    if m != map[] {
      var k :| k in m;
      ClaimsSplit(m, k, account);
      assert (m - {k}).Keys == m.Keys - {k};
      ClaimsWellformed(m - {k}, account);
      hide ClaimsOf;
      OneWellformed(m[k], account);
    }
  }

  /** Bandwidth that the selected entries take from `resource` at instant `t`. */
  ghost function LoadOn(m: Contents, resource: ResourceName, account: Account, t: int): int {
    Load(ClaimsOf(On(m, resource), account), t)
  }

  /** Reserved and held bandwidth add up to the combined bandwidth at every instant. */
  lemma {:induction false} CombinedIsSum(m: Contents, t: int)
    ensures Load(ClaimsOf(m, Combined), t) == Load(ClaimsOf(m, Reserved), t) + Load(ClaimsOf(m, OnHold), t)
    decreases |m|
  {
    if m != map[] {
      var k :| k in m;
      assert (m - {k}).Keys == m.Keys - {k};
      CombinedIsSum(m - {k}, t);
      LoadOfSplit(m, k, Combined, t);
      LoadOfSplit(m, k, Reserved, t);
      LoadOfSplit(m, k, OnHold, t);
    }
  }

  lemma LoadOfSplit(m: Contents, k: EntryKey, account: Account, t: int)
    requires k in m
    ensures Load(ClaimsOf(m, account), t) ==
            Load(ClaimsOf(m - {k}, account), t) + Weight(m[k], account, t)
  {
    ClaimsSplit(m, k, account);
    if account.Includes(m[k].kind) {
      LoadPlus(ClaimsOf(m - {k}, account), m[k].Claim(), t);
    } else {
      assert ClaimsOf(m, account) == ClaimsOf(m - {k}, account);
    }
  }

  lemma KeyedNonNegative(m: Contents, account: Account, t: int)
    requires Keyed(m)
    ensures NonNegative(ClaimsOf(m, account)) && 0 <= Load(ClaimsOf(m, account), t)
  {
    ClaimsWellformed(m, account);
    LoadNonNegative(ClaimsOf(m, account), t);
  }

  function Weight(e: IndexEntry, account: Account, t: int): int {
    if account.Includes(e.kind) then e.Claim().At(t) else 0
  }

  /** An entry set whose entries all weigh no more than another's puts on no more load. */
  lemma {:induction false} LoadDominated(a: Contents, b: Contents, account: Account, t: int)
    requires Keyed(b)
    requires forall k :: k in a && Weight(a[k], account, t) != 0 ==>
      k in b && Weight(a[k], account, t) <= Weight(b[k], account, t)
    ensures Load(ClaimsOf(a, account), t) <= Load(ClaimsOf(b, account), t)
    decreases |a|
  {
    if a == map[] {
      KeyedNonNegative(b, account, t);
    } else {
      var k :| k in a;
      assert (a - {k}).Keys == a.Keys - {k};
      LoadOfSplit(a, k, account, t);
      if Weight(a[k], account, t) == 0 {
        LoadDominated(a - {k}, b, account, t);
      } else {
        LoadOfSplit(b, k, account, t);
        LoadDominated(a - {k}, b - {k}, account, t);
      }
    }
  }

  /** Adding to a dominated set the one entry that covers the instant costs its amount at most. */
  lemma LoadPlusOne(a: Contents, b: Contents, k: EntryKey, account: Account, t: int)
    requires Keyed(b) && k in a
    requires forall j :: j in a && j != k && Weight(a[j], account, t) != 0 ==>
      j in b && Weight(a[j], account, t) <= Weight(b[j], account, t)
    ensures Load(ClaimsOf(a, account), t) <= Load(ClaimsOf(b, account), t) + Weight(a[k], account, t)
  {
    LoadOfSplit(a, k, account, t);
    LoadDominated(a - {k}, b, account, t);
  }
}

/** Amounts held over intervals, and the exact load they put on an instant. */
module Claims {
  import opened Timeline

  datatype Claim = Claim(interval: Interval, amount: int) {
    function At(t: int): int { if interval.Contains(t) then amount else 0 }
  }

  /** Total amount of the claims that cover instant `t`, counted with multiplicity. */
  ghost function Load(claims: multiset<Claim>, t: int): int {
    if claims == multiset{} then 0
    else
      var c :| c in claims;
      c.At(t) + Load(claims - multiset{c}, t)
  }

  lemma {:induction false} LoadSplit(claims: multiset<Claim>, c: Claim, t: int)
    requires c in claims
    ensures Load(claims, t) == c.At(t) + Load(claims - multiset{c}, t)
    decreases |claims|
  {
    var d :| d in claims && Load(claims, t) == d.At(t) + Load(claims - multiset{d}, t);
    if d != c {
      LoadSplit(claims - multiset{d}, c, t);
      LoadSplit(claims - multiset{c}, d, t);
      assert claims - multiset{d} - multiset{c} == claims - multiset{c} - multiset{d};
    }
  }

  lemma LoadPlus(claims: multiset<Claim>, c: Claim, t: int)
    ensures Load(claims + multiset{c}, t) == Load(claims, t) + c.At(t)
  {
    LoadSplit(claims + multiset{c}, c, t);
    assert claims + multiset{c} - multiset{c} == claims;
  }

  lemma LoadMinus(claims: multiset<Claim>, c: Claim, t: int)
    requires c in claims
    ensures Load(claims - multiset{c}, t) == Load(claims, t) - c.At(t)
  {
    LoadSplit(claims, c, t);
  }

  ghost predicate NonNegative(claims: multiset<Claim>) {
    forall c :: c in claims ==> 0 <= c.amount
  }

  lemma {:induction false} LoadNonNegative(claims: multiset<Claim>, t: int)
    requires NonNegative(claims)
    ensures 0 <= Load(claims, t)
    decreases |claims|
  {
    if claims != multiset{} {
      var c :| c in claims;
      LoadSplit(claims, c, t);
      LoadNonNegative(claims - multiset{c}, t);
    }
  }

  /** `peak` is attained inside the window and nothing inside the window is higher. */
  ghost predicate IsPeak(claims: multiset<Claim>, window: Interval, peak: int) {
    && (exists t :: window.Contains(t) && Load(claims, t) == peak)
    && (forall t :: window.Contains(t) ==> Load(claims, t) <= peak)
  }
}

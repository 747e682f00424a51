/** The load of a resource over time: its steps, and the instants at which its peak can be found. */
module Timelines {
  import opened Timeline
  import opened Claims
  import opened Entries

  datatype ChangePoint = ChangePoint(at: int, committed: int, held: int)

  /** The instants within a window at which an entry begins or ends to count. */
  ghost predicate MarksEntry(marks: seq<int>, e: IndexEntry, window: Interval) {
    e.interval.Overlaps(window) ==>
      && Max(e.interval.start, window.start) in marks
      && Min(e.interval.end, window.end) in marks
  }

  /** Two instants without a mark after the first and up to the second carry the same. */
  lemma SameBetween(m: Contents, marks: seq<int>, window: Interval, account: Account, p: int, t: int)
    requires Keyed(m) && forall k :: k in m ==> MarksEntry(marks, m[k], window)
    requires window.Contains(p) && window.Contains(t) && p <= t && forall x :: x in marks ==> !(p < x <= t)
    ensures Load(ClaimsOf(m, account), p) == Load(ClaimsOf(m, account), t)
  {
    forall k | k in m ensures Weight(m[k], account, p) == Weight(m[k], account, t) {
      assert MarksEntry(marks, m[k], window);
    }
    hide MarksEntry, Keyed;
    SameWeights(m, account, p, t);
  }

  lemma {:induction false} SameWeights(m: Contents, account: Account, p: int, t: int)
    requires forall k :: k in m ==> Weight(m[k], account, p) == Weight(m[k], account, t)
    ensures Load(ClaimsOf(m, account), p) == Load(ClaimsOf(m, account), t)
    decreases |m|
  {
    if m != map[] {
      var k :| k in m;
      assert (m - {k}).Keys == m.Keys - {k};
      LoadOfSplit(m, k, account, p);
      LoadOfSplit(m, k, account, t);
      SameWeights(m - {k}, account, p, t);
    }
  }

  /** The instants in ascending order, each once. */
  method SortUnique(s: seq<int>) returns (r: seq<int>)
    ensures Rising(r) && forall x :: x in r <==> x in s
  {
    r := [];
    var n := 0;
    while n < |s|
      invariant n <= |s| && Rising(r) && forall x :: x in r <==> x in s[..n]
    {
      var i := 0;
      while i < |r| && r[i] < s[n]
        invariant i <= |r| && forall j :: 0 <= j < i ==> r[j] < s[n]
      {
        i := i + 1;
      }
      assert s[..n + 1] == s[..n] + [s[n]];
      if i == |r| || r[i] != s[n] {
        InsertedRises(r, i, s[n]);
        r := r[..i] + [s[n]] + r[i..];
      } else {
        assert s[n] in r;
      }
      n := n + 1;
    }
    assert s[..n] == s;
  }

  lemma InsertedRises(r: seq<int>, i: nat, x: int)
    requires Rising(r) && i <= |r| && (forall j :: 0 <= j < i ==> r[j] < x) && (i < |r| ==> x < r[i])
    ensures var s := r[..i] + [x] + r[i..]; Rising(s) && forall y :: y in s <==> y in r || y == x
  {
    var s := r[..i] + [x] + r[i..];
    assert r == r[..i] + r[i..];
    forall a, b | 0 <= a < b < |s| ensures s[a] < s[b] {
      if a < i < b { assert s[b] == r[b - 1]; }
    }
  }

  /** The last of the rising instants that is not after `t`. */
  lemma LastBefore(r: seq<int>, t: int) returns (i: nat)
    requires Rising(r) && r != [] && r[0] <= t
    ensures i < |r| && r[i] <= t && (i + 1 < |r| ==> t < r[i + 1])
    ensures forall x :: x in r ==> !(r[i] < x <= t)
  {
    i := 0;
    while i + 1 < |r| && r[i + 1] <= t
      invariant i < |r| && r[i] <= t
    {
      i := i + 1;
    }
    forall x | x in r ensures !(r[i] < x <= t) {
      var j :| 0 <= j < |r| && r[j] == x;
      if j > i + 1 { assert r[i + 1] < r[j]; }
    }
  }

  /** Each point tells what is committed and held at its instant. */
  ghost predicate Exact(points: seq<ChangePoint>, m: Contents, window: Interval) {
    && (forall i, j :: 0 <= i < j < |points| ==> points[i].at < points[j].at)
    && forall i :: 0 <= i < |points| ==>
         && window.Contains(points[i].at)
         && (HORIZON.Contains(points[i].at) ==>
               points[i].committed == Load(ClaimsOf(m, Reserved), points[i].at)
                   && points[i].held == Load(ClaimsOf(m, OnHold), points[i].at))
  }

  /** The last point at or before each instant tells what is committed and held there. */
  ghost predicate StepFunction(points: seq<ChangePoint>, m: Contents, window: Interval) {
    forall t :: window.Contains(t) && HORIZON.Contains(t) ==> exists i :: StepAt(points, m, i, t)
  }

  ghost predicate StepAt(points: seq<ChangePoint>, m: Contents, i: int, t: int) {
    && 0 <= i < |points| && points[i].at <= t && (i + 1 < |points| ==> t < points[i + 1].at)
    && points[i].committed == Load(ClaimsOf(m, Reserved), t) && points[i].held == Load(ClaimsOf(m, OnHold), t)
  }

  lemma NoPoints(m: Contents, window: Interval)
    ensures Exact([], m, window)
  {
  }

  lemma BoundariesMark(m: Contents, marks: seq<int>, instants: seq<int>, window: Interval)
    requires (forall x :: x in instants <==> x in marks) && forall k :: k in m ==> MarksEntry(marks, m[k], window)
    ensures forall k :: k in m ==> MarksEntry(instants, m[k], window)
  {
  }

  /** Points at all marks within the window are the steps. */
  lemma PointsAreSteps(points: seq<ChangePoint>, marks: seq<int>, m: Contents, window: Interval)
    requires Keyed(m) && Rising(marks) && window.start in marks && 0 <= window.start && !window.Empty()
    requires forall k :: k in m ==> MarksEntry(marks, m[k], window)
    requires forall x :: x in marks ==> window.start <= x
    requires Exact(points, m, window) && forall x :: x in marks && window.Contains(x) <==>
      exists i :: 0 <= i < |points| && points[i].at == x
    ensures StepFunction(points, m, window)
  {
    hide MarksEntry, Keyed, ClaimsOf, Load;
    var ats := seq(|points|, i requires 0 <= i < |points| => points[i].at);
    var first :| 0 <= first < |points| && points[first].at == window.start;
    assert points[0].at <= points[first].at;
    forall t | window.Contains(t) && HORIZON.Contains(t) ensures exists i :: StepAt(points, m, i, t) {
      var i := LastBefore(ats, t);
      forall x | x in marks ensures !(ats[i] < x <= t) {
        if window.Contains(x) {
          var j :| 0 <= j < |points| && points[j].at == x;
          assert ats[j] in ats;
        }
      }
      SameBetween(m, marks, window, Reserved, ats[i], t);
      SameBetween(m, marks, window, OnHold, ats[i], t);
      assert StepAt(points, m, i, t);
    }
  }

  // ---------------------------------------------------------------------------
  // Where a peak can be found
  // ---------------------------------------------------------------------------

  /** Sum of the claims that cover an instant, one after the other. */
  lemma OneMoreClaim(claims: seq<Claim>, i: nat)
    requires i < |claims|
    ensures multiset(claims[..i + 1]) == multiset(claims[..i]) + multiset{claims[i]}
  {
    assert claims[..i + 1] == claims[..i] + [claims[i]];
  }

  method SumAt(claims: seq<Claim>, t: int) returns (sum: int)
    ensures sum == Load(multiset(claims), t)
  {
    sum := 0;
    assert Load(multiset(claims[..0]), t) == 0;
    hide Load;
    var i := 0;
    while i < |claims|
      invariant i <= |claims| && sum == Load(multiset(claims[..i]), t)
    {
      OneMoreClaim(claims, i);
      LoadPlus(multiset(claims[..i]), claims[i], t);
      if claims[i].interval.Contains(t) { sum := sum + claims[i].amount; }
      i := i + 1;
    }
    assert claims[..i] == claims;
  }

  /** Sampling at the starts of the claims alone finds the highest load there is at any instant. */
  method SampledPeak(claims: seq<Claim>) returns (brute: int)
    requires NonNegative(multiset(claims))
    ensures forall t :: Load(multiset(claims), t) <= brute
    ensures brute == 0 || exists i :: 0 <= i < |claims| && Load(multiset(claims), claims[i].interval.start) == brute
  {
    hide Load;
    var starts: seq<int> := [];
    var n := 0;
    while n < |claims|
      invariant n <= |claims| && |starts| == n && forall j :: 0 <= j < n ==> starts[j] == claims[j].interval.start
    {
      starts := starts + [claims[n].interval.start];
      n := n + 1;
    }
    var samples := SortUnique(starts);
    brute := 0;
    var i := 0;
    while i < |samples|
      invariant i <= |samples| && 0 <= brute && forall j :: 0 <= j < i ==> Load(multiset(claims), samples[j]) <= brute
      invariant brute == 0 || exists j :: 0 <= j < |claims| && Load(multiset(claims), claims[j].interval.start) == brute
    {
      var sum := SumAt(claims, samples[i]);
      assert samples[i] in starts;
      if sum > brute { brute := sum; }
      i := i + 1;
    }
    forall t ensures Load(multiset(claims), t) <= brute {
      var x := StartAttains(claims, t);
      if x.Some? {
        assert claims[x.value].interval.start == starts[x.value] && starts[x.value] in samples;
      }
    }
  }

  /** The latest start among the claims that cover an instant carries at least as much as that instant. */
  lemma StartAttains(claims: seq<Claim>, t: int) returns (x: Option<nat>)
    requires NonNegative(multiset(claims))
    ensures x.None? ==> Load(multiset(claims), t) <= 0
    ensures x.Some? ==>
      x.value < |claims| && Load(multiset(claims), t) <= Load(multiset(claims), claims[x.value].interval.start)
  {
    x := None;
    var i := 0;
    while i < |claims|
      invariant i <= |claims|
      invariant x.None? ==> forall j :: 0 <= j < i ==> !claims[j].interval.Contains(t)
      invariant x.Some? ==> x.value < i && claims[x.value].interval.Contains(t)
      invariant x.Some? ==> forall j :: 0 <= j < i && claims[j].interval.Contains(t) ==>
        claims[j].interval.start <= claims[x.value].interval.start
    {
      if claims[i].interval.Contains(t) && (x.None? || claims[i].interval.start > claims[x.value].interval.start) {
        x := Some(i);
      }
      i := i + 1;
    }
    if x.None? {
      AllUncovered(multiset(claims), t);
    } else {
      LoadAtStart(multiset(claims), claims[x.value].interval.start, t);
    }
  }

  lemma {:induction false} AllUncovered(claims: multiset<Claim>, t: int)
    requires forall c :: c in claims ==> !c.interval.Contains(t)
    ensures Load(claims, t) == 0
    decreases |claims|
  {
    if claims != multiset{} {
      var c :| c in claims;
      LoadSplit(claims, c, t);
      AllUncovered(claims - multiset{c}, t);
    }
  }

  lemma {:induction false} LoadAtStart(claims: multiset<Claim>, start: int, t: int)
    requires NonNegative(claims) && start <= t && forall c :: c in claims && c.interval.Contains(t) ==>
      c.interval.start <= start
    ensures Load(claims, t) <= Load(claims, start)
    decreases |claims|
  {
    if claims != multiset{} {
      var c :| c in claims;
      LoadSplit(claims, c, t);
      LoadSplit(claims, c, start);
      LoadAtStart(claims - multiset{c}, start, t);
    }
  }

  /** On claims that begin on the timeline the sampled peak is the exact peak over the horizon. */
  lemma SampledIsPeak(claims: multiset<Claim>, starts: seq<int>, brute: int)
    requires NonNegative(claims) && forall t :: Load(claims, t) <= brute
    requires forall c :: c in claims ==> 0 <= c.interval.start
    requires brute == 0 || exists i ::
             0 <= i < |starts| && HORIZON.Contains(starts[i]) && Load(claims, starts[i]) == brute
    ensures IsPeak(claims, HORIZON, brute)
  {
    if brute == 0 {
      LoadNonNegative(claims, 0);
      assert HORIZON.Contains(0);
    }
  }

  /** The peak of a single instant is the load there. */
  lemma InstantPeak(claims: multiset<Claim>, t: int, r: int)
    requires HORIZON.Contains(t) ==> IsPeak(claims, Interval(t, t + 1), r)
    ensures HORIZON.Contains(t) ==> r == Load(claims, t)
  {
    hide Load;
  }
}

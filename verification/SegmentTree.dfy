/**
 How one accumulator answers for the largest sum over a window: a tree over the timeline
 that is grown where it is written. Its nodes live in a vector in which index 0 stands for
 a missing child; amounts wait at the highest node they cover until a write passes through.
 */
module SegmentTree {
  import opened Timeline
  import opened Claims

  /** Saturation ceiling of index arithmetic, 2^62. */
  const SATURATION: int := 0x4000_0000_0000_0000

  /** Marks "the window misses this range". */
  const NO_VALUE: int := -0x8000_0000_0000_0000

  function SaturatingAdd(a: int, b: int): int {
    if b > 0 && a > SATURATION - b then SATURATION
    else if b < 0 && a < -SATURATION - b then -SATURATION
    else a + b
  }

  function Mid(lo: int, hi: int): int { lo + (hi - lo) / 2 }

  // ---------------------------------------------------------------------------
  // The tree as a value
  // ---------------------------------------------------------------------------

  datatype Tree = Absent | Branch(max: int, pending: int, left: Tree, right: Tree)

  const FRESH: Tree := Branch(0, 0, Absent, Absent)

  /** The amount the subtree over `[lo, hi)` stores for instant `x`. */
  ghost function Value(t: Tree, lo: int, hi: int, x: int): int
    decreases t
  {
    if t.Absent? then 0
    else
      var mid := Mid(lo, hi);
      t.pending + if x < mid then Value(t.left, lo, mid, x) else Value(t.right, mid, hi, x)
  }

  ghost predicate InRange(t: Tree, lo: int, hi: int) {
    forall x :: lo <= x < hi ==> 0 <= Value(t, lo, hi, x) <= SATURATION
  }

  /**
   A subtree is sound when children come in pairs, unit ranges are leaves, `max`
   summarises the children, and every value stored below stays in
   `[0, SATURATION]`. The last clause is what keeps saturation from firing.
   */
  ghost predicate Sound(t: Tree, lo: int, hi: int)
    decreases t
  {
    lo < hi &&
    (t.Branch? ==>
      && (t.left.Absent? <==> t.right.Absent?)
      && (t.left.Branch? ==> lo + 1 < hi && Sound(t.left, lo, Mid(lo, hi)) && Sound(t.right, Mid(lo, hi), hi))
      && t.max == t.pending + (if t.left.Absent? then 0 else Max(t.left.max, t.right.max))
      && InRange(t, lo, hi))
  }

  ghost predicate Attains(t: Tree, lo: int, hi: int, x: int)
    requires t.Branch?
  {
    lo <= x < hi && Value(t, lo, hi, x) == t.max
  }

  /** `max` is the exact maximum of the stored values. */
  lemma {:induction false} MaxIsAttained(t: Tree, lo: int, hi: int)
    requires t.Branch? && Sound(t, lo, hi)
    ensures exists x :: Attains(t, lo, hi, x)
    ensures forall y :: lo <= y < hi ==> Value(t, lo, hi, y) <= t.max
    ensures 0 <= t.max <= SATURATION
    decreases t
  {
    var mid := Mid(lo, hi);
    if t.left.Absent? {
      assert Attains(t, lo, hi, lo);
    } else {
      MaxIsAttained(t.left, lo, mid);
      MaxIsAttained(t.right, mid, hi);
      if t.left.max < t.right.max {
        var x :| Attains(t.right, mid, hi, x);
        assert Attains(t, lo, hi, x);
      } else {
        var x :| Attains(t.left, lo, mid, x);
        assert Attains(t, lo, hi, x);
      }
    }
  }

  /** A missing child becomes a zero node; a present one is kept. */
  function Materialized(t: Tree): (r: Tree)
    ensures r.Branch?
  {
    if t.Absent? then FRESH else t
  }

  function Bumped(t: Tree, delta: int): Tree
    requires t.Branch?
  {
    t.(max := SaturatingAdd(t.max, delta), pending := SaturatingAdd(t.pending, delta))
  }

  /** A child after it was allocated and took over its parent's pending amount. */
  function PushedInto(child: Tree, carry: int): (t: Tree)
    ensures t.Branch?
  {
    if carry != 0 then Bumped(Materialized(child), carry) else Materialized(child)
  }

  /** What a write over `[ql, qr)` makes of the subtree over `[lo, hi)`. */
  ghost function Added(t: Tree, lo: int, hi: int, ql: int, qr: int, delta: int): (r: Tree)
    requires t.Branch? && ql < qr && lo < hi
    ensures r.Branch?
    decreases hi - lo
  {
    if qr <= lo || hi <= ql then t
    else if ql <= lo && hi <= qr then Bumped(t, delta)
    else
      var mid := Mid(lo, hi);
      var l := Added(PushedInto(t.left, t.pending), lo, mid, ql, qr, delta);
      var r := Added(PushedInto(t.right, t.pending), mid, hi, ql, qr, delta);
      Branch(Max(l.max, r.max), 0, l, r)
  }

  /** The writes never saturate when the resulting values stay in range. */
  ghost predicate Fits(t: Tree, lo: int, hi: int, ql: int, qr: int, delta: int) {
    forall x :: lo <= x < hi && ql <= x < qr ==> 0 <= Value(t, lo, hi, x) + delta <= SATURATION
  }

  lemma BumpedSound(t: Tree, lo: int, hi: int, delta: int)
    requires t.Branch? && Sound(t, lo, hi) && Fits(t, lo, hi, lo, hi, delta)
    ensures Sound(Bumped(t, delta), lo, hi)
    ensures forall x :: lo <= x < hi ==> Value(Bumped(t, delta), lo, hi, x) == Value(t, lo, hi, x) + delta
  {
    MaxIsAttained(t, lo, hi);
    if t.left.Branch? {
      MaxIsAttained(t.left, lo, Mid(lo, hi));
      var y :| Attains(t.left, lo, Mid(lo, hi), y);
      assert Value(t, lo, hi, y) == t.pending + t.left.max;
      assert Bumped(t, delta).pending == t.pending + delta;
    } else {
      assert Value(t, lo, hi, lo) == t.pending;
      assert Bumped(t, delta).pending == t.pending + delta;
    }
    assert forall z :: lo <= z < hi ==> Value(Bumped(t, delta), lo, hi, z) == Value(t, lo, hi, z) + delta;
  }

  /** Pushing the pending amount down leaves every stored value where it was. */
  lemma PushedIntoSound(t: Tree, lo: int, hi: int)
    requires t.Branch? && Sound(t, lo, hi) && lo + 1 < hi
    ensures var mid := Mid(lo, hi);
            && Sound(PushedInto(t.left, t.pending), lo, mid)
            && Sound(PushedInto(t.right, t.pending), mid, hi)
            && (forall x :: lo <= x < mid ==> Value(PushedInto(t.left, t.pending), lo, mid, x) == Value(t, lo, hi, x))
            && (forall x :: mid <= x < hi ==> Value(PushedInto(t.right, t.pending), mid, hi, x) == Value(t, lo, hi, x))
  {
    var mid := Mid(lo, hi);
    var l, r := Materialized(t.left), Materialized(t.right);
    assert Sound(l, lo, mid) && Sound(r, mid, hi);
    assert forall x :: lo <= x < mid ==> Value(t, lo, hi, x) == t.pending + Value(l, lo, mid, x);
    assert forall x :: mid <= x < hi ==> Value(t, lo, hi, x) == t.pending + Value(r, mid, hi, x);
    BumpedSound(l, lo, mid, t.pending);
    BumpedSound(r, mid, hi, t.pending);
  }

  lemma FitsBelow(t: Tree, lo: int, hi: int, ql: int, qr: int, delta: int)
    requires t.Branch? && Sound(t, lo, hi) && lo + 1 < hi && Fits(t, lo, hi, ql, qr, delta)
    ensures Fits(PushedInto(t.left, t.pending), lo, Mid(lo, hi), ql, qr, delta)
    ensures Fits(PushedInto(t.right, t.pending), Mid(lo, hi), hi, ql, qr, delta)
  {
    PushedIntoSound(t, lo, hi);
  }

  /** A range write adds `delta` on the written instants and nowhere else. */
  lemma {:induction false} AddedSound(t: Tree, lo: int, hi: int, ql: int, qr: int, delta: int)
    requires t.Branch? && ql < qr && Sound(t, lo, hi) && Fits(t, lo, hi, ql, qr, delta)
    ensures Sound(Added(t, lo, hi, ql, qr, delta), lo, hi)
    ensures forall x :: lo <= x < hi ==>
      Value(Added(t, lo, hi, ql, qr, delta), lo, hi, x) == Value(t, lo, hi, x) + (if ql <= x < qr then delta else 0)
    decreases hi - lo
  {
    if qr <= lo || hi <= ql {
    } else if ql <= lo && hi <= qr {
      BumpedSound(t, lo, hi, delta);
    } else {
      var mid := Mid(lo, hi);
      PushedIntoSound(t, lo, hi);
      var pl, pr := PushedInto(t.left, t.pending), PushedInto(t.right, t.pending);
      AddedSound(pl, lo, mid, ql, qr, delta);
      AddedSound(pr, mid, hi, ql, qr, delta);
      var l, r := Added(pl, lo, mid, ql, qr, delta), Added(pr, mid, hi, ql, qr, delta);
      var t' := Added(t, lo, hi, ql, qr, delta);
      assert t' == Branch(Max(l.max, r.max), 0, l, r);
      assert forall x :: lo <= x < hi ==>
        Value(t', lo, hi, x) == (if x < mid then Value(l, lo, mid, x) else Value(r, mid, hi, x));
      assert InRange(t', lo, hi);
    }
  }

  // ---------------------------------------------------------------------------
  // The tree in its node vector
  // ---------------------------------------------------------------------------

  datatype Node = Node(max: int, pending: int, left: nat, right: nat)

  const EMPTY_NODE := Node(0, 0, 0, 0)

  /** The vector positions the subtree at `i` occupies. */
  ghost function Owned(nodes: seq<Node>, i: nat, t: Tree): set<nat>
    decreases t
  {
    if t.Absent? || |nodes| <= i then {}
    else {i} + Owned(nodes, nodes[i].left, t.left) + Owned(nodes, nodes[i].right, t.right)
  }

  /** Position `i` of the vector stores tree `t`, and no position is shared. */
  ghost predicate Represents(nodes: seq<Node>, i: nat, t: Tree)
    decreases t
  {
    if t.Absent? then i == 0
    else
      && 0 < i < |nodes|
      && nodes[i].max == t.max && nodes[i].pending == t.pending
      && Represents(nodes, nodes[i].left, t.left)
      && Represents(nodes, nodes[i].right, t.right)
      && i !in Owned(nodes, nodes[i].left, t.left)
      && i !in Owned(nodes, nodes[i].right, t.right)
      && Owned(nodes, nodes[i].left, t.left) !! Owned(nodes, nodes[i].right, t.right)
  }

  ghost predicate Agree(before: seq<Node>, after: seq<Node>, positions: set<nat>) {
    |before| <= |after| && forall k :: k in positions && k < |before| ==> after[k] == before[k]
  }

  lemma {:induction false} OwnedInBounds(nodes: seq<Node>, i: nat, t: Tree)
    requires Represents(nodes, i, t)
    ensures forall k :: k in Owned(nodes, i, t) ==> 0 < k < |nodes|
    decreases t
  {
    if t.Branch? {
      OwnedInBounds(nodes, nodes[i].left, t.left);
      OwnedInBounds(nodes, nodes[i].right, t.right);
    }
  }

  lemma TopOwned(nodes: seq<Node>, i: nat, t: Tree)
    requires t.Branch? && Represents(nodes, i, t)
    ensures i in Owned(nodes, i, t)
  {
  }

  /** A write elsewhere does not disturb a subtree. */
  lemma {:induction false} Undisturbed(before: seq<Node>, after: seq<Node>, i: nat, t: Tree)
    requires Represents(before, i, t) && Agree(before, after, Owned(before, i, t))
    ensures Represents(after, i, t) && Owned(after, i, t) == Owned(before, i, t)
    decreases t
  {
    if t.Branch? {
      Undisturbed(before, after, before[i].left, t.left);
      Undisturbed(before, after, before[i].right, t.right);
    }
  }

  function BumpedNode(n: Node, delta: int): Node {
    n.(max := SaturatingAdd(n.max, delta), pending := SaturatingAdd(n.pending, delta))
  }

  lemma BumpRepresents(nodes: seq<Node>, i: nat, t: Tree, delta: int)
    requires t.Branch? && Represents(nodes, i, t)
    ensures var after := nodes[i := BumpedNode(nodes[i], delta)];
            && Represents(after, i, Bumped(t, delta))
            && Owned(after, i, Bumped(t, delta)) == Owned(nodes, i, t)
  {
    var after := nodes[i := BumpedNode(nodes[i], delta)];
    Undisturbed(nodes, after, nodes[i].left, t.left);
    Undisturbed(nodes, after, nodes[i].right, t.right);
  }

  /** A write turned `t` at `i` into `t'`, using only its own positions and new ones. */
  ghost predicate Wrote(before: seq<Node>, after: seq<Node>, i: nat, t: Tree, t': Tree) {
    && |before| <= |after|
    && Represents(after, i, t')
    && (forall k :: k in Owned(after, i, t') ==> k in Owned(before, i, t) || |before| <= k)
    && (forall k :: 0 <= k < |before| && k !in Owned(before, i, t) ==> after[k] == before[k])
  }

  /** Two subtrees hang below node `i` and share nothing with it or each other. */
  ghost predicate Apart(nodes: seq<Node>, i: nat, a: nat, ta: Tree, b: nat, tb: Tree) {
    && i < |nodes|
    && Represents(nodes, a, ta) && Represents(nodes, b, tb)
    && i !in Owned(nodes, a, ta) && i !in Owned(nodes, b, tb)
    && Owned(nodes, a, ta) !! Owned(nodes, b, tb)
  }

  /** Writing one subtree leaves its sibling and their parent alone. */
  lemma SiblingKept(before: seq<Node>, after: seq<Node>, i: nat, a: nat, ta: Tree, ta': Tree, b: nat, tb: Tree)
    requires Apart(before, i, a, ta, b, tb) && Wrote(before, after, a, ta, ta')
    ensures Apart(after, i, a, ta', b, tb) && Owned(after, b, tb) == Owned(before, b, tb)
    ensures after[i] == before[i]
  {
    OwnedInBounds(before, b, tb);
    Undisturbed(before, after, b, tb);
  }

  lemma ParentClosed(nodes: seq<Node>, i: nat, l: Tree, r: Tree)
    requires l.Branch? && r.Branch? && 0 < i < |nodes| && nodes[i].pending == 0
    requires Apart(nodes, i, nodes[i].left, l, nodes[i].right, r)
    ensures var top := Branch(Max(l.max, r.max), 0, l, r);
            var after := nodes[i := nodes[i].(max := Max(nodes[nodes[i].left].max, nodes[nodes[i].right].max))];
            && Represents(after, i, top)
            && Owned(after, i, top) == {i} + Owned(nodes, nodes[i].left, l) + Owned(nodes, nodes[i].right, r)
  {
    var after := nodes[i := nodes[i].(max := Max(nodes[nodes[i].left].max, nodes[nodes[i].right].max))];
    Undisturbed(nodes, after, nodes[i].left, l);
    Undisturbed(nodes, after, nodes[i].right, r);
  }

  // ---------------------------------------------------------------------------
  // Reads
  // ---------------------------------------------------------------------------

  /** Every instant of `[lo, hi)` reads in range once the carry from above is added. */
  ghost predicate CarryFits(t: Tree, lo: int, hi: int, carry: int) {
    && -SATURATION <= carry <= SATURATION
    && (forall x :: lo <= x < hi ==> 0 <= carry + Value(t, lo, hi, x) <= SATURATION)
  }

  /** `r` is the highest `carry + Value` over the instants `[lo, hi)` shares with `[ql, qr)`. */
  ghost predicate PeakOf(t: Tree, lo: int, hi: int, ql: int, qr: int, carry: int, r: int) {
    && (exists x :: lo <= x < hi && ql <= x < qr && carry + Value(t, lo, hi, x) == r)
    && (forall x :: lo <= x < hi && ql <= x < qr ==> carry + Value(t, lo, hi, x) <= r)
  }

  lemma CarryDown(t: Tree, lo: int, hi: int, carry: int)
    requires t.Branch? && Sound(t, lo, hi) && lo + 1 < hi && CarryFits(t, lo, hi, carry)
    ensures var mid := Mid(lo, hi);
            var down := SaturatingAdd(carry, t.pending);
            && down == carry + t.pending
            && CarryFits(t.left, lo, mid, down)
            && CarryFits(t.right, mid, hi, down)
  {
    var mid := Mid(lo, hi);
    assert carry + Value(t, lo, hi, lo) == carry + t.pending + Value(t.left, lo, mid, lo);
    assert 0 <= Value(t.left, lo, mid, lo) <= SATURATION;
    forall x | lo <= x < mid
      ensures 0 <= carry + t.pending + Value(t.left, lo, mid, x) <= SATURATION
    {
      assert 0 <= carry + Value(t, lo, hi, x) <= SATURATION;
    }
    forall x | mid <= x < hi
      ensures 0 <= carry + t.pending + Value(t.right, mid, hi, x) <= SATURATION
    {
      assert 0 <= carry + Value(t, lo, hi, x) <= SATURATION;
    }
  }

  lemma PeakJoins(t: Tree, lo: int, hi: int, ql: int, qr: int, carry: int, l: int, r: int)
    requires t.Branch? && Sound(t, lo, hi) && lo + 1 < hi
    requires ql < hi && lo < qr
    requires var mid := Mid(lo, hi);
             if qr <= lo || mid <= ql then l == NO_VALUE
             else PeakOf(t.left, lo, mid, ql, qr, carry + t.pending, l) && 0 <= l
    requires var mid := Mid(lo, hi);
             if qr <= mid || hi <= ql then r == NO_VALUE
             else PeakOf(t.right, mid, hi, ql, qr, carry + t.pending, r) && 0 <= r
    requires ql < qr
    ensures PeakOf(t, lo, hi, ql, qr, carry, Max(l, r))
  {
    var mid := Mid(lo, hi);
    if mid <= ql || l < r {
      var x :| mid <= x < hi && ql <= x < qr && carry + t.pending + Value(t.right, mid, hi, x) == r;
      assert carry + Value(t, lo, hi, x) == r;
    } else {
      var x :| lo <= x < mid && ql <= x < qr && carry + t.pending + Value(t.left, lo, mid, x) == l;
      assert carry + Value(t, lo, hi, x) == l;
    }
    forall x | lo <= x < hi && ql <= x < qr
      ensures carry + Value(t, lo, hi, x) <= Max(l, r)
    {
      if x < mid {
        assert carry + t.pending + Value(t.left, lo, mid, x) <= l;
      } else {
        assert carry + t.pending + Value(t.right, mid, hi, x) <= r;
      }
    }
  }

  /** Range maximum. A missing subtree still owes the amount pending above it. */
  function Query(nodes: seq<Node>, i: nat, ghost t: Tree, lo: int, hi: int, ql: int, qr: int, carry: int): (r: int)
    requires Represents(nodes, i, t) && Sound(t, lo, hi) && ql < qr && CarryFits(t, lo, hi, carry)
    ensures if qr <= lo || hi <= ql then r == NO_VALUE else PeakOf(t, lo, hi, ql, qr, carry, r) && 0 <= r <= SATURATION
    decreases t
  {
    if qr <= lo || hi <= ql then NO_VALUE
    else if i == 0 then
      assert carry + Value(t, lo, hi, Max(lo, ql)) == carry;
      carry
    else if ql <= lo && hi <= qr then
      MaxIsAttained(t, lo, hi);
      SaturatingAdd(carry, nodes[i].max)
    else
      var mid := lo + (hi - lo) / 2;
      CarryDown(t, lo, hi, carry);
      var next := SaturatingAdd(carry, nodes[i].pending);
      var l := Query(nodes, nodes[i].left, t.left, lo, mid, ql, qr, next);
      var r := Query(nodes, nodes[i].right, t.right, mid, hi, ql, qr, next);
      PeakJoins(t, lo, hi, ql, qr, carry, l, r);
      Max(l, r)
  }


  /** Stops at the first part of the window above the limit, yet agrees with `Query`. */
  predicate Exceeds(nodes: seq<Node>, i: nat, ghost t: Tree, lo: int, hi: int, ql: int, qr: int, carry: int, limit: int)
    requires Represents(nodes, i, t) && Sound(t, lo, hi) && ql < qr && CarryFits(t, lo, hi, carry)
    requires NO_VALUE <= limit
    ensures Exceeds(nodes, i, t, lo, hi, ql, qr, carry, limit) <==> Query(nodes, i, t, lo, hi, ql, qr, carry) > limit
    decreases t
  {
    if qr <= lo || hi <= ql then false
    else if i == 0 then carry > limit
    else if ql <= lo && hi <= qr then SaturatingAdd(carry, nodes[i].max) > limit
    else
      var mid := lo + (hi - lo) / 2;
      CarryDown(t, lo, hi, carry);
      var next := SaturatingAdd(carry, nodes[i].pending);
      || Exceeds(nodes, nodes[i].left, t.left, lo, mid, ql, qr, next, limit)
      || Exceeds(nodes, nodes[i].right, t.right, mid, hi, ql, qr, next, limit)
  }

  /** The part of a query window that lies on the timeline. */
  function Clipped(window: Interval): Interval {
    Interval(Max(window.start, 0), Min(window.end, MAX_TIMESTAMP_NS))
  }

  // ---------------------------------------------------------------------------
  // The accumulator
  // ---------------------------------------------------------------------------

  /** Peak capacity accounting for a multiset of claims over the whole timeline. */
  class IntervalCapacityIndex {
    var nodes: seq<Node>
    var liveIntervals: nat
    /** The claims added and not yet removed, and the tree the vector stores. */
    ghost var claims: multiset<Claim>
    ghost var tree: Tree

    ghost predicate Valid()
      reads this
    {
      && |nodes| >= 1
      && |claims| == liveIntervals
      && (forall c :: c in claims ==> !c.interval.Empty() && 0 < c.amount)
      && (if |nodes| == 1 then claims == multiset{} && tree == Absent else Mirrors())
    }

    /** The root over the timeline stores exactly the load of the claims. */
    ghost predicate Mirrors()
      reads `nodes, `tree, `claims
    {
      && Represents(nodes, 1, tree)
      && Sound(tree, 0, MAX_TIMESTAMP_NS)
      && forall x :: 0 <= x < MAX_TIMESTAMP_NS ==> Value(tree, 0, MAX_TIMESTAMP_NS, x) == Load(claims, x)
    }

    constructor ()
      ensures Valid() && claims == multiset{}
    {
      nodes := [EMPTY_NODE, EMPTY_NODE];
      liveIntervals := 0;
      claims := multiset{};
      tree := FRESH;
    }

    method MakeNode() returns (i: nat)
      modifies this`nodes
      ensures i == |old(nodes)| && nodes == old(nodes) + [EMPTY_NODE]
    {
      nodes := nodes + [EMPTY_NODE];
      i := |nodes| - 1;
    }

    /** Allocates the children a node lacks. */
    method MakeChildren(i: nat, ghost t: Tree)
      requires t.Branch? && Represents(nodes, i, t)
      requires t.left.Absent? <==> t.right.Absent?
      modifies this`nodes
      ensures |old(nodes)| <= |nodes| && 0 < i < |nodes| && nodes[i].pending == t.pending
      ensures Apart(nodes, i, nodes[i].left, Materialized(t.left), nodes[i].right, Materialized(t.right))
      ensures forall k :: (k in Owned(nodes, nodes[i].left, Materialized(t.left))
                           || k in Owned(nodes, nodes[i].right, Materialized(t.right))) ==>
                k in Owned(old(nodes), i, t) || |old(nodes)| <= k
      ensures forall k :: 0 <= k < |old(nodes)| && k != i ==> nodes[k] == old(nodes[k])
    {
      OwnedInBounds(nodes, i, t);
      if nodes[i].left == 0 {
        var l := MakeNode();
        nodes := nodes[i := nodes[i].(left := l)];
      }
      if nodes[i].right == 0 {
        var r := MakeNode();
        nodes := nodes[i := nodes[i].(right := r)];
      }
    }

    /** Bumps both subtrees below a node and clears what was pending there. */
    method HandDown(i: nat, ghost l: Tree, ghost r: Tree)
      requires l.Branch? && r.Branch? && 0 < i < |nodes| && Apart(nodes, i, nodes[i].left, l, nodes[i].right, r)
      modifies this`nodes
      ensures |nodes| == |old(nodes)| && nodes[i] == old(nodes[i]).(pending := 0)
      ensures var carry, left, right := old(nodes[i].pending), nodes[i].left, nodes[i].right;
              && Apart(nodes, i, left, Bumped(l, carry), right, Bumped(r, carry))
              && Owned(nodes, left, Bumped(l, carry)) == Owned(old(nodes), left, l)
              && Owned(nodes, right, Bumped(r, carry)) == Owned(old(nodes), right, r)
      ensures forall k :: 0 <= k < |nodes| && k != i && k != nodes[i].left && k != nodes[i].right ==>
        nodes[k] == old(nodes[k])
    {
      var left, right, carry := nodes[i].left, nodes[i].right, nodes[i].pending;
      ghost var n0 := nodes;
      BumpRepresents(n0, left, l, carry);
      Bump(left, carry);
      ghost var n1 := nodes;
      Undisturbed(n0, n1, right, r);
      BumpRepresents(n1, right, r, carry);
      Bump(right, carry);
      Undisturbed(n1, nodes, left, Bumped(l, carry));
      ghost var n2 := nodes;
      nodes := nodes[i := nodes[i].(pending := 0)];
      Undisturbed(n2, nodes, left, Bumped(l, carry));
      Undisturbed(n2, nodes, right, Bumped(r, carry));
    }

    /** Allocates both children and hands them the pending amount of node `i`. */
    method PushDown(i: nat, ghost t: Tree)
      requires t.Branch? && Represents(nodes, i, t)
      requires t.left.Absent? <==> t.right.Absent?
      modifies this`nodes
      ensures |old(nodes)| <= |nodes| && 0 < i < |nodes| && nodes[i].pending == 0
      ensures var l, r := PushedInto(t.left, t.pending), PushedInto(t.right, t.pending);
              && Apart(nodes, i, nodes[i].left, l, nodes[i].right, r)
              && (forall k :: k in Owned(nodes, nodes[i].left, l) + Owned(nodes, nodes[i].right, r) ==>
                    k in Owned(old(nodes), i, t) || |old(nodes)| <= k)
      ensures forall k :: 0 <= k < |old(nodes)| && k !in Owned(old(nodes), i, t) ==> nodes[k] == old(nodes[k])
    {
      TopOwned(nodes, i, t);
      MakeChildren(i, t);
      TopOwned(nodes, nodes[i].left, Materialized(t.left));
      TopOwned(nodes, nodes[i].right, Materialized(t.right));
      hide Represents, Owned;
      if nodes[i].pending != 0 {
        HandDown(i, Materialized(t.left), Materialized(t.right));
      }
    }

    method Bump(i: nat, delta: int)
      requires i < |nodes|
      modifies this`nodes
      ensures nodes == old(nodes)[i := BumpedNode(old(nodes[i]), delta)]
    {
      nodes := nodes[i := nodes[i].(max := SaturatingAdd(nodes[i].max, delta))];
      nodes := nodes[i := nodes[i].(pending := SaturatingAdd(nodes[i].pending, delta))];
    }

    /** The recursive range write over the vector refines `Added` on the tree. */
    method WriteRange(i: nat, lo: int, hi: int, ql: int, qr: int, delta: int, ghost t: Tree)
      requires t.Branch? && Represents(nodes, i, t) && Sound(t, lo, hi)
      requires ql < qr && Fits(t, lo, hi, ql, qr, delta)
      modifies this`nodes
      ensures Wrote(old(nodes), nodes, i, t, Added(t, lo, hi, ql, qr, delta))
      decreases hi - lo, 1
    {
      if qr <= lo || hi <= ql { return; }
      if ql <= lo && hi <= qr {
        BumpRepresents(nodes, i, t, delta);
        Bump(i, delta);
        return;
      }
      PushedIntoSound(t, lo, hi);
      FitsBelow(t, lo, hi, ql, qr, delta);
      PushDown(i, t);
      WriteChildren(i, lo, hi, ql, qr, delta, PushedInto(t.left, t.pending), PushedInto(t.right, t.pending));
    }

    /** Both halves of a partially covered range, then the parent's maximum. */
    method WriteChildren(i: nat, lo: int, hi: int, ql: int, qr: int, delta: int, ghost pl: Tree, ghost pr: Tree)
      requires lo + 1 < hi && ql < qr && pl.Branch? && pr.Branch?
      requires 0 < i < |nodes| && nodes[i].pending == 0 && Apart(nodes, i, nodes[i].left, pl, nodes[i].right, pr)
      requires Sound(pl, lo, Mid(lo, hi)) && Sound(pr, Mid(lo, hi), hi)
      requires Fits(pl, lo, Mid(lo, hi), ql, qr, delta) && Fits(pr, Mid(lo, hi), hi, ql, qr, delta)
      modifies this`nodes
      ensures var l, r := Added(pl, lo, Mid(lo, hi), ql, qr, delta), Added(pr, Mid(lo, hi), hi, ql, qr, delta);
              var top := Branch(Max(l.max, r.max), 0, l, r);
              && Represents(nodes, i, top)
              && (forall k :: k in Owned(nodes, i, top) ==>
                    || k == i || k in Owned(old(nodes), old(nodes[i].left), pl)
                    || k in Owned(old(nodes), old(nodes[i].right), pr) || |old(nodes)| <= k)
      ensures |old(nodes)| <= |nodes|
      ensures forall k :: (0 <= k < |old(nodes)| && k != i
                           && k !in Owned(old(nodes), old(nodes[i].left), pl)
                           && k !in Owned(old(nodes), old(nodes[i].right), pr)) ==> nodes[k] == old(nodes[k])
      decreases hi - lo, 0
    {
      var mid := lo + (hi - lo) / 2;
      var left, right := nodes[i].left, nodes[i].right;
      ghost var l, r := Added(pl, lo, mid, ql, qr, delta), Added(pr, mid, hi, ql, qr, delta);
      ghost var n0 := nodes;
      WriteRange(left, lo, mid, ql, qr, delta, pl);
      SiblingKept(n0, nodes, i, left, pl, l, right, pr);
      ghost var n1 := nodes;
      WriteRange(right, mid, hi, ql, qr, delta, pr);
      SiblingKept(n1, nodes, i, right, pr, r, left, l);
      ParentClosed(nodes, i, l, r);
      nodes := nodes[i := nodes[i].(max := Max(nodes[left].max, nodes[right].max))];
    }

    /** The accumulator takes one more claim. Saturation must stay out of reach. */
    method Add(interval: Interval, amount: int)
      requires Valid() && 0 <= amount
      requires forall x :: interval.Contains(x) && HORIZON.Contains(x) ==> Load(claims, x) + amount <= SATURATION
      modifies this
      ensures Valid()
      ensures claims == if interval.Empty() || amount == 0 then old(claims)
                        else old(claims) + multiset{Claim(interval, amount)}
    {
      if interval.Empty() || amount == 0 { return; }
      ghost var c := Claim(interval, amount);
      if |nodes| <= 1 {
        var root := MakeNode();
        tree := FRESH;
      }
      assert Mirrors();
      HeavierLoad(c);
      hide Load, Mirrors, Represents, Sound, Value;
      Shift(interval, amount, claims + multiset{c});
      liveIntervals := liveIntervals + 1;
    }

    /** The load with one more claim. */
    lemma HeavierLoad(c: Claim)
      requires Mirrors()
      ensures forall x :: 0 <= x < MAX_TIMESTAMP_NS ==>
        Load(claims + multiset{c}, x) == Load(claims, x) + c.At(x) && 0 <= Load(claims, x) <= SATURATION
    {
      hide Represents;
      forall x | 0 <= x < MAX_TIMESTAMP_NS
        ensures Load(claims + multiset{c}, x) == Load(claims, x) + c.At(x)
        ensures 0 <= Load(claims, x) <= SATURATION
      {
        LoadPlus(claims, c, x);
      }
    }

    /** Writes `delta` over the interval when that turns the load into `after`'s. */
    method Shift(interval: Interval, delta: int, ghost after: multiset<Claim>)
      requires |nodes| >= 2 && Mirrors() && !interval.Empty()
      requires forall x :: 0 <= x < MAX_TIMESTAMP_NS ==>
        && Load(after, x) == Load(claims, x) + (if interval.Contains(x) then delta else 0)
        && 0 <= Load(after, x) <= SATURATION
      modifies this`nodes, this`tree, this`claims
      ensures |nodes| >= 2 && Mirrors() && claims == after
    {
      AddedSound(tree, 0, MAX_TIMESTAMP_NS, interval.start, interval.end, delta);
      WriteRange(1, 0, MAX_TIMESTAMP_NS, interval.start, interval.end, delta, tree);
      tree := Added(tree, 0, MAX_TIMESTAMP_NS, interval.start, interval.end, delta);
      claims := after;
    }

    /** The load without one of the claims. */
    lemma LighterLoad(c: Claim)
      requires Valid() && Mirrors() && c in claims
      ensures forall x :: 0 <= x < MAX_TIMESTAMP_NS ==>
        && Load(claims - multiset{c}, x) == Load(claims, x) - c.At(x)
        && 0 <= Load(claims - multiset{c}, x) <= SATURATION
    {
      hide Represents;
      forall x | 0 <= x < MAX_TIMESTAMP_NS
        ensures Load(claims - multiset{c}, x) == Load(claims, x) - c.At(x)
        ensures 0 <= Load(claims - multiset{c}, x) <= SATURATION
      {
        LoadMinus(claims, c, x);
        LoadNonNegative(claims - multiset{c}, x);
      }
    }

    /** One matching claim leaves. When the last one does, the vector is reset. */
    method Remove(interval: Interval, amount: int)
      requires Valid()
      requires interval.Empty() || amount == 0 || Claim(interval, amount) in claims
      modifies this
      ensures Valid()
      ensures claims == if interval.Empty() || amount == 0 then old(claims)
                        else old(claims) - multiset{Claim(interval, amount)}
    {
      hide Load, Mirrors, Represents, Sound, Value;
      if interval.Empty() || amount == 0 { return; }
      if |nodes| <= 1 {
        assert false;
        return;
      }
      ghost var c := Claim(interval, amount);
      LighterLoad(c);
      Shift(interval, -amount, claims - multiset{c});
      if liveIntervals > 0 {
        liveIntervals := liveIntervals - 1;
      }
      if liveIntervals == 0 {
        nodes := [EMPTY_NODE];
        tree := Absent;
      }
    }

    /** Exact peak load over the window; zero when the window misses the timeline. */
    function Peak(window: Interval): (r: int)
      requires Valid()
      reads this
      ensures 0 <= r <= SATURATION
      ensures if Clipped(window).Empty() then r == 0 else IsPeak(claims, Clipped(window), r)
    {
      if window.Empty() then 0
      else if |nodes| <= 1 then
        assert !Clipped(window).Empty() ==> Load(claims, Clipped(window).start) == 0;
        0
      else
        var value := Query(nodes, 1, tree, 0, MAX_TIMESTAMP_NS, window.start, window.end, 0);
        if value == NO_VALUE then 0 else value
    }

    /** Load at one instant; instants off the timeline carry nothing. */
    function At(instant: int): (r: int)
      requires Valid()
      reads this
      ensures r == if HORIZON.Contains(instant) then Load(claims, instant) else 0
    {
      if instant < 0 || instant >= MAX_TIMESTAMP_NS then 0 else Peak(Interval(instant, instant + 1))
    }

    /** Early-terminating comparison of the peak with a limit. */
    predicate ExceedsLimit(window: Interval, limit: int)
      requires Valid() && NO_VALUE <= limit
      reads this
      ensures 0 <= limit ==> (ExceedsLimit(window, limit) <==> Peak(window) > limit)
      ensures limit < 0 ==> (ExceedsLimit(window, limit) <==> |nodes| > 1 && !Clipped(window).Empty())
    {
      if window.Empty() then false
      else if |nodes| <= 1 then false
      else Exceeds(nodes, 1, tree, 0, MAX_TIMESTAMP_NS, window.start, window.end, 0, limit)
    }
  }
}

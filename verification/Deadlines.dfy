/** Three queues of deadlines, and what the passing of time does to a record. */
module Deadlines {
  import opened Timeline
  import opened Entries
  import opened Records

  datatype QueueKind = Activation | Expiry | RecallEffect

  /** When a queue must wake up for a record, if it must at all. */
  function Deadline(kind: QueueKind, r: Record): Option<int> {
    if !r.Consumes() then None
    else
      match kind
      case Activation => if r.state == Committed then Some(r.terms.interval.start) else None
      case Expiry => if r.Window().Empty() then None else Some(r.Window().end)
      case RecallEffect => if r.state == RecallPending && 0 < r.recallAt then Some(r.recallAt) else None
  }

  type Queue = set<(int, Key)>

  /** The queue schedules `k` at its deadline and at no other time. */
  ghost predicate Schedules(queue: Queue, kind: QueueKind, records: map<Key, Record>, k: Key) {
    forall t :: (t, k) in queue <==> k in records && Deadline(kind, records[k]) == Some(t)
  }

  ghost predicate InStep(queue: Queue, kind: QueueKind, records: map<Key, Record>) {
    forall k :: Schedules(queue, kind, records, k)
  }

  ghost predicate InStepBut(queue: Queue, kind: QueueKind, records: map<Key, Record>, key: Key) {
    forall k :: k != key ==> Schedules(queue, kind, records, k)
  }

  lemma StepBut(queue: Queue, kind: QueueKind, before: map<Key, Record>, key: Key, r: Record)
    requires InStep(queue, kind, before)
    ensures InStepBut(queue, kind, before[key := r], key)
  {
    var after := before[key := r];
    forall k | k != key ensures Schedules(queue, kind, after, k) {
      assert Schedules(queue, kind, before, k);
    }
  }

  /** A queue without the key's entries, and with the one its deadline calls for, is in step again. */
  lemma Rescheduled(before: Queue, after: Queue, kind: QueueKind, records: map<Key, Record>, key: Key)
    requires InStepBut(before, kind, records, key) && key in records
    requires forall e :: e in after <==> if e.1 == key then Deadline(kind, records[key]) == Some(e.0) else e in before
    ensures InStep(after, kind, records)
  {
    forall k ensures Schedules(after, kind, records, k) {
      if k != key {
        assert Schedules(before, kind, records, k);
        forall t ensures (t, k) in after <==> k in records && Deadline(kind, records[k]) == Some(t) {
          assert (t, k) in after <==> (t, k) in before;
        }
      } else {
        forall t ensures (t, k) in after <==> Deadline(kind, records[k]) == Some(t) {
          assert (t, k).1 == key;
        }
      }
    }
  }

  /** Some deadline of the record has passed. */
  predicate Due(r: Record, now: int) {
    || (Deadline(Activation, r).Some? && Deadline(Activation, r).value <= now)
    || (Deadline(Expiry, r).Some? && Deadline(Expiry, r).value <= now)
    || (Deadline(RecallEffect, r).Some? && Deadline(RecallEffect, r).value <= now)
  }

  // ---------------------------------------------------------------------------
  // One record and the passing of time
  // ---------------------------------------------------------------------------

  predicate EffectReached(r: Record, now: int) { r.state == RecallPending && 0 < r.recallAt <= now }

  predicate Opens(r: Record, now: int) { r.state == Committed && r.terms.interval.Contains(now) }

  predicate Elapsed(r: Record, now: int) { r.Consumes() && (r.Window().Empty() || r.Window().end <= now) }

  function Opened(r: Record, now: int): Record { if Opens(r, now) then r.(state := Active) else r }

  function Closing(r: Record): ReservationState { if r.state == RecallPending then Revoked else Expired }

  /** What one visit of the work list makes of a record. */
  function Visited(r: Record, now: int): Record {
    if EffectReached(r, now) then r.(state := Revoked)
    else
      var o := Opened(r, now);
      if Elapsed(o, now) then o.(state := Closing(o)) else o
  }

  /** Only records with a passed deadline are visited. */
  function Reconciled(r: Record, now: int): Record {
    if Due(r, now) then Visited(r, now) else r
  }

  /** Nothing consumes past its window, nothing waits past its start, and no deadline is left behind. */
  lemma ReconciledSettles(r: Record, now: int)
    ensures var r' := Reconciled(r, now);
            && (r'.Consumes() && !r'.Window().Empty() ==> now < r'.Window().end)
            && (r'.Consumes() && r'.state == Committed ==> now < r'.terms.interval.start)
            && (r'.Consumes() && EffectReached(r', now) ==> false)
            && !Due(r', now)
  {
  }

  /** Time ends the record: its recall takes effect, or nothing of its window is left. */
  predicate EndsBy(r: Record, now: int) {
    && r.Consumes()
    && (|| EffectReached(r, now)
        || if r.Window().Empty() then r.state == Committed && r.terms.interval.start <= now else r.Window().end <= now)
  }

  /** What has not ended yet ends with a visit exactly then. */
  lemma EndedExactly(r: Record, now: int)
    requires !IsTerminal(r.state)
    ensures IsTerminal(Reconciled(r, now).state) <==> EndsBy(r, now)
  {
    assert r.(state := Active).Window() == r.Window();
  }

  /** A second pass changes nothing. */
  lemma ReconciledTwice(r: Record, now: int)
    ensures Reconciled(Reconciled(r, now), now) == Reconciled(r, now)
  {
    ReconciledSettles(r, now);
  }

  /** A committed record is visited at its start or at the end of its window. */
  lemma CommittedReconciled(r: Record, now: int)
    requires r.state == Committed && r.applicability != StaleBinding && ValidInterval(r.terms.interval)
    ensures Reconciled(r, now) ==
            if now < r.terms.interval.start && (r.Window().Empty() || now < r.Window().end) then r
            else if r.Window().Empty() || r.Window().end <= now then r.(state := Expired)
            else r.(state := Active)
  {
    assert r.(state := Active).Window() == r.Window();
  }

  lemma CommittedInStages(r: Record, early: int, late: int)
    requires early <= late && ValidInterval(r.terms.interval) && r.state == Committed
    ensures Reconciled(Reconciled(r, early), late) == Reconciled(r, late)
  {
    if r.applicability != StaleBinding {
      CommittedReconciled(r, early);
      CommittedReconciled(r, late);
      assert r.(state := Active).Window() == r.Window();
    }
  }

  lemma OpenInStages(r: Record, early: int, late: int)
    requires early <= late && ValidInterval(r.terms.interval) && r.state != Committed
    ensures Reconciled(Reconciled(r, early), late) == Reconciled(r, late)
  {
  }

  /** Reconciling on the way does not change where a record ends up. */
  lemma ReconciledInStages(r: Record, early: int, late: int)
    requires early <= late && ValidInterval(r.terms.interval)
    ensures Reconciled(Reconciled(r, early), late) == Reconciled(r, late)
  {
    if r.state == Committed {
      CommittedInStages(r, early, late);
    } else {
      OpenInStages(r, early, late);
    }
  }

  // ---------------------------------------------------------------------------
  // The queues
  // ---------------------------------------------------------------------------

  predicate KeyLess(a: Key, b: Key) { a.id < b.id || (a.id == b.id && a.generation < b.generation) }

  ghost predicate Ascending(keys: seq<Key>) {
    forall i, j :: 0 <= i < j < |keys| ==> KeyLess(keys[i], keys[j])
  }

  lemma Placing(keys: seq<Key>, i: nat, k: Key)
    requires Ascending(keys) && i <= |keys| && k !in keys
    requires (forall j :: 0 <= j < i ==> KeyLess(keys[j], k)) && (i < |keys| ==> !KeyLess(keys[i], k))
    ensures Ascending(keys[..i] + [k] + keys[i..])
    ensures forall x :: x in keys[..i] + [k] + keys[i..] <==> x == k || x in keys
  {
    var after := keys[..i] + [k] + keys[i..];
    assert i < |keys| ==> KeyLess(k, keys[i]);
    forall x ensures x in after <==> x == k || x in keys {
      if x in keys {
        var j :| 0 <= j < |keys| && keys[j] == x;
        assert after[if j < i then j else j + 1] == x;
      }
      if x == k { assert after[i] == k; }
    }
  }

  /** The keys of a set in ascending order, each once. */
  method SortKeys(keys: set<Key>) returns (sorted: seq<Key>)
    ensures Ascending(sorted)
    ensures forall k :: k in sorted <==> k in keys
  {
    sorted := [];
    var todo := keys;
    while todo != {}
      invariant Ascending(sorted) && todo <= keys
      invariant forall k :: k in sorted <==> k in keys - todo
      decreases todo
    {
      var k :| k in todo;
      var i := 0;
      while i < |sorted| && KeyLess(sorted[i], k)
        invariant i <= |sorted|
        invariant forall j :: 0 <= j < i ==> KeyLess(sorted[j], k)
      {
        i := i + 1;
      }
      Placing(sorted, i, k);
      sorted := sorted[..i] + [k] + sorted[i..];
      todo := todo - {k};
    }
  }

  class DeadlineQueues {
    var activation: Queue
    var expiry: Queue
    var recall: Queue

    /** Every queue schedules exactly the deadlines of the records. */
    ghost predicate Exact(records: map<Key, Record>)
      reads this
    {
      InStep(activation, Activation, records) && InStep(expiry, Expiry, records)
          && InStep(recall, RecallEffect, records)
    }

    /** Exact but for one record, which is about to be scheduled anew. */
    ghost predicate ExactBut(records: map<Key, Record>, key: Key)
      reads this
    {
      && InStepBut(activation, Activation, records, key)
      && InStepBut(expiry, Expiry, records, key)
      && InStepBut(recall, RecallEffect, records, key)
    }

    constructor ()
      ensures Exact(map[])
    {
      activation, expiry, recall := {}, {}, {};
    }

    static method RemoveFrom(queue: Queue, key: Key) returns (rest: Queue)
      ensures rest == set e | e in queue && e.1 != key
    {
      rest := queue;
      var todo := queue;
      while todo != {}
        invariant todo <= queue
        invariant forall e :: e in rest <==> e in queue && (e in todo || e.1 != key)
        decreases todo
      {
        var e :| e in todo;
        if e.1 == key { rest := rest - {e}; }
        todo := todo - {e};
      }
    }

    method Sync(r: Record, ghost records: map<Key, Record>)
      requires ExactBut(records, r.KeyOf()) && r.KeyOf() in records && records[r.KeyOf()] == r
      modifies this
      ensures Exact(records)
    {
      hide InStep, InStepBut;
      var key := r.KeyOf();
      activation := RemoveFrom(activation, key);
      expiry := RemoveFrom(expiry, key);
      recall := RemoveFrom(recall, key);
      if r.Consumes() {
        if r.state == Committed {
          activation := activation + {(r.terms.interval.start, key)};
        }
        var window := r.Window();
        if !window.Empty() {
          expiry := expiry + {(window.end, key)};
        }
        if r.state == RecallPending && 0 < r.recallAt {
          recall := recall + {(r.recallAt, key)};
        }
      }
      Rescheduled(old(activation), activation, Activation, records, key);
      Rescheduled(old(expiry), expiry, Expiry, records, key);
      Rescheduled(old(recall), recall, RecallEffect, records, key);
    }

    static method Passed(queue: Queue, now: int) returns (keys: set<Key>)
      ensures keys == set e | e in queue && e.0 <= now :: e.1
    {
      keys := set e | e in queue && e.0 <= now :: e.1;
    }

    /** The keys whose deadline has passed, once each, in key order. */
    method WorkList(now: int, ghost records: map<Key, Record>) returns (work: seq<Key>)
      requires Exact(records)
      ensures Ascending(work)
      ensures forall k :: k in work <==> k in records && Due(records[k], now)
    {
      var a := Passed(activation, now);
      var e := Passed(expiry, now);
      var r := Passed(recall, now);
      forall k ensures k in a + e + r <==> k in records && Due(records[k], now) {
        assert Schedules(activation, Activation, records, k);
        assert Schedules(expiry, Expiry, records, k);
        assert Schedules(recall, RecallEffect, records, k);
        DueWitness(activation, Activation, records, k, now);
        DueWitness(expiry, Expiry, records, k, now);
        DueWitness(recall, RecallEffect, records, k, now);
      }
      work := SortKeys(a + e + r);
    }
  }

  lemma DueWitness(queue: Queue, kind: QueueKind, records: map<Key, Record>, k: Key, now: int)
    requires Schedules(queue, kind, records, k)
    ensures (exists e :: e in queue && e.0 <= now && e.1 == k) <==>
            k in records && Deadline(kind, records[k]).Some? && Deadline(kind, records[k]).value <= now
  {
    if k in records && Deadline(kind, records[k]).Some? && Deadline(kind, records[k]).value <= now {
      var t := Deadline(kind, records[k]).value;
      assert (t, k) in queue;
    }
    if e :| e in queue && e.0 <= now && e.1 == k {
      assert (e.0, k) in queue;
    }
  }
}

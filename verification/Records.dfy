/** Reservation terms, generation-stamped records and the capacity ledger they bind to. */
module Records {
  import opened Timeline
  import opened Entries

  const MAX_BINDING_RESOURCES := 64

  datatype ReservationState =
    | Declared | Validated | Pending | Committed | Active | AmendmentPending | RecallPending
    | Released | Expired | Revoked | Fenced | Stale | Superseded | Rejected | Retired

  predicate ConsumesCapacity(state: ReservationState) {
    state.Committed? || state.Active? || state.RecallPending?
  }

  predicate IsTerminal(state: ReservationState) {
    match state
    case Released | Expired | Revoked | Fenced | Stale | Superseded | Rejected | Retired => true
    case _ => false
  }

  datatype Applicability = Current | RevalidationRequired | StaleBinding

  datatype Reason =
    | NoReason | ResourceGenerationChanged | ResourceWithdrawn | PolicyMaterialChange

  datatype Recurrence = Recurrence(enabled: bool, period: int, count: nat)

  datatype Terms = Terms(
    claimant: Identity, claimantGeneration: nat, resources: seq<ResourceName>, interval: Interval, amount: int,
    guarantee: GuaranteeClass, recallPermitted: bool, headroom: int, recurrence: Recurrence)

  predicate Distinct<T(==)>(s: seq<T>) {
    forall i, j :: 0 <= i < j < |s| ==> s[i] != s[j]
  }

  /** What terms must satisfy before anything else about a request is looked at. */
  predicate ValidTerms(t: Terms) {
    && t.claimant != 0 && t.claimantGeneration != 0
    && ValidInterval(t.interval)
    && 0 < t.amount <= MAX_BANDWIDTH_BPS
    && 0 <= t.headroom <= MAX_BANDWIDTH_BPS
    && 0 < |t.resources| <= MAX_BINDING_RESOURCES && Distinct(t.resources) && "" !in t.resources
    && (t.recurrence.enabled ==>
          t.recurrence.count >= 1 && t.recurrence.period >= 0 && (t.recurrence.count > 1 ==> t.recurrence.period > 0))
  }

  datatype ResourceRef = ResourceRef(resource: ResourceName, generation: nat)

  /** One generation of one reservation. */
  datatype Key = Key(id: Identity, generation: nat)

  datatype Record = Record(
    id: Identity, generation: nat, terms: Terms, refs: seq<ResourceRef>,
    state: ReservationState, applicability: Applicability, reason: Reason,
    recallAt: int, grace: int, predecessor: Option<Key>, series: Option<Identity>)
  {
    function KeyOf(): Key { Key(id, generation) }

    predicate Consumes() { ConsumesCapacity(state) && applicability != StaleBinding }

    /** The interval that still takes capacity: a recall ends it at the effect plus the grace. */
    function Window(): Interval {
      if 0 < recallAt < terms.interval.end then
        var released := recallAt + grace;
        var end := if released > terms.interval.end then terms.interval.end else released;
        Interval(terms.interval.start, if end < terms.interval.start then terms.interval.start else end)
      else terms.interval
    }

    predicate Binds(resource: ResourceName) { exists i :: 0 <= i < |refs| && refs[i].resource == resource }

    function Entry(resource: ResourceName): IndexEntry {
      IndexEntry(Reservation, id, generation, resource, Window(), terms.amount, terms.guarantee)
    }
  }

  datatype Capacity = Capacity(
    resource: ResourceName, generation: nat, reservable: int, headroom: int, maintenance: seq<Interval>)
  {
    /** What is left for reservations and holds once the headroom is set aside. */
    function Ceiling(): int { if reservable <= headroom then 0 else reservable - headroom }

    /** The bounds every capacity statement is checked against. */
    predicate Acceptable() {
      && resource != ""
      && 0 < reservable <= MAX_BANDWIDTH_BPS
      && 0 <= headroom <= MAX_BANDWIDTH_BPS
      && |maintenance| <= 64
      && forall i :: 0 <= i < |maintenance| ==> ValidInterval(maintenance[i])
    }

    predicate UnderMaintenance(interval: Interval) {
      exists i :: 0 <= i < |maintenance| && maintenance[i].Overlaps(interval)
    }
  }

  datatype LedgerEntry = LedgerEntry(capacity: Capacity, withdrawn: bool)

  type Ledger = map<ResourceName, LedgerEntry>

  predicate Live(ledger: Ledger, resource: ResourceName) {
    resource in ledger && !ledger[resource].withdrawn
  }

  predicate IsCurrent(ledger: Ledger, ref: ResourceRef) {
    Live(ledger, ref.resource) && ledger[ref.resource].capacity.generation == ref.generation
  }

  predicate AllCurrent(ledger: Ledger, refs: seq<ResourceRef>) {
    forall i :: 0 <= i < |refs| ==> IsCurrent(ledger, refs[i])
  }

  /** Whether a record takes capacity in the index. */
  predicate Indexable(ledger: Ledger, r: Record) {
    r.Consumes() && !r.Window().Empty() && AllCurrent(ledger, r.refs)
  }

  /** Whether a capacity statement is accepted, and what it makes of the ledger. */
  datatype LedgerResult = Refused | Unchanged | Changed(ledger: Ledger)

  function LedgerApply(ledger: Ledger, c: Capacity): LedgerResult {
    if !c.Acceptable() then Refused
    else if c.resource !in ledger then Changed(ledger[c.resource := LedgerEntry(c, false)])
    else
      var entry := ledger[c.resource];
      if c.generation == entry.capacity.generation then
        if c != entry.capacity then Refused
        else if entry.withdrawn then Changed(ledger[c.resource := entry.(withdrawn := false)])
        else Unchanged
      else if c.generation < entry.capacity.generation then Refused
      else Changed(ledger[c.resource := LedgerEntry(c, false)])
  }

  /** Unknown names are passed over. */
  function LedgerWithdraw(ledger: Ledger, resource: ResourceName): Ledger {
    if resource in ledger then ledger[resource := ledger[resource].(withdrawn := true)] else ledger
  }

  datatype Hold = Hold(
    id: Identity, claimant: Identity, claimantGeneration: nat, session: Identity, resources: seq<ResourceName>,
    interval: Interval, amount: int, guarantee: GuaranteeClass, expiresAt: int, released: bool)
  {
    function Entry(resource: ResourceName): IndexEntry {
      IndexEntry(HolderKind.Hold, id, 1, resource, interval, amount, guarantee)
    }
  }

  datatype Outcome =
    Committable | InsufficientCapacity | StaleResource | PolicyRejected | EmergencyOvercommit

  /** What identifies a request; equal requests and only equal requests have equal fingerprints. */
  datatype Fingerprint =
    | CreateRequest(terms: Terms, id: Identity, holds: seq<Identity>)
    | AmendRequest(target: Key, terms: Terms)
    | StateRequest(key: Key, to: ReservationState)

  datatype Attempt = Attempt(id: Identity, fingerprint: Fingerprint, outcome: Outcome, reservation: Key)

  /** A first recall can only shorten what a record consumes. */
  lemma RecallShortens(r: Record, recallAt: int, grace: int)
    requires r.recallAt == 0 && 0 < recallAt && !r.terms.interval.Empty()
    ensures r.(recallAt := recallAt, grace := grace).Window().Within(r.Window())
  {
  }
}

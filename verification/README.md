# Model of the bandwidth reservation fabric

The fabric sells the bandwidth of named resources ahead of time. A coordinator admits reservations
and provisional holds against an interval index of what is bound already, amends, recalls and
revalidates them as capacity is restated, and writes every durable change to a journal from which it
recovers after a crash. This project models that coordinator from the bytes of its store up to its
requests, and proves what it promises.

How the modules build on each other:

- **The index.** `SegmentTree` is the tree of range adds and range maxima, held in a vector of nodes and
  proved against the sum of the claims it was given. `ResourceStates` and `CapacityIndexing` keep three such trees
  per resource beside an ordered list of entries, `Timelines` reads them as step functions, `Suspending` takes entries
  out for a trial and puts them back.
- **The state and its steps.** `Records`, `FabricState` and `Steps` give the coordinator as a value and a step relation;
  `Lineage`, `Closure`, `Capping`, `Runs`, `Replay`, `Histories`, `Rebuilding` and `Lifetimes` prove what every step,
  every run and every life with crashes keeps. `Witnesses` and `Regaining` hold the runs that show where a promise stops.
- **The coordinator.** `Coordination.Coordinator` is the class whose fields the requests update in place: records,
  generations, holds, the index, the deadline queues and the journal. `RecordIndexing`, `Deadlines`, `Series`,
  `Bounds`, `Effects`, `Admission`, `Commitments`, `Orders`, `Successions`, `Amendments`, `Holding`,
  `Overcommitment`, `Resolution`, `Refreshing`, `Turns` and `Auditing` specify its operations and carry the
  lemmas its methods use. Each request refines the step relation: the state it leaves is reached by enabled
  steps, and its index is what the records and holds call for.
- **The store.** `Crc32c`, `Framing`, `Snapshots` and `Storage` are the bytes on disk at every step of an append,
  a snapshot and a rotation. `Codecs`, `Schemas`, `Wire`, `Payloads` and `ImagePayloads` are the binary form of every
  durable record and of the snapshot state; `Images` is what a snapshot keeps; `Restarts` joins all of it: a crash at
  any byte restarts into the state before or after. `Endurance` carries that through any life of steps, compactions,
  stops and restarts of one disk.
- **The calendar.** `CivilTime` and `Timestamps` convert instants to their text and back.

In `Coordination`, `under` and `behind` are ghost fields: `behind` names the identities whose index entries
still follow an older ledger, `under` that ledger. They are empty until a revalidation is refused (see
Findings); `Valid()` is the invariant of the class.

## Model

| member | source | states |
|---|---|---|
| SegmentTree.AddedSound | src/index.cpp:61-87 | a range write adds the amount at exactly the written instants and keeps every stored maximum exact |
| SegmentTree.MaxIsAttained | src/index.cpp:43-46 | the number stored at a node is the largest load below it, and some instant has that load |
| SegmentTree.Query | src/index.cpp:89-105 | a read passes pending amounts down and finds the attained maximum over the part of the window it shares, or the mark for none |
| SegmentTree.Exceeds | src/index.cpp:113-125 | the comparison that stops early agrees with the full query |
| SegmentTree.IntervalCapacityIndex.WriteRange | src/index.cpp:61-87 | the write over the node vector, allocating and pushing down on the way, yields the vector of the written tree |
| SegmentTree.IntervalCapacityIndex.Add | src/index.cpp:135-140 | one more claim is in force; empty windows and zero amounts are ignored |
| SegmentTree.IntervalCapacityIndex.Remove | src/index.cpp:142-150 | one matching claim leaves, and with the last of them the vector is reset |
| SegmentTree.IntervalCapacityIndex.Peak | src/index.cpp:152-155 | the peak is exactly the largest sum of the claims covering one instant of the window, within the timeline |
| SegmentTree.IntervalCapacityIndex.At | src/index.cpp:157-160 | the load at an instant is the sum of the claims covering it |
| SegmentTree.IntervalCapacityIndex.ExceedsLimit | src/index.cpp:162-166 | for limits from zero up, true exactly when the peak is above the limit |
| ResourceStates.ResourceState.AccountsAddUp | include/brf/index.hpp:52-55 | the three accumulators of a resource agree at every instant: the combined one is the sum of the other two |
| ResourceStates.ResourceState.Put | src/index.cpp:183-209 | an entry joins the ordered list, the counts and the accumulators of its kind together |
| ResourceStates.ResourceState.Take | src/index.cpp:211-247 | an entry leaves all of them together |
| CapacityIndexing.CapacityIndex.Insert | src/index.cpp:183-209 | a well-formed entry under a new key is added and nothing else changes; any other is refused with its reason and changes nothing |
| CapacityIndexing.CapacityIndex.Erase | src/index.cpp:211-247 | the entry of a holder's generation on a resource is removed; a missing one or another generation is refused and changes nothing |
| CapacityIndexing.CapacityIndex.EraseAll | src/index.cpp:249-323 | every entry of the holder is gone, whatever its generation, and no other |
| CapacityIndexing.CapacityIndex.ReplaceAll | src/index.cpp:325-336 | the holder's entries become the ones supplied, as far as the first that is refused |
| CapacityIndexing.CapacityIndex.FindAll | src/index.cpp:345-363 | exactly the holder's entries, each once, in strict order of resource name |
| CapacityIndexing.CapacityIndex.Peak | src/index.cpp:365-378 | the exact peak of reservations, of holds or of both over the window |
| CapacityIndexing.CapacityIndex.Overlapping | src/index.cpp:385-419 | the entries sharing an instant with the window that a scan of so many entries, earliest first, comes by: in order of start, end and identity, counted, and cut off exactly when more begin in time or more match than the limits allow |
| CapacityIndexing.CapacityIndex.Timeline | src/index.cpp:421-456 | every point tells the exact loads at its instant, in rising order; points are cut off exactly when the entries sharing the window or the instants of change are too many, and in the latter case all earlier instants of change are told, as many as asked for; otherwise the last point at or before any instant tells the loads there |
| Timelines.PointsAreSteps | src/index.cpp:421-456 | loads at all starts and ends within the window determine the load at every instant of it |
| Timelines.SampledPeak | src/coordinator_query.cpp:108-124 | sampling the sum at the starts of the intervals alone finds the largest load there is at any instant |
| Timelines.SampledIsPeak | src/coordinator_query.cpp:108-124 | on intervals that begin on the timeline the sampled maximum is the exact peak over the horizon |
| Suspending.Suspension.Suspend | src/coordinator_records.cpp:240-260 | exactly the holder's entries of the generation leave the index and are remembered |
| Suspending.Suspension.Restore | src/coordinator_records.cpp:262-274 | the index is again what it was when the suspension began, whatever was suspended |
| Suspending.Suspension.Leave | src/coordinator_impl.hpp:207-222 | leaving the scope restores everything unless the change was kept |
| Series.ExpandSeries | src/reservation.cpp:252-291 | no intermediate leaves the 64-bit range; a request is refused exactly when unbounded arithmetic refuses it, and otherwise expands to the intervals at start plus multiples of the period |
| Series.MemberValid | src/reservation.cpp:252-291 | every member of an accepted series is a valid interval of the first one's length |
| Series.MembersDisjoint | src/reservation.cpp:252-291 | members of an accepted series share no instant |
| RecordIndexing.SyncIndex | src/coordinator_records.cpp:63-69 | entries appear when the record becomes indexable and none of its generation are there, go when it stops being so and some are, and are left alone otherwise |
| RecordIndexing.SyncedSettles | src/coordinator_records.cpp:63-69 | that leaves one entry per bound resource for an indexable record and none for another exactly when what was indexed under the identity was already the record's own, or nothing |
| RecordIndexing.UpdateIndex | src/coordinator_records.cpp:71-77 | the same when a record stays indexable and its interval changes |
| Deadlines.DeadlineQueues.Sync | src/coordinator_records.cpp:184-209 | the three queues again schedule exactly the deadlines of all records |
| Deadlines.DeadlineQueues.WorkList | src/coordinator_lifecycle.cpp:93-105 | exactly the records with a deadline at or before now, once each and in key order |
| Deadlines.ReconciledSettles | src/coordinator_lifecycle.cpp:117-153 | after one visit no deadline of the record is left at or before now |
| Deadlines.EndedExactly | src/coordinator_lifecycle.cpp:117-153 | a visit ends a record exactly when its recall has taken effect or nothing of its window is left |
| Deadlines.ReconciledTwice | src/coordinator_lifecycle.cpp:117-153 | a second visit at the same time changes nothing |
| Deadlines.ReconciledInStages | src/coordinator_lifecycle.cpp:117-153 | visiting at an earlier time first makes no difference |
| Effects.TimeSettles | src/coordinator_lifecycle.cpp:93-168 | afterwards nothing consumes past its window or waits past its start, no hold outlives its deadline, and a second pass appends nothing |
| Effects.TimeInStages | src/coordinator_lifecycle.cpp:93-168 | records and holds end up the same however often time is reconciled on the way |
| Lineage.NextKeepsInv | src/coordinator_records.cpp:102-122 | every step keeps generations gap-free, chained to their predecessors and superseded below the newest, and records sound against the ledger |
| Closure.FitsExactly | src/coordinator_admission.cpp:190-237 | the test on capped sums is the exact test unless the true sum passes a ceiling that sits at the cap |
| Closure.AdmitStaysClosed | src/coordinator_admission.cpp:493-550 | admitting all members of a series against the same index, with victims revoked and named holds consumed, overruns no ceiling |
| Closure.SupersedeStaysClosed | src/coordinator_admission.cpp:905-984 | replacing a record by a successor assessed without it overruns no ceiling |
| Closure.TakeHoldStaysClosed | src/coordinator_ops.cpp:318-364 | an accepted hold overruns no ceiling |
| Closure.IngestStaysClosed | src/coordinator_core.cpp:727-838 | restating capacity under later generations overruns no ceiling, because what was bound to the old ones no longer counts |
| Closure.SafeStepStaysClosed | src/coordinator_admission.cpp:727-771 | every restrained step keeps committed plus held bandwidth within the ceilings wherever the cap hides nothing |
| Capping.ClosedUnlessOverCap | include/brf/bandwidth.hpp:57-62 | a restrained step breaks the ceilings exactly when it takes a sum past a ceiling that sits at the cap |
| Capping.RunClosedUnlessOverCap | include/brf/bandwidth.hpp:57-62 | a restrained run keeps the ceilings throughout exactly when no step of it does that |
| Runs.NeverOverCeiling | src/coordinator_admission.cpp:190-237 | along any run of tame steps, reservations plus holds never exceed a live resource's ceiling at any instant |
| Runs.ReachesClosed | src/coordinator_admission.cpp:190-237 | whatever a tame run leads to from a state within its ceilings is within them |
| Runs.LineageNeverForks | src/coordinator_query.cpp:366-446 | following predecessors from generation n visits n, n-1, ..., 1 of the same identity; all but the newest are superseded |
| Runs.FirstRecallIsTame | src/coordinator_lifecycle.cpp:573-602 | the first recall of a record can only shorten what it consumes |
| Lifetimes.CrashTakesNothing | include/brf/codec.hpp:192-203 | after a crash no key takes more at any instant than before exactly when no authoritative record regains a longer grace |
| Lifetimes.CrashStaysClosed | src/coordinator_core.cpp:91-108 | such a crash leaves every ceiling respected |
| Lifetimes.NeverOverCeilingInLife | src/coordinator_admission.cpp:190-237 | along any life of tame steps and such crashes, reservations plus holds never exceed a live resource's ceiling at any instant |
| Regaining.CrashBreaksClosure | src/coordinator_lifecycle.cpp:573-602 | in some life of tame steps a crash takes a resource above its ceiling |
| Replay.NextStaysDenoted | src/coordinator_core.cpp:341-527 | after every step, replaying the journal gives the live state up to holds and recall grace |
| Histories.JournalDenotesState | src/coordinator_core.cpp:341-527 | the same after any life of steps and crashes |
| Histories.AtMostOnce | src/coordinator_admission.cpp:423-448 | along any life without eviction, restarts included, no attempt commits twice |
| Histories.RecoveredInv | src/coordinator_core.cpp:91-108 | recovery keeps lineage and soundness, and its state is alike the one that crashed |
| Rebuilding.RecoveredRecord | src/coordinator_core.cpp:434-447 | a recovered record is the live one with the grace its journal last wrote |
| Rebuilding.RebuiltIndex | src/coordinator_records.cpp:88-97 | the rebuilt index is the live one without its holds exactly when no authoritative record has lost its grace |
| Rebuilding.RecallLosesGrace | src/coordinator_lifecycle.cpp:585-602 | a recall leaves an index that a crash would not rebuild exactly when its grace moves the end of the window |
| Images.RestoreReturns | src/coordinator_core.cpp:532-709 | loading what a snapshot captured returns the state without holds, its attempts in order of identity |
| Images.LifeIsCaptured | src/coordinator_core.cpp:532-709 | the same at every point of every life |
| Images.OrderReturns | src/coordinator_core.cpp:573-584 | nothing else is lost exactly when attempts were made in order of identity |
| Images.ReplayedEchoes | include/brf/codec.hpp:334-336 | replaying above a snapshot follows the live state as long as no attempt has to be forgotten |
| Restarts.DiskDenotesState | src/coordinator_core.cpp:75-108 | a disk that tells a history restarts into the state that history denotes |
| Restarts.CrashWhileWriting | src/store.cpp:322-361 | after a crash at any byte of a step's record, decoding and replaying gives the state before the step or after it, up to holds and grace, and up to the order of attempts where a snapshot is involved |
| Restarts.CrashWhileCompacting | src/coordinator_core.cpp:711-722 | after a crash at any byte or between any two steps of a compaction, restarting gives the running state |
| Endurance.HappeningKeeps | src/coordinator_core.cpp:75-108 | steps, compactions and stops at any byte of either keep disk and memory in agreement, and a machine started again echoes the state that was running |
| Endurance.DiskOutlives | src/store.cpp:194-413 | after any such life from an empty disk, the records ever written denote the state in memory, the disk restarts into an echo of it, and opens exactly when both files are within their limits |
| Admission.ResolveBinding | src/coordinator_admission.cpp:66-124 | bound exactly when every name is known and not withdrawn, to current generations in canonical order |
| Admission.AssessAll | src/coordinator_admission.cpp:129-326 | the verdict of the first window that does not close, or committable when all of them do |
| Admission.CommittableFits | src/coordinator_admission.cpp:190-237 | a committable verdict is the capacity test at every instant of the window on every bound resource |
| Admission.Rank | src/coordinator_admission.cpp:345-355 | candidates sorted by class, identity and generation, none lost and none added |
| Admission.PreemptionCandidates | src/coordinator_admission.cpp:328-356 | exactly the displaceable reservations that a scan of so many entries comes by, ranked, each once |
| Orders.OrderAdmits | src/coordinator_admission.cpp:493-550 | whatever closes satisfies everything a commit demands, members and victims together |
| Coordination.Coordinator.constructor | src/coordinator_core.cpp:46-56 | the empty coordinator, its index and queues in step |
| Coordination.Coordinator.Reconcile | src/coordinator_lifecycle.cpp:93-168 | records and holds are where the deadlines up to now put them, each change journaled |
| Coordination.Coordinator.Create | src/coordinator_admission.cpp:378-789 | turned away for the first objection and unchanged, replayed, previewed, refused with a durable outcome only when neither the index nor any run of candidates in order closes, or committed with the victims that were the first to suffice and with holds consumed; reached by enabled steps, tame without overcommit |
| Coordination.Coordinator.Displace | src/coordinator_admission.cpp:511-549 | candidates leave the trial index in order, one at a time, until the request closes: no shorter run of them closes, and it fails only when they or the bound are used up |
| Coordination.Coordinator.Preempt | src/coordinator_admission.cpp:504-549 | resource by resource, candidates are taken in order from the scan of each until the request closes or nothing is left to take |
| Coordination.Coordinator.Amend | src/coordinator_admission.cpp:794-984 | an amendment outside a series is turned away, recalled, declined, previewed or installed as the next generation, its predecessor superseded, as binding and assessment against the index without the target decide; reached by enabled steps; its target has ended meanwhile exactly when its deadlines had passed |
| Amendments.ReachesEnded | src/coordinator_admission.cpp:838-851 | the target is found ended, after time is reconciled, exactly when the record before the call had a recall due or no window left |
| Amendments.GrantedInForce | src/coordinator_admission.cpp:905-984 | a granted amendment is the authoritative record and consumes, whether or not its target had ended |
| Coordination.Coordinator.AcquireHold | src/coordinator_ops.cpp:280-364 | a hold is granted exactly when binding, assessment against the index and the session's limits allow it, and then takes its capacity in the index |
| Coordination.Coordinator.Release | src/coordinator_lifecycle.cpp:466-507 | the first objection, or a released record and its freed capacity; a repeated release changes nothing |
| Coordination.Coordinator.Revoke | src/coordinator_lifecycle.cpp:612-652 | the first objection, or a revoked record and its freed capacity |
| Coordination.Coordinator.Recall | src/coordinator_lifecycle.cpp:509-610 | denied, repeated, revoked at once when the effect has come, or pending with the effect held to the interval; reached by tame steps when the window shrinks |
| Coordination.Coordinator.EnsureClaimant | src/coordinator_core.cpp:222-256 | accepted exactly when no older than the registered generation; an advance fences the claimant's older holds |
| Coordination.Coordinator.AutoRevalidate | src/coordinator_lifecycle.cpp:377-461 | the record gets a successor on current generations exactly when it binds and closes without itself; otherwise nothing changes |
| Coordination.Coordinator.Refresh | src/coordinator_lifecycle.cpp:302-375 | the pass over the live records does what the turns computed from the state before say, and leaves exactly those passed over |
| Coordination.Coordinator.IngestCapacity | src/coordinator_core.cpp:727-838 | a snapshot is accepted exactly when its names are distinct and its statements apply; it moves the ledger, works every live record through it, fences exactly the holds on what moved and notices overcommitment there; a refused one leaves the statements before the refusal; the class invariant is restored exactly when no record comes back unindexed |
| Coordination.Coordinator.IngestionForeseen | src/coordinator_lifecycle.cpp:356-369 | who will be passed over by an ingestion can be told before it, from the first such record in key order |
| Coordination.Coordinator.IndexIsExact | src/coordinator_query.cpp:60-83 | the index holds exactly one entry per bound resource of each indexable record and open hold, exactly when no record passed over is still indexed |
| Coordination.Coordinator.DetectOvercommit | src/coordinator_lifecycle.cpp:214-297 | a resource enters or leaves the degraded state according to its indexed and stranded obligations |
| Coordination.Coordinator.ResolveOvercommit | src/coordinator_overcommit.cpp:11-108 | obligations are revoked in order of class, identity and generation, each only while what a scan sees is still too much, none after that, and the state ends; within the scan limit that is all there is |
| Resolution.PayableAtRest | src/coordinator_overcommit.cpp:34-76 | while nobody was passed over, what is owed on a resource is within what the index represents |
| Coordination.Coordinator.AuditResource | src/coordinator_query.cpp:108-124 | the audit's own sum over records and holds is the exact peak of what they call for, and agrees with an exact index |
| Turns.NoSuspects | src/coordinator_lifecycle.cpp:356-369 | only a current, auto-revalidating record whose bindings moved can be passed over; without one nobody is |
| Turns.FirstInLine | src/coordinator_lifecycle.cpp:356-369 | the first record in line that is not quiet is passed over exactly when the index before the pass refuses it |
| Turns.WithdrawnIsPassedOver | src/coordinator_lifecycle.cpp:356-369 | a suspect record bound to a withdrawn resource is always passed over |
| Turns.ComesBackUnindexed | src/coordinator_lifecycle.cpp:348-354 | a quiet record passed over earlier is indexed as it calls for after its turn exactly when its bindings held already, or it takes nothing |
| Witnesses.CapBreaksClosure | src/coordinator_admission.cpp:200 | some run of restrained steps ends above a ceiling that sits at the cap |
| Witnesses.GraceIsLost | src/coordinator_lifecycle.cpp:585-602 | some run ends with a recall whose grace a crash forgets |
| Witnesses.WithdrawalLeavesBehind | src/coordinator_lifecycle.cpp:356-369 | some run followed by a withdrawal leaves a booking marked current and still indexed |
| Witnesses.RestatementLeavesUnindexed | src/coordinator_lifecycle.cpp:348-354 | some run ends with a consuming booking that is not indexed |
| Witnesses.RefusedMidway | src/coordinator_core.cpp:764-770 | what a refused snapshot leaves is what the journal denotes exactly when nothing before the refusal changed the ledger |
| Witnesses.HalfStated | src/coordinator_core.cpp:764-770 | some refused snapshot leaves a ledger that a crash would undo |
| Witnesses.AmendmentRevivesExpired | src/coordinator_admission.cpp:838-851 | some run amends an expired reservation back into force |
| Witnesses.RevalidationForgetsRecall | src/coordinator_lifecycle.cpp:403-427 | the successor of a revalidated record takes the same window, and ends as its predecessor would have exactly when that was not under recall |
| Witnesses.MarkIsForgotten | src/coordinator_lifecycle.cpp:403-427 | some run revalidates a recalled booking, which then becomes active and expires where it would have been revoked |
| Images.SnapshotForgetsAge | src/coordinator_core.cpp:573-584 | some run of two refusals, after which the attempt evicted next differs between the running coordinator and one restarted from a snapshot |
| Crc32c.TableStep | src/hash.cpp:25-39 | one table look-up does what eight bit steps of the reflected polynomial do |
| Crc32c.Table.Compute | src/hash.cpp:68-75 | the checksum by table is the bit-by-bit CRC-32C of Appendix B of RFC 4960 on every byte string |
| Crc32c.Builder.Update | src/hash.cpp:77-84 | chunks add up: the state is that of everything fed so far |
| Crc32c.OneByteShows | src/hash.cpp:68-75 | two byte strings that differ in exactly one place have different checksums |
| Framing.ReadJournal | src/store.cpp:476-547 | the parse loop is the recursive reading of the file, refused beyond one gibibyte, and tells where the complete records end |
| Framing.PrefixReads | src/store.cpp:476-547 | any byte prefix of a journal reads as exactly its longest run of complete records |
| Framing.TruncatedReads | src/store.cpp:260-299 | after the torn tail is cut away the same records are read and nothing is torn |
| Framing.ReadsOnlyFrames | src/store.cpp:476-547 | an accepted file is the journal of the records read, followed by the torn bytes |
| Framing.ChangedByteRefused | src/store.cpp:520-524 | one changed payload byte of one complete record makes the whole file refused as corrupt |
| Snapshots.SnapshotReadsBack | src/store.cpp:363-395 | a sealed payload is read back with its sequence |
| Snapshots.SnapshotReopens | src/store.cpp:428-474 | it can be opened again exactly when header, seal and payload stay within 256 mebibytes |
| Snapshots.ChangedSnapshotRefused | src/store.cpp:428-474 | one changed byte anywhere makes the file refused |
| Snapshots.LoadedIsWritten | src/store.cpp:428-474 | an accepted file is the one the store writes exactly when its reserved field is zero |
| Storage.Store.Append | src/store.cpp:322-361 | the next sequence number, and at every byte of the write the disk tells the old history or the new one; it opens again exactly within the journal limit |
| Storage.Store.WriteSnapshot | src/store.cpp:363-395 | at every byte and rename the disk tells the same history; it opens again exactly within the snapshot limit |
| Storage.Store.RotateJournal | src/store.cpp:397-413 | afterwards, and after a crash between its steps, what is told ends with the snapshot: nothing is lost exactly when that covers the whole history |
| Storage.Open | src/store.cpp:194-320 | a disk that tells a history is opened exactly when both files are within their limits, and continues it with the next unused number |
| Storage.AppendTells | src/store.cpp:322-361 | the disk cut at any byte of one more frame tells the old history, and with the last byte the new one |
| Storage.TruncationTells | src/store.cpp:260-299 | cutting the torn tail away changes nothing that is told |
| Storage.SnapshotTells | src/store.cpp:363-395 | with the sealed image of the whole history in place, the journal below it no longer matters |
| Storage.SomePayloadIsUnreadable | include/brf/store.hpp:78 | a payload within the default bound is sealed into a file that can never be opened |
| Storage.SomeJournalOutgrows | src/store.cpp:478 | some journal is opened, takes one more record, and can then never be opened again |
| Codecs.RoundTrip | src/wire.cpp:16-43 | a value within its layout's bounds is read back, and exactly its bytes are consumed |
| Codecs.Canonical | src/wire.cpp:43-124 | whatever is accepted is the encoding of what was read, followed by what was left |
| Schemas.RecordComesBack | src/codec.cpp:1782-1806 | for each of the fourteen kinds, a record reads back as written exactly when every field is within the bounds it is read under |
| Schemas.RecordOneEncoding | src/codec.cpp:1782-1806 | an accepted payload is the one encoding of its record |
| Schemas.NoOtherLength | src/codec.cpp:1801-1803 | no strict prefix or extension of an accepted payload is accepted, under any kind |
| Schemas.OneKind | src/codec.cpp:1797-1800 | a payload is accepted under one kind only |
| Schemas.StateComesBack | src/codec.cpp:1207-1252 | the snapshot state reads back exactly within the bounds of its fields |
| Schemas.StateOneEncoding | src/codec.cpp:1207-1252 | an accepted snapshot payload is the one encoding of its state, and no other length of it is accepted |
| Wire.Writer.U64 | src/wire.cpp:27-30 | eight bytes, lowest first, built from narrower writes |
| Wire.Reader.U64 | src/wire.cpp:66-72 | the number those bytes stand for, or nothing when there are too few |
| Wire.Write | include/brf/codec.hpp:399-413 | the writer's buffer grows by exactly the encoding, field by field and item by item, for every value the fields can hold |
| Wire.Read | include/brf/codec.hpp:415-433 | the reader answers what the remaining bytes decode to and stops right behind it |
| Wire.WriteRecord | src/codec.cpp:1782-1787 | version, kind and body as one payload, for every body the fields can hold |
| Wire.ReadRecord | src/codec.cpp:1789-1806 | another version, another kind and left-over bytes are refused |
| Payloads.PayloadMeansRecord | src/codec.cpp:1067-1146 | a durable record of the coordinator means itself when read back, exactly when every field is within bounds |
| Payloads.MeaningCanBeWritten | src/codec.cpp:1107-1146 | whatever effect a journal payload has can be written again and then means the same |
| ImagePayloads.ImageReadsBack | src/codec.cpp:1187-1252 | a captured image is read back as itself exactly when every field is within bounds |
| ImagePayloads.ImageCanBeWritten | src/codec.cpp:1207-1252 | whatever image a payload holds can be written again and is then read as the same |
| CivilTime.DateRoundTrip | src/time.cpp:22-47 | every valid date survives the way to its day number and back |
| CivilTime.DayRoundTrip | src/time.cpp:22-47 | every day number survives the way to a valid date and back |
| CivilTime.NextDayNumber | src/time.cpp:22-58 | the next date by the lengths of the months has the next day number |
| CivilTime.CountingDays | src/time.cpp:32-58 | the date of day n is the one reached from the epoch by n single days |
| Timestamps.FormatThenParse | src/time.cpp:103-183 | every instant of the timeline is read back from its text, in the form of section 5.6 of RFC 3339 |
| Timestamps.ParseThenFormat | src/time.cpp:103-183 | a text with nine fraction digits that means an instant is the one written for it |
| Timestamps.ParseTimestamp | src/time.cpp:122-183 | the scanning loop accepts exactly the texts that mean an instant, and finds that instant |

## Findings

Promises that the code does not keep on all inputs, each with the condition under which it does.

- **Sums are capped before they are compared** (`include/brf/bandwidth.hpp:57-62`, `src/coordinator_admission.cpp:200`). A
  resource whose ceiling is the largest bandwidth can be promised more than it has. `Capping.ClosedUnlessOverCap` and
  `Capping.RunClosedUnlessOverCap` say exactly when, `Witnesses.CapBreaksClosure` is a run of three steps.
- **The grace of a recall is not in the journal** (`include/brf/codec.hpp:192-203`, `src/coordinator_lifecycle.cpp:600`). After a
  crash the recalled record frees its capacity at the effect. `Rebuilding.RebuiltIndex` and
  `Rebuilding.RecallLosesGrace` give the exact conditions on the record's own fields and the grace its journal
  carries, `Witnesses.GraceIsLost` a run. A snapshot does keep the grace.
- **A refused revalidation leaves a record marked current** (`src/coordinator_lifecycle.cpp:356-369`). Its entries stay in the
  index although its bindings have moved. `Turns.FirstInLine`, `Turns.NoSuspects` and
  `Coordination.Coordinator.IngestionForeseen` tell before the ingestion who will be left;
  `Coordination.Coordinator.IndexIsExact` what that does to the index; `Witnesses.WithdrawalLeavesBehind` is a run.
- **Such a record can come back unindexed** (`src/coordinator_lifecycle.cpp:348-354`). Recalled while its resource is gone, it leaves
  the index; when the resource is stated again at the same generation nothing puts it back.
  `Turns.ComesBackUnindexed` is the exact condition on the record and the ledger its entries follow. The contract of
  `Coordination.Coordinator.IngestCapacity` collects such records in `back` and restores `Valid()` exactly when there are
  none; `Witnesses.RestatementLeavesUnindexed` is a run.
- **A snapshot refused midway changes the ledger** (`src/coordinator_core.cpp:764-770`) without a record of it.
  `Witnesses.RefusedMidway` and `Witnesses.HalfStated`; the contract of `IngestCapacity` says what is left.
- **Files may be written that are too large to be read** (`src/store.cpp:429`, `src/store.cpp:478`, `include/brf/store.hpp:78`).
  `Snapshots.SnapshotReopens`, the last clauses of `Storage.Store.Append` and `WriteSnapshot`, and the witnesses
  `Storage.SomePayloadIsUnreadable` and `Storage.SomeJournalOutgrows`.
- **A snapshot forgets which attempt is the oldest** (`src/coordinator_core.cpp:573-584`). It lists attempts in order of identity, so
  after a restart a recent attempt may be evicted before an old one. `Images.OrderReturns` is the exact condition,
  `Images.SnapshotForgetsAge` a run of two refusals.
- **An expired reservation can be amended** (`src/coordinator_admission.cpp:838`, `src/coordinator_admission.cpp:851`). Whether the target
  has ended is asked before time is reconciled. `Deadlines.EndedExactly` and `Amendments.ReachesEnded` say exactly when a
  request reaches an ended record, in terms of the record before the call; `Coordination.Coordinator.Amend` ensures it of
  every new request without objection, and `Amendments.GrantedInForce` that a grant puts the identity back in force.
  `Witnesses.AmendmentRevivesExpired` is a run.
- **Revalidation forgets a pending recall** (`src/coordinator_lifecycle.cpp:403-427`) but keeps its instant.
  `Witnesses.RevalidationForgetsRecall` is the exact condition, `Witnesses.MarkIsForgotten` a run: stated, booked,
  recalled, restated under a later generation, revalidated.
- **A crash can bring back an older, longer grace** (`src/coordinator_lifecycle.cpp:600`, `include/brf/codec.hpp:192-203`).
  A revalidated record is journaled with its grace; a second recall without grace is not, and what it frees can be sold.
  `Lifetimes.CrashTakesNothing` says exactly when a crash takes more than was taken before,
  `Lifetimes.NeverOverCeilingInLife` that otherwise no ceiling is passed in any life, `Regaining.CrashBreaksClosure` is a
  life in which one is.
- **The reserved field of a snapshot file is not checked** (`src/store.cpp:428-474`). `Snapshots.SealedReadsBack`: a file
  is accepted with any two bytes there; `Snapshots.LoadedIsWritten`: it is the one the store writes exactly when both are
  zero.

## Left out

- Coordination.Coordinator.IngestCapacity: the snapshot's own identity, generation and epoch checks are not modelled.
- Coordination.Coordinator.ResolveOvercommit: stated for obligations that add up below the saturation bound, which `Resolution.PayableAtRest` shows to be so unless a record was passed over; attempts attached to its transitions are left out, since they are logged but not remembered live.
- Coordination.Coordinator.Create: requires that what is bound to the named resources stays below the saturation bound of the index, that derived identities are those of the request, and takes the policy as a parameter.
- Coordination.Coordinator.Amend: covers reservations outside a series; series amendment needs guards the code does not have.
- Coordination.Coordinator.AcquireHold: requires a hold identity not used before, because the code erases by identity when an insert fails.
- Coordination.Coordinator.Refresh: bindings are resource generations; path generations and failure domains are not modelled.
- Restarts.DiskDenotesState: histories without retirement records; recovery ends before the boot record, the reconciliation and the refresh that follow it.
- Restarts.CrashWhileWriting: where a snapshot is on disk, no attempt may have to be forgotten for the step's own, since snapshots lose their order of age.
- Endurance.DiskOutlives: the same of every step that writes a record, with or without a snapshot; a machine started again is taken before the boot record.
- Payloads.PayloadMeansRecord: fields the coordinator state does not have are written at their defaults and ignored when read; fingerprints are sixteen bytes that stand for one request.
- Images.RestoreReturns: paths, policies, fences and retired records are not part of the image.
- Path bindings, path authority and failure domains: further generations checked in the same way as resource generations.
- The policy registry and its generations: a policy is a parameter of each request.
- Boots, epochs, sessions and fences: requests are taken to have passed those checks; a hold remembers only its session.
- History retirement: the live, replayed and snapshotted forms differ.
- Recovery as in-place loops: replay, snapshot loading and the rebuilding of index and queues are modelled on values.
- Which error a decoder reports: acceptance and refusal are modelled, not the code.
- Explanations, conflict sets, statistics, provenance, reason texts and wall-clock fields of records.
- Explicit revalidation requests and the lifecycle sweep, which combine operations that are modelled.
- Identity derivation and fingerprints: identities and requests are taken as given.
- File synchronisation, directories, locks and the store's identity file; the transport, its messages and the command line.
- Years outside the calendar's domain in timestamps, where the original multiplies before it checks the range.

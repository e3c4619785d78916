# Reclaim Fabric: the reclaim protocol and what it rests on

Reclaim Fabric keeps payloads of objects on backends, shared by content hash, and reclaims objects
that are not worth keeping. Reclaiming one goes through many separate durable writes and physical
deletes, with no transaction around them; a crash may fall between any two, and recovery must then
decide from the journal, the durable deletion plan and physical truth whether to finish or to undo.
This project models that protocol as a transition system and proves its promises over every run. Around
it stand the recovery routines themselves (methods over a mutable store), the lineage graph, the
coordinator lease and the node fence, the policy registry, the batch planner, the frame codec, and the
compress, archive and restore operations.

How the parts fit together:

- `Fabric` has the entities and tables. `Durable` states what any crash may leave behind
  (`DurableOk`) and what recovery must make of it (`IsOutcome`).
- `RecoveryWrites` and `Restart`: recovery as single durable writes. Each keeps `DurableOk` and the
  outcome, so recovery may be cut off and restarted anywhere. The outcome is unique and is all or nothing.
- `Reconcile` and `Recovery`: the methods of src/recovery.rs over a mutable
  `Store`. Each hands back the recovery writes it made as a ghost sequence, which ties the loops to the
  theorems on runs.
- `Lifecycle` (module `LifecycleTable`) and `Protocol`: creates, reclaims, pins, lineage edges, fencing,
  crashes and recoveries interleaved step by step under the coordinator's guards. `Invariant` is what
  holds throughout. `Locality`, `ControlSteps`, `CreateSteps`, `ReclaimSteps`, `PhysicalSteps`, `CommitSteps`
  and `OtherSteps` prove that every step keeps it. `Safety` has the theorems about runs, `Progress` shows
  that no operation gets stuck by itself, and `Findings` has the promises the code breaks, with the exact
  condition. The bodies of `create_object` and `reclaim` are given as steps, one per durable or physical
  write, because their properties are about what may happen between two writes.
- `Survival`, `Creation` and `Leaks` add what the tables promise the owner of an object: copies that must be
  kept are kept, a create stores what it was asked for, and operations free exactly what nobody needs.
- `LastOwner`, `Tiers`, `Lineage`, `Lease`, `Policy` (module `Policies`), `Planner` and `Frames` stand by
  themselves. `Dependents` ties the lineage graph's dependency check to the protocol's.

A run starts from any consistent store at rest (`Init`), not only from an empty one.

Findings:

- `abort_reclaim` returns the first failing write to its caller, which does not fence. If the reservation
  was released already, the object can be reclaimed again while the old journal row is open. The invariant
  survives exactly when the reservation was still open (`Findings.AbortFailure`,
  `Findings.TornAbortOpensTwo`).
- A reclaim that commits in process leaves the copy count and the sizes of its object as they were, and one
  that recovery finishes clears them (`Findings.CommitKeepsSizes`).
- An online recovery that fails between closing an attempt's reservation and its journal row ends all the
  same, with the same effect. The invariant survives exactly when each attempt whose reservation it closed
  had its journal row closed as well (`Findings.OnlineRecoveryEnd`, `Findings.CutRecoveryOpensTwo`).
- A create that could not publish its object waits again for the payload guards to clean up. If it gives
  up waiting, its rows stay without an object, and recovery refuses the store from then on
  (`Findings.AbandonedCleanup`, `Findings.CleanupCanBeAbandoned`, `Recovery.Store.ReconcileStore`).
- Recovery's roll-back writes the journalled object back whole, so a pin set after a reclaim failed early
  is lost (`Findings.PinLost`). Pin and protection survive exactly when no attempt that is rolled back both
  moved the object and journalled other flags (`Findings.RecoveryKeepsFlags`).
- The archive key is made of object and replica. A failing second archive of one replica deletes the bytes
  the first one refers to, exactly when an archive row with its bytes already stands at that key
  (`Tiers.Tier.ArchiveObject`, `Tiers.SecondArchiveLoses`).
- `restore` of an object that still has a hot copy does not undo its object write when the audit write
  fails, and that is the only failure it does not undo; rows and references are unaffected
  (`Tiers.Tier.RestoreObject`, `Tiers.RestoreHalfDone`).
- A node compares an operation's stamp with its epoch once, on arrival. Operations let in before a later
  epoch was learned may execute after it, and no others of an old stamp do (`Lease.StaleExecutions`).
- The frame encoder truncates the length of a payload of 4 GiB and more. What a reader then finds, if
  anything, is never the message (`Frames.AcceptedIff`, `Frames.TruncatedDiffers`).
- The comment at src/policy.rs:208 lists the specificity tiers without survivability; the code has it
  between durability and the default, and so has the model.

## Model

| member | source | states |
|---|---|---|
| Safety.CrashAtomicity | src/recovery.rs:320-402 | stopped at any point of any run and recovered with any number of interruptions, an open attempt ends fully reclaimed, its object counting and storing nothing any more and otherwise unchanged; or fully restored, its object the one from before the attempt; or open with part of its deletions executed; as physical truth decides |
| Safety.FateDecided | src/coordinator.rs:1829-1892 | in every reachable state recovery's verdict on a running reclaim is: undo if nothing was deleted, finish if everything was, stuck only in between |
| Safety.LiveCommitComplete | src/coordinator.rs:1893-1938 | the last write of a live commit leaves the attempt fully reclaimed, and the object what it was but for its state |
| Safety.LiveAbortComplete | src/coordinator.rs:1987-2017 | the last write of a live abort leaves the very object from before the attempt, and all its rows and bytes |
| Safety.SharedPayloadSafety | src/coordinator.rs:1756-1868 | under every interleaving, every replica row at a place that is deleted is one the deleting reclaim scheduled |
| Safety.ReplicaReadable | src/coordinator.rs:742-889 | a replica row outside a physical-phase attempt has its payload, with its own content |
| Safety.ReferenceConservation | src/persistence.rs:1100-1189 | the dedup row of an unlocked payload is exactly the count, key and size of its replica rows, and absent without any |
| Safety.ConservedAtRest | src/coordinator.rs:771-889 | with no operation running, after any mixture of completions and compensations, the dedup table is the group-by of the replicas |
| Safety.RecoveryExcludes | src/coordinator.rs:568-582 | recovery and any object or payload operation exclude each other |
| Safety.HeldDisjoint | src/coordinator.rs:518-566 | two operations never hold the same payload key |
| Safety.NoCircularWait | src/coordinator.rs:518-566 | who waits for payload keys holds none, and whoever blocks it is not waiting |
| Safety.PhaseOnlyAdvances | src/persistence.rs:1718-1804 | over every run a journal row's phase only advances, terminal rows and schedules never change, a plan is set once |
| Safety.JournalDiscipline | src/persistence.rs:1640-1804 | a physical phase has a plan over scheduled rows, an object has at most one open row, a terminal row has the matching attempt and a closed reservation |
| Safety.OpenReservationLive | src/recovery.rs:244-297 | every open reservation has an open journal row, so the branch that marks objects FAILED is unreachable |
| Safety.ReclaimedForever | src/lifecycle.rs:85-178 | RECLAIMED is final over every run |
| Safety.ReclaimFair | src/coordinator.rs:1557-1575 | no step, recovery included, moves a pinned, protected, durable or critical object into RECLAIMED |
| Safety.ReclaimedOwnsNothing | src/recovery.rs:626-724 | a RECLAIMED object owns no replica or archive rows and needed none |
| Safety.DependentsSafeAtCommit | src/coordinator.rs:1249-1287 | direct-dependent safety, checked at validation, still holds when the object turns RECLAIMED |
| Safety.OrphansAreCutCreates | src/coordinator.rs:589-739 | a crash leaves an orphan row exactly when it cuts off a create that has made rows |
| Survival.CopiesKept | src/coordinator.rs:1512-1531 | over every run, crashes and recoveries included, a durable or critical object stays what it is but for its flags, and keeps every replica and archive row, each with its bytes |
| Creation.CreateComplete | src/coordinator.rs:589-739 | a published object has exactly one valid row, with its bytes, on each backend asked for; its size and copy count say so; a durable one has a copy, a critical one two |
| Creation.RequestKept | src/coordinator.rs:742-768 | what a create was asked for, content, object and backends, stays the same while it runs |
| Creation.BornAndKept | src/coordinator.rs:589-739 | whatever runs after it was published, a durable or critical object has a valid row with its bytes on every backend it was stored on |
| Leaks.PlanIsLastOwner | src/coordinator.rs:1768-1814 | a starting reclaim aims at the place of a row exactly when every replica row there is its object's, and at all its archives |
| Leaks.ReclaimFrees | src/coordinator.rs:1815-1905 | when a reclaim commits, the bytes of a row it scheduled are still there exactly if another object has a row at the same place |
| Leaks.NothingLeaks | src/coordinator.rs:771-889 | from rest to rest, through any interleaving of creates and reclaims, completed or taken back, no payload is left that no row refers to |
| Safety.ReachableInv | src/coordinator.rs:1557-1949 | every state of every run satisfies the invariant |
| LifecycleTable.TableEnds | src/lifecycle.rs:85-178 | nothing leaves RECLAIMED and FAILED and no other state is final, and only RECLAIM_PENDING leads to RECLAIMED |
| LifecycleTable.TierStates | src/lifecycle.rs:85-178 | an object may be compressed exactly from HOT, WARM and COLD, archived from these, COMPRESSED and DEDUPED, and become WARM from every state but the final ones |
| LifecycleTable.RouteStates | src/coordinator.rs:1633-1660 | a reclaim may start exactly on objects past the hot tiers, and on hot ones that can be made again or are ephemeral |
| OtherSteps.StepKeeps | src/coordinator.rs:1557-1949 | every step of create, reclaim, recovery and everything else keeps the invariant |
| CreateSteps.CreateKeeps | src/coordinator.rs:742-889 | every step of a create and of its compensation keeps it |
| CreateSteps.SweptUnused | src/coordinator.rs:857-879 | a payload a failed create deletes has no rows |
| CommitSteps.ReclaimKeeps | src/coordinator.rs:1662-1938 | every step of a reclaim keeps it |
| PhysicalSteps.PlanOwnsPlace | src/coordinator.rs:1756-1814 | under the guards, a row at a place the plan deletes is one of the scheduled rows |
| PhysicalSteps.SurvivableExpendable | src/coordinator.rs:1512-1531 | an object that may lose every copy is of a class that needs none |
| PhysicalSteps.SurvivableIff | src/coordinator.rs:1512-1531 | losing every copy is survivable exactly for ephemeral and reproducible objects |
| PhysicalSteps.NothingOpen | src/coordinator.rs:1581-1586 | an idle object without an open reservation has no open attempt |
| Locality.LocalKeeps | src/coordinator.rs:498-582 | an operation that changes only its object and the payloads it locked cannot disturb the others |
| Progress.DedupHitIsPresent | src/coordinator.rs:786-801 | a create that finds its content counted always finds the canonical payload there, with the right bytes |
| Progress.CreateGoesOn | src/coordinator.rs:771-889 | a create that is not waiting for keys can take its next step without giving up, unless a reference count is at its limit |
| Progress.PlanNeverRefused | src/coordinator.rs:1768-1814 | a reclaim holding its payload keys never finds its schedule at odds with the dedup table |
| Progress.ReclaimAdmitted | src/coordinator.rs:1557-1660 | a reclaim is admitted exactly on an idle, unguarded object whose class needs no copy, without an open reservation, past the hot tiers or able to be made again |
| Progress.ReclaimGoesOn | src/coordinator.rs:1706-1938 | a reclaim that has reserved and is not waiting for keys can take its next step, giving up only where validation fails |
| LastOwner.PlanPhysical | src/coordinator.rs:1768-1814 | plans one representative for exactly the payloads of which the schedule has all references, and refuses exactly the schedules that disagree with the dedup table |
| LastOwner.TallyRows | src/coordinator.rs:1769-1790 | counts the scheduled rows of each payload, failing only when two of them disagree on its key |
| RecoveryWrites.WriteKeeps | src/recovery.rs:482-724 | every single recovery write keeps what a crash may leave behind |
| RecoveryWrites.WriteKeepsOutcome | src/recovery.rs:482-724 | no single recovery write changes what recovery is heading for |
| Restart.RunReachesOutcome | src/recovery.rs:210-312 | a recovery that runs out of work has reached the outcome of the state it started from |
| Restart.OutcomeUnique | src/recovery.rs:210-312 | a crash state has one outcome |
| Restart.OutcomeObjects | src/recovery.rs:482-724 | recovery's outcome, field by field: a committed object is RECLAIMED with no copies, no size and no compressed size and otherwise unchanged; an undone one is the journalled one if it had moved on; no other object changes |
| Restart.Restartable | src/recovery.rs:210-312 | cut off anywhere and run again, recovery ends in the very tables of an uninterrupted run |
| Restart.AllOrNothing | src/recovery.rs:320-402 | the outcome is fully reclaimed, fully restored or reported open, for every open attempt, with the object's fields as Restart.OutcomeObjects says |
| Recovery.Store.ReconcileStore | src/recovery.rs:210-312 | makes only recovery writes, succeeds exactly when no row is an orphan, then has reached the outcome and reports exactly the attempts it committed, undid and could not decide |
| Recovery.Store.SweepJournal | src/recovery.rs:227-243 | settles the open rows one by one, touching no row it has not decided |
| Recovery.Store.ReconcileEntry | src/recovery.rs:320-402 | settles one row by its verdict or leaves it as it is |
| Recovery.Classify | src/recovery.rs:320-402 | decides a well-identified row exactly when journal and physical truth do |
| Recovery.Store.RollBackAttempt | src/recovery.rs:482-547 | undoes an attempt by recovery writes, failing exactly on orphans; an object that had moved on is the journalled one again, another is untouched |
| Recovery.Store.RestoreRows | src/recovery.rs:549-590 | puts back missing scheduled rows, and refuses exactly when a scheduled row has changed or the place of a missing one holds something else |
| Recovery.Store.RestoreVaults | src/recovery.rs:592-623 | the same for archive rows, with the same exact refusal |
| Recovery.Store.CommitAttempt | src/recovery.rs:626-724 | finishes an attempt by recovery writes, whatever of it the crashed process had done; the object ends RECLAIMED with copy count, size and compressed size cleared and nothing else changed |
| Recovery.Store.DropRowOf | src/recovery.rs:655-674 | drops a row and releases its reference, possibly a second time, staying on the way to the outcome |
| Recovery.Store.CloseRecords | src/recovery.rs:716-723 | reservation, attempt, and journal row last, resumable after a crash in between |
| Recovery.Store.CloseAttemptOf | src/persistence.rs:1371-1413 | records an outcome, accepting only an open attempt or the same outcome |
| Recovery.Store.ExpireReservations | src/recovery.rs:244-297 | changes nothing on any state a crash of this protocol can leave |
| Recovery.Store.RepairDedupCounts | src/recovery.rs:730-834 | makes the dedup table the group-by of the replicas, reports no repair exactly when it was already, refuses exactly the unrepairable tables and then changes nothing |
| Reconcile.CountLive | src/recovery.rs:740-782 | the group-by of the replicas, or an error exactly for orphans, rows of RECLAIMED objects and disagreeing rows |
| Reconcile.QueryPhysical | src/coordinator.rs:2946-2997 | all targets gone, all there, or an error exactly when mixed |
| Recovery.RepairableIffNoOrphans | src/recovery.rs:749-765 | on a crash state of this protocol the only unrepairable rows are orphans |
| Recovery.RunKeepsOrphans | src/recovery.rs:210-312 | recovery neither makes nor removes an orphan |
| Findings.AbortFailure | src/coordinator.rs:1987-2017 | an abort that fails part-way keeps the invariant exactly when it had not released the reservation |
| Findings.TornAbortOpensTwo | src/coordinator.rs:1987-2017 | a run after which a failed abort admits a second reclaim and two open journal rows |
| Findings.CommitKeepsSizes | src/coordinator.rs:1893-1938 | a live commit and a recovered one leave the same object exactly when there was no copy count, size or compressed size to clear |
| Findings.OnlineRecoveryEnd | src/coordinator.rs:2944-2997 | ending an online recovery, after any sequence of its writes, keeps the invariant exactly when every attempt whose reservation it closed also had its journal row closed |
| Findings.CutRecoveryOpensTwo | src/coordinator.rs:2944-2997 | a run after which such a recovery admits a second reclaim and two open journal rows |
| Findings.AbandonedCleanup | src/coordinator.rs:724-736 | a create that gives up its cleanup keeps the invariant exactly when it had made no rows |
| Findings.CleanupCanBeAbandoned | src/coordinator.rs:724-736 | a run to a cleanup that is abandoned with a row made, after which recovery refuses the store |
| Findings.RecoveryKeepsFlags | src/recovery.rs:482-502 | a complete recovery of any reachable store keeps an object's pin and protection exactly when no attempt it rolls back has moved the object and journalled other flags |
| Findings.PinLost | src/recovery.rs:482-502 | a reachable store whose every complete recovery takes back a pin |
| Lineage.LineageGraph.AddEdge | src/lineage.rs:65-101 | succeeds exactly when both ends are registered and the edges stay acyclic; the graph stays valid |
| Lineage.LineageGraph.RemoveEdge | src/lineage.rs:103-110 | removes the edge from both indexes and keeps the graph valid |
| Lineage.LineageGraph.Reaches | src/lineage.rs:113-131 | finds the target exactly when a path leads there |
| Lineage.LineageGraph.DependencySafe | src/lineage.rs:207-242 | Ok exactly when no live node without a recipe hangs on the candidate by a nonempty all-DEPENDS_ON path |
| Dependents.CheckDependencies | src/coordinator.rs:1535-1552 | passes exactly when nothing that hangs on the object, however far away, would be invalidated, and exactly when the object and all that hangs on it pass the direct check |
| Dependents.TransitiveIsDirect | src/coordinator.rs:1535-1552 | the transitive check is the protocol's direct one asked of everything reachable, so passing it implies the direct one on the same edges |
| Lineage.LineageGraph.Validate | src/lineage.rs:271-363 | accepts an arbitrary snapshot exactly when ids are registered, edges filed under their ends once, both indexes equal, and there is no cycle |
| Lineage.Collect | src/lineage.rs:283-326 | collects an index exactly when every edge is under its own key and none repeats |
| Lineage.Sorts | src/lineage.rs:329-361 | Kahn's algorithm visits every node exactly when the edges are acyclic |
| Lineage.Rebuild | src/persistence.rs:929-989 | rebuilding succeeds, in every row order, exactly when ends are registered and the edge set is acyclic |
| Lineage.NewEdgeAcyclic | src/lineage.rs:86-94 | a new edge closes a cycle exactly when its child leads to its parent |
| Lineage.StuckCycle | src/lineage.rs:342-361 | nodes Kahn's algorithm cannot free contain a cycle |
| Lease.Coordinator.ClaimCoordinator | src/persistence.rs:1884-1949 | a granted epoch is above every epoch ever granted and is the caller's; Conflict exactly when the lease was renewed at some nonzero time at most a window before now, in plain integers, and granted exactly otherwise; a refused claim changes nothing |
| Lease.Coordinator.Heartbeat | src/persistence.rs:1954-1982 | succeeds exactly for the last grant, released or not, never moves the renewal time back, and keeps others off for every window that reaches back to now; a refused one changes nothing |
| Lease.Coordinator.Release | src/persistence.rs:1989-2011 | succeeds exactly for the last grant, after which no lease is fresh at any time; a refused one changes nothing |
| Lease.EpochsIncrease | src/persistence.rs:1884-1949 | a later grant has a higher epoch, whatever happens in between |
| Lease.SupersededForever | src/persistence.rs:1954-2011 | who does not hold the lease is refused for good, and changes nothing |
| Lease.FreshNotTaken | src/persistence.rs:1922-1943 | a lease kept fresh keeps its holder |
| Lease.HeartbeatRevives | src/persistence.rs:1954-2011 | after a release the same holder's heartbeat takes the lease back, exactly while no more than the window has passed since |
| Lease.Node.HeartbeatCycle | src/node.rs:525-603 | a cycle succeeds exactly when no reply is missing or older than an epoch learned, and then the node knows the last reply's epoch as its newest; it forgets no epoch and learns none it was not sent |
| Lease.Node.Admit | src/node.rs:232-243 | lets an operation in exactly when its stamp is the newest epoch ever learned |
| Lease.NeverBelow | src/node.rs:222-268 | a node lets in nothing stamped below an epoch it has learned |
| Lease.StaleExecutions | src/node.rs:232-256 | the operations of a superseded stamp that execute after a later epoch was learned are exactly those that were admitted before it and had not finished |
| Lease.StaleIff | src/node.rs:232-256 | an operation of a superseded stamp may still execute exactly when one was running as the later epoch was learned |
| Lease.SupersededCannotAct | src/node.rs:525-603 | once a node has heard from a later coordinator it lets in nothing of an earlier one, and executes no more of it than was running then |
| Policies.PolicyRegistry.Add | src/policy.rs:139-152 | admits exactly valid policies with a new id and version |
| Policies.ValidIff | src/policy.rs:329-399 | a policy is valid exactly when named, with sound numbers, and with the one selector its kind asks for and no other |
| Policies.PolicyRegistry.ValidateComplete | src/policy.rs:171-204 | accepts exactly the registries with valid policies, one default and distinct selectors |
| Policies.SameSelectorIff | src/policy.rs:171-204 | two valid policies have one selector exactly when they are of one kind and some object and pressure fit both |
| Policies.CompleteResolves | src/policy.rs:207-273 | a complete registry resolves every object at every pressure to the one policy of the first tier that applies |
| Policies.KindOrder | src/policy.rs:207-273 | no policy is resolved while one of an earlier kind fits the object and pressure, in the order emergency, pressure, class, owner, durability, survivability, default, with each kind's match written out |
| Policies.ResolveFails | src/policy.rs:207-273 | resolution finds nothing exactly where no policy fits |
| Policies.OrderFree | src/policy.rs:310-327 | resolution, errors included, is the same for every order of registration |
| Policies.AtMostOne | src/policy.rs:280-308 | with distinct selectors at most one policy applies at a tier |
| Planner.Candidates | src/coordinator.rs:1413-1497 | the first `limit`, by higher score and then lower id, of exactly the eligible objects whose own plan says RECLAIM; one is left out only if the batch is full of none worse; fails only on the limit or where such a plan fails |
| Planner.ValidReplicaCounts | src/coordinator.rs:1424-1437 | the batched counts are the per-object counts |
| Planner.ContextIs | src/coordinator.rs:1446-1471 | an object's context: its DEPENDS_ON children neither gone nor reconstructible, and the copies its class needs if it has any |
| Planner.RankingUnique | src/coordinator.rs:1480-1486 | score descending then id ascending leaves one order |
| Frames.EncodeFrame | src/transport.rs:104-115 | whatever bytes follow, the only message a reader can find in front is the one that was encoded; one over the limit yields no message's frame |
| Frames.Fields | src/transport.rs:5-14 | byte by byte, magic, version, kind, length and checksum stand where the wire format puts them, high byte first |
| Frames.Decode | src/transport.rs:120-206 | under every chunking: end of stream, or exactly one encoded message, or an error exactly when the bytes start with no frame |
| Frames.ReceiveAll | src/transport.rs:120-206 | reads back any list of messages in order and refuses every other byte stream |
| Frames.StreamFront | src/transport.rs:104-206 | concatenated frames have one reading |
| Frames.CutShort | src/transport.rs:120-206 | no proper prefix of a frame holds a frame |
| Frames.AcceptedIff | src/transport.rs:104-172 | what is encoded, of any size, starts a frame exactly when the truncated length field is within the limit and the checksum over what it covers is the one sent |
| Frames.TruncatedDiffers | src/transport.rs:104-172 | what a reader finds in an encoded message is its payload up to the truncated length, and is the message exactly when the payload is within the limit |
| Tiers.Tier.Compress | src/coordinator.rs:2027-2255 | swaps the primary row for one of the object's generation that expands to the content, with the squeezed length as size and compressed size and nothing else of the object changed, or leaves all tables as before; no remaining row loses its bytes and no payload is left unused |
| Tiers.Tier.CompressVerified | src/compression.rs:133-168 | what it returns expands to what went in |
| Tiers.Tier.SwapBack | src/coordinator.rs:2190-2233 | from any failure point the compensation puts every table back |
| Tiers.Tier.RecordRow | src/coordinator.rs:2540-2608 | from any failure point restore's compensation puts every table back |
| Tiers.Tier.ArchiveObject | src/coordinator.rs:2259-2364 | succeeds exactly when the object has a fresh copy to write and both writes go through, with an archive row of the object's generation at the replica's key; otherwise the tables stay, and some archive row loses its bytes exactly when a row with its bytes already stood at the same object and replica |
| Tiers.SecondArchiveLoses | src/coordinator.rs:2310-2364 | a sound store in which a failing second archive takes the bytes of the first |
| Tiers.Tier.RestoreObject | src/coordinator.rs:2367-2612 | succeeds exactly when the archive is readable and the writes go through: the object is WARM with the size of its content and the count of its valid rows and nothing of a compression, an intact hot copy is taken if there is one and a new row of its generation made otherwise, nothing else changes and no payload is left unused; a failure leaves every table as before unless a hot copy was taken and the audit write failed, and then exactly not |
| Tiers.RestoreHalfDone | src/coordinator.rs:2367-2612 | a sound store in which that exception occurs |
| Tiers.Tier.CompressArchiveRestore | src/coordinator.rs:2027-2612 | from every undamaged store in which the object can be compressed and its archive key is free, compressing, archiving and restoring it brings its content back |

## Left out

- SQLite, SQL text and row decoding: each Store method is one atomic step on maps; a failing store method has no effect.
- Sockets, threads, timeouts, clocks: timing is nondeterministic; the moment a wait times out is any moment.
- SHA-256 and the CRC-32C polynomial: content equality stands for hash equality, and frames are proved for every checksum function.
- Payload keys: a generated key determines the content stored under it, so a key is a content with a suffix.
- Floating-point scores and weights: `decide` is any function of object and context with a real score; the numeric checks on a policy are one flag.
- Iteration orders of hash maps and tables: arbitrary in every method.
- Runs in which a compensation write fails as well, other than those under Findings. The code returns an error there and does not fence.
- Missing archive backends and nodes that do not answer, during deletion or recovery: backends named in journals answer.
- Audit rows, failure records, statistics, decision rows and error texts; several error kinds are merged.
- Repeated ids inside a journal payload: scheduled rows are maps by id.
- Creates, reclaims, pins and edges interleave in the transition system; `Tiers` runs one operation at a time under its object guard, without crashes in between.
- The plan verdict, retention deadlines and force flag at the start of a reclaim: a reclaim may begin on any object the hard checks admit.
- verify, touch, dedup promotion and policy updates through the coordinator.
- `descendants`, `ancestors`, `superseded` and `neighbors` of the lineage graph: easy members over the same searches.
- Safety.DependentsSafeAtCommit: direct dependents only, because edges further down may be added while the reclaim runs; the transition system keeps DEPENDS_ON edges only and asks less of them at validation than the transitive check does (`Dependents.TransitiveIsDirect`).
- Safety.ConservedAtRest: runs in which the clean-up of a failed create fails itself are left out, except for the abandoned wait of `Findings.AbandonedCleanup`.
- Safety.ReachableInv: runs past the failing abort of `Findings.AbortFailure` or the failing online recovery of `Findings.OnlineRecoveryEnd` are left out, because the invariant is lost there.
- Safety.JournalDiscipline: at most one open row per object holds for runs without the failing aborts and failing online recoveries of `Findings.AbortFailure` and `Findings.OnlineRecoveryEnd`.
- Blank names in policies: blank means made of spaces, tabs and line ends.
- Objects without a content hash: `Tiers` has every object with one.

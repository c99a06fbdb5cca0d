# ELITEIPC in Dafny

ELITEIPC moves messages between processes through one shared mapping. This
project models the protocols that make that safe and proves them for every
capacity, every number of endpoints, every run and every interleaving.

| module | what it models |
|---|---|
| `Words`, `NcqQueue` | ticket, cycle and slot arithmetic of the circular index queues; one queue and its frontier |
| `Core` | what both layouts share: descriptors, messages, entry and admission checks, retirement |
| `NcqPool`, `NcqInvariant`, `NcqSafety` | the whole NCQ message pool as a transition system, one shared atomic per step, and the invariant every action keeps |
| `NcqTheorems`, `NcqProgress` | refinement of two atomic FIFOs, token conservation, end-to-end delivery, counter adequacy, the quarantine bound, lock freedom |
| `NcqHistory` | a monitor over whole runs: what each commit call published, in which order, under which block and epoch |
| `NcqDamage`, `SpscDamage` | runs in which one published payload is damaged |
| `NcqMutants` | the wrong protocols of `formal/models/ncq.py`, refuted against the pool invariant |
| `NcqCalls` | `el_ncq_enqueue` and `el_ncq_dequeue` as retry loops over a mutable queue, under interference of all other connections |
| `QueueOracle`, `QueueCeiling` | the snapshot oracle that rebuilds a queue from its words, and a run to the one kind of legal queue it rejects |
| `SpscChannel` | the calls of the single-producer single-consumer channel on mutable endpoints with stale cached cursors |
| `SpscRing`, `SpscTheorems` | the same channel as a transition system with a moving admission gate, and what holds over its runs |
| `Handoff`, `Closure` | release/acquire happens-before of the payload handoff; the transitive closure its analysis uses |
| `Lifecycle`, `LifecycleSafety`, `LifecycleTheorems`, `LifecycleProgress` | admission gate word, one-shot grants, attach, detach, retire, quarantine, reap, destroy, and the termination of every compare-and-swap loop |
| `Ledger` | the authority's bounded table of backing objects |
| `Parking` | the wait/notify protocol on one wait word, under release/acquire visibility |
| `Exporter` | Python buffer exporters over one lease, under arbitrary nesting of callbacks |
| `Explorer`, `Elimination` | the explicit-state explorer: breadth-first search, witnesses, elimination of no-progress edges |
| `Crc`, `Crc32` | the CRC-64 and CRC-32 loops on bit registers, the table-driven CRC-32, burst detection |
| `Geometry`, `Prefix` | checked layout arithmetic; the 512 header bytes, their construction and validation |
| `Limbs`, `Bits`, `Ratio` | the five-limb arithmetic and the exact decimal printer |

Two modelling conventions recur. A *transition system* has a state, an `Enabled`
predicate, an `Apply` function with at most one shared access per action, and
`Run`/`After` over lists of actions, so a statement about `After` is a statement
about every interleaving. An *auxiliary* field (a queue's `log`, a pool's `place`,
`published` and `delivered`, a lease's `owner`) is read by no branch of the modelled
code; it only records what the theorems speak about. `NcqHistory` keeps its records
beside the pool instead: `Watch` looks at one action, `Watched` folds it over a run.

The central invariant of the queues: with `U` the length of the log, the cell of
slot `j` holds the entry of the one ticket in `[U - n, U)` that is congruent to `j`.
No code checks for a full queue. An install is safe because the caller's token is
outside both queues, so by counting at most `n - 1` tickets are live.

Four findings are stated as theorems rather than assumed away. The explorer's `run`
tests the invariant on targets of transitions only, so PASS gives the invariant in
all reachable states exactly when the initial state has it
(`Explorer.PassMeansInvariant`, with the model `Explorer.Untested`). The snapshot
oracle rejects a legal queue when a cursor stands exactly at the ticket ceiling, and
only then (`QueueOracle.OracleExact`, with a run that gets there in
`QueueCeiling.OracleRejectsLegalQueue`). The COUNTER_LIMIT and INTEGRITY exits of
`el_ncq_dequeue` are dead code (`NcqCalls.SharedQueue.Dequeue`). The authority's test
for a free slot when it creates an object never decides anything
(`Ledger.SlotIsFree`).

## Model

| member | source | states |
|---|---|---|
| `Words.MaskIsModulo` | src/elite_mpmc_ncq.c:12-19 | for a power-of-two ring `t & mask` is the remainder and `t & ~mask` what is left of the ticket |
| `Words.EntryParts` | src/elite_mpmc_ncq.c:16-31 | `cycle \| block` gives back exactly the ticket's cycle and the block, for any ticket and block |
| `Words.SlotInWindow` | src/elite_mpmc_ncq.c:17 | every slot is used by some ticket of any n consecutive tickets |
| `Words.SlotUnique` | src/elite_mpmc_ncq.c:17 | two different tickets less than n apart never share a slot |
| `NcqQueue.Observe` | src/elite_mpmc_ncq.c:18-26 | what a saved ticket and the present cell imply: same cycle means below the frontier, one older means at or above it, otherwise the ticket is stale |
| `NcqQueue.TailCasKeeps` | src/elite_mpmc_ncq.c:20-25 | helping the tail never passes the frontier and changes no ticket's meaning |
| `NcqQueue.HeadAdvanceKeeps` | src/elite_mpmc_ncq.c:53-61 | advancing the head removes exactly the front block and keeps the window invariant |
| `NcqQueue.InstallKeeps` | src/elite_mpmc_ncq.c:28-31 | an install at the frontier appends, and overwrites only the dead ticket n before it |
| `NcqQueue.EntryFits` | src/elite_format.c:73 | below the ticket ceiling every encoded entry stays at most 2^64 - 1 - n |
| `NcqInvariant.Pigeonhole` | src/elite_mpmc_ncq.c:28-29 | distinct block ids below n that miss one block number fewer than n |
| `NcqInvariant.NotFull` | src/elite_mpmc_ncq.c:28-29 | a block held outside both queues makes each queue shorter than n, which replaces the missing full check |
| `NcqSafety.ClaimTakesFront` | src/elite_mpmc_ncq.c:56-61 | a head CAS on a saved current entry claims the front block, the one captured |
| `NcqSafety.InstallAtFrontier` | src/elite_mpmc_ncq.c:28-32 | an entry CAS that succeeds is at exactly the frontier of a queue that is not full, with a block only its connection holds |
| `NcqSafety.OwnedPhase` | src/elite_mpmc_ncq.c:75-116 | the private part of each call moves its block to the next phase and takes no integrity branch |
| `NcqSafety.ActionKeeps` | src/elite_core.c:135-237 | every action of every party keeps the pool invariant |
| `NcqSafety.RunKeeps` | formal/models/ncq.py:69-101 | the pool invariant holds along every run, for any number of connections |
| `NcqSafety.InitialHolds` | src/elite_shm.c:121-162 | construction establishes it for every admitted capacity |
| `NcqTheorems.ActionRefines` | src/elite_mpmc_ncq.c:8-67 | entry CAS appends at the frontier, head CAS pops the front and returns it, a one-older load is an instant of emptiness, everything else stutters |
| `NcqTheorems.EveryRunIsFifo` | src/elite_mpmc_ncq.c:8-67 | every run from construction is a run of two atomic FIFOs that start as the identity and empty |
| `NcqTheorems.TokenConservation` | src/elite_mpmc_ncq.c:69-122 | in every reachable state each block is exactly once in QF, QR, one connection or the abandoned set of a retired generation |
| `NcqTheorems.QueuedPhases` | src/elite_mpmc_ncq.c:76-116 | QF members are EMPTY and QR members COMMITTED with status epoch equal to descriptor epoch and an admissible length |
| `NcqTheorems.DeliveredIsPrefix` | src/elite_mpmc_ncq.c:88-110 | the messages claimed so far are a prefix of the messages published so far |
| `NcqTheorems.PublishesOffer` | src/elite_mpmc_ncq.c:96-101 | only a ready-queue entry CAS publishes, and it publishes its own connection's message |
| `NcqTheorems.OfferIsCommit` | src/elite_core.c:163-178 | that message is what an accepted commit call named: length, type, id, epoch and the payload bytes at the call |
| `NcqTheorems.ReadGrant` | src/elite_core.c:110-133 | a granted read is one published message, unchanged in memory while held, shared with no other grant |
| `NcqTheorems.NoIntegrityFailure` | src/elite_core.c:116-126 | no call of a fault-free run reports an integrity failure |
| `NcqTheorems.CountersFit` | src/elite_mpmc_ncq.c:15-54 | every head, tail and entry of a reachable state stays below the ceiling and its successor does not wrap |
| `NcqTheorems.EpochsFit` | src/elite_mpmc_ncq.c:78-82 | epochs stay at or below the ceiling and every shifted status word is exact |
| `NcqTheorems.QuarantineDrains` | src/elite_core.c:31-46 | NCQ: from QUARANTINED on a connection performs at most one more queue linearization point, and none unless a call is already past its admission check |
| `NcqDamage.DamageIsRefused` | src/elite_core.c:110-126 | with a published payload hit by a burst of at most 64 bits, every run is the undamaged run until a consumer validates the block; that call answers INTEGRITY, the failure word is set and the gate is no longer READY, and no later call of that consumer answers OK |
| `NcqDamage.RunTwin` | src/elite_core.c:110-126 | until it is validated the bytes of a published or claimed block influence no step of any party, and nobody writes them |
| `NcqMutants.SplitHeadBreaks` | formal/models/ncq.py:133-141 | a head stored without comparison breaks the invariant in every state where the comparison fails, abandoned blocks apart |
| `NcqMutants.StaleRetryBreaks` | formal/models/ncq.py:144-145 | refreshing the head and keeping the entry is harmless exactly when the entry happens to be that of the new ticket |
| `NcqMutants.OverwriteBreaks` | formal/models/ncq.py:212-213 | adopting the winner's entry after a lost install breaks the invariant in every state |
| `NcqMutants.TailFirstBreaks` | formal/models/ncq.py:194-197 | so does advancing the tail before the install |
| `NcqMutants.LateWriteBreaks` | formal/models/ncq.py:216-219 | so does changing the message of a block just published and still queued |
| `NcqMutants.EarlyReturnBreaks` | formal/models/ncq.py:174-178 | so does returning a block its reader still uses |
| `NcqHistory.CommitPublishesOnce` | src/elite_mpmc_ncq.c:88-101 | in every run an accepted commit call publishes at most once, exactly once if it answers OK and never if it answers anything else |
| `NcqHistory.PublishedIsCommits` | src/elite_mpmc_ncq.c:96-101 | in every run the publication log is exactly the messages of those calls in the order of their QR installs |
| `NcqHistory.AbortedNeverPublished` | src/elite_mpmc_ncq.c:111-122 | in every run a use that an abort ended is the use of no publication |
| `NcqHistory.ReturnsOnce` | src/elite_mpmc_ncq.c:111-122 | an accepted abort or release call returns its block to QF exactly once if it answers OK and never otherwise |
| `NcqHistory.EpochsNeverRepeat` | src/elite_mpmc_ncq.c:78-82 | in every run no block is published twice under one epoch |
| `NcqHistory.ReservationsRise` | src/elite_mpmc_ncq.c:78-82 | in every run each reservation gets an epoch above all earlier ones of its block, and each use that ends was reserved and ends once |
| `NcqHistory.ActionEpochs` | src/elite_mpmc_ncq.c:77-83 | an action moves a block's epoch only if it is the holder's reservation, and then by exactly one |
| `NcqHistory.NothingFalls` | src/elite_mpmc_ncq.c:8-67 | along every run no head, tail, log or block epoch falls |
| `NcqHistory.TicketClaimedOnce` | src/elite_mpmc_ncq.c:55-61 | a head ticket once claimed is never claimed again in any continuation |
| `NcqHistory.TicketInstalledOnce` | src/elite_mpmc_ncq.c:27-32 | a tail ticket once installed is never installed again in any continuation |
| `NcqProgress.LockFree` | src/elite_mpmc_ncq.c:13-66 | in every run of K connections the steps that are not linearization points number at most 13 K per linearization point plus 13 per call |
| `NcqProgress.LockFreeFromStart` | formal/explore.py:62-83 | the same bound from construction, with no initial debt |
| `NcqProgress.FreshInstallWins` | src/elite_mpmc_ncq.c:30-31 | an install prepared at the present frontier cannot lose its CAS |
| `NcqCalls.SharedQueue.Enqueue` | src/elite_mpmc_ncq.c:8-40 | under any finite amount of interference the loop ends, having installed the caller's token at one ticket of its own, or keeps the token with the tail at the ceiling |
| `NcqCalls.SharedQueue.EnqueuePass` | src/elite_mpmc_ncq.c:13-38 | a pass asks for another only after interference or after helping a lagging tail |
| `NcqCalls.SharedQueue.Dequeue` | src/elite_mpmc_ncq.c:42-67 | under any finite amount of interference the loop ends with the block of a ticket it claimed, or with an instant at which the queue was empty; its other exits are unreachable |
| `NcqCalls.SharedQueue.CasCell` | src/elite_mpmc_ncq.c:27-32 | the entry CAS appends the block or changes nothing |
| `NcqCalls.SharedQueue.CasHead` | src/elite_mpmc_ncq.c:55-61 | the head CAS takes the ticket it saved, and the block leaves the queue |
| `NcqCalls.OthersRespectTokens` | src/elite_mpmc_ncq.c:28-29 | the interference the loops rely on is what every action of the other connections does |
| `QueueOracle.QueueMembers` | tools/verify_chaos_results.py:89-102 | the loop computes the specification of the oracle, rejections included |
| `QueueOracle.OracleExact` | tools/verify_chaos_results.py:89-102 | on any protocol state, lagging tail or overtaking head included, the oracle returns the abstract block set and the true frontier, and rejects exactly when a cursor has reached the ceiling |
| `QueueOracle.OracleOnReachable` | tools/verify_chaos_results.py:89-102 | the same for both queues of every reachable pool state |
| `QueueCeiling.OracleRejectsLegalQueue` | tools/verify_chaos_results.py:89-92 | for every ring of four blocks or more a fault-free run reaches a full, legal free queue with its tail at the ceiling, and the oracle rejects it |
| `SpscChannel.Channel.Reserve` | src/elite_spsc.c:3-23 | every answer with its exact condition; the reserved slot gets the epoch after its last one and is none of the unreclaimed ones, whatever stale cursor was cached |
| `SpscChannel.Channel.WriterApart` | src/elite_spsc.c:9-15 | below capacity the writer's slot differs from the slot of every unreclaimed message |
| `SpscChannel.Channel.WriteByte` | src/elite_spsc.c:20 | a store into the reserved span changes no published message |
| `SpscChannel.Channel.Commit` | src/elite_spsc.c:25-40 | appends exactly the named message to the FIFO and answers OK, or OS_ERROR when the peer could not be notified; or changes nothing, each answer with its exact condition |
| `SpscChannel.Channel.AbortWrite` | src/elite_spsc.c:67-74 | publishes nothing and frees the endpoint |
| `SpscChannel.Channel.Borrow` | src/elite_spsc.c:42-55 | shows the front message as stored, or no data exactly when the observed cursor equals the own one; integrity branches unreachable |
| `SpscChannel.Channel.Release` | src/elite_spsc.c:57-66 | removes exactly the front message, the one that was shown, and answers OK, or OS_ERROR when the peer could not be notified; or changes nothing |
| `SpscChannel.Channel.constructor` | src/elite_shm.c:121-162 | a new channel is the empty FIFO in a valid state |
| `SpscRing.ActionKeeps` | formal/models/spsc.py:50-111 | every action of either endpoint, the application and the environment keeps the channel invariant, stale snapshots and aborts included |
| `SpscTheorems.ActionRefines` | src/elite_spsc.c:34-62 | the published store appends the offered message, the reclaimed store removes the one on loan, and an observation of empty or full is exact up to the cursor moves its load missed |
| `SpscTheorems.EveryRunIsBoundedFifo` | formal/models/spsc.py:39-111 | every run from construction is a run of one FIFO of capacity n that starts empty |
| `SpscTheorems.ReachableIsSafe` | formal/models/spsc.py:39-49 | occupancy is at most n, caches never lead, the writer's slot holds no unreclaimed message, no call answers INTEGRITY |
| `SpscTheorems.ReadGrant` | src/elite_spsc.c:42-55 | while a read is granted its span is the oldest unreclaimed message and memory still holds it |
| `SpscTheorems.OfferIsCommit` | src/elite_core.c:163-178 | the offered message is what an accepted commit call named |
| `SpscTheorems.CommitPublishesOnce` | src/elite_spsc.c:25-40 | an accepted commit call stores the published cursor and appends its message exactly once if it answers OK or OS_ERROR, and never otherwise; OS_ERROR exactly when it stored and the notification failed; without a failed notification, stored if and only if OK |
| `SpscTheorems.ReleaseReclaimsOnce` | src/elite_spsc.c:57-66 | the same of an accepted release call and the reclaimed cursor |
| `SpscTheorems.QuarantineDrains` | src/elite_core.c:31-46 | from QUARANTINED on an endpoint stores its cursor at most once more, and only in a call already past its admission check |
| `SpscTheorems.EpochsNeverRepeat` | src/elite_spsc.c:17-18 | in every run no slot is published twice under one epoch |
| `SpscTheorems.AbortedNeverPublished` | src/elite_spsc.c:67-74 | in every run reservations of a slot get rising epochs, and a use that an abort ended is the use of no message |
| `SpscTheorems.NothingFalls` | src/elite_spsc.c:31-62 | along every run no cursor, record or slot epoch falls |
| `SpscDamage.DamageIsRefused` | src/elite_core.c:110-126 | with a published payload hit by a burst of at most 64 bits, every run is the undamaged run until the message is read; that call answers INTEGRITY, the failure word is set and the gate is no longer READY, and the message is never given back |
| `SpscDamage.RunSame` | src/elite_spsc.c:42-55 | until it is read the bytes of a published message influence no step of either endpoint |
| `Handoff.ReleaseIsRaceFree` | formal/handoff.py:88-116 | for all n and m and every consistent reads-from assignment, release cursors order every conflicting pair of slot accesses |
| `Handoff.ReadSeesItsTicket` | formal/handoff.py:75-82 | each read of ticket k has the write of ticket k as its one latest visible write |
| `Handoff.RaceFreeExactly` | formal/handoff.py:68-74 | a consistent graph is race-free if and only if publications release (when m > 0) and reclamations release (when m > n) |
| `Handoff.LockstepConsistent` | formal/handoff.py:41-67 | consistent assignments exist for every n, m and order choice |
| `Closure.TransitiveClosure` | formal/handoff.py:31-38 | the Warshall loop marks exactly the pairs joined by a nonempty path |
| `Lifecycle.GateSet` | src/elite_core.c:62 | masking in a state keeps the count and validity |
| `Lifecycle.GateUp` | src/elite_shm.c:551 | adding 2^32 adds one to the count, keeps the state and does not wrap while the count is below K |
| `Lifecycle.GateDown` | src/elite_shm.c:575 | subtracting 2^32 takes one from a positive count and keeps the state |
| `LifecycleSafety.StepKeeps` | src/elite_shm.c:275-411 | every step of authority, connections and processes keeps the lifecycle invariant |
| `LifecycleSafety.RunKeeps` | src/elite_shm.c:275-411 | so does every run |
| `LifecycleSafety.NextGood` | src/elite_shm.c:541-581 | one step of a connection changes the count exactly with its enrollment and leaves the record, process and grant consistent |
| `LifecycleTheorems.NeverBackwards` | src/elite_core.c:57-65 | gate state, participant records, first failure reason, no-more-grants and quarantine never move backwards |
| `LifecycleTheorems.EnrollsOnlyWhenReady` | src/elite_shm.c:545-553 | a connection becomes enrolled only by its own swap of a READY gate from count c < K to c + 1 |
| `LifecycleTheorems.CountIsEnrolled` | src/elite_shm.c:384-391 | until sealed the count equals the enrolled connections, those that died enrolled included, and is at most K |
| `LifecycleTheorems.DetachFindsItsCount` | src/elite_shm.c:569-577 | detach never meets an invalid gate or a zero count |
| `LifecycleTheorems.ClaimedOnce` | src/elite_shm.c:541-544 | whoever presents a grant first claims its record, which is never new again; in any continuation every later attempt loses the swap and changes nothing |
| `LifecycleTheorems.ShutIsSilent` | src/elite_shm.c:381-385 | with grants stopped and every holder resolved, no participant can reach the mapping |
| `LifecycleTheorems.DestroyIsSafe` | src/elite_shm.c:375-411 | seal, unlink and unmap happen only then, it stays so in every later state, and from then on only the manager moves the gate |
| `LifecycleProgress.LoopsTerminate` | src/elite_core.c:57-65 | with K participants the gate changes at most 2K + 4 times and all its CAS loops together retry at most (2K + 4)(K + 1) times |
| `LifecycleProgress.DebtStep` | src/elite_shm.c:545-577 | no step raises the remaining debt and a failed swap lowers it |
| `Ledger.SlotIsFree` | src/elite_shm.c:168-176 | with nothing staged a slot is free |
| `Ledger.BoundedUpdate` | docs/API.md:105-108 | a change of one entry keeps the budget of two quarantined, one active, one staged under its three guards |
| `Ledger.Authority.Create` | src/elite_shm.c:164-236 | BUSY exactly when something is staged or the epochs run out, then the answer about the configuration; otherwise a fresh epoch is spent, and the object is on the ledger exactly if the system opened it, usable or not |
| `Ledger.Authority.Activate` | src/elite_shm.c:241-249 | at most one active object, and a constructed one; each answer with its condition, INVALID_ARGUMENT for an object that creation opened and could not construct included |
| `Ledger.Authority.Quarantine` | src/elite_shm.c:353-369 | at most two quarantined objects; each answer in the source's order: INVALID_ARGUMENT unconstructed, OK again, BUSY at the bound, what retiring answered, INTEGRITY when the gate cannot be moved |
| `Ledger.Authority.Forget` | src/elite_shm.c:409 | frees the slot and keeps the epoch spent |
| `Parking.StepKeeps` | src/elite_wait.c:31-126 | every step of waiter and notifiers keeps the parking invariant |
| `Parking.NoLostWakeup` | src/elite_wait.c:103-125 | whenever the waiter sleeps with news to report, a notifier still owes the exchange (word 1), or owes the wake or had its wake fail (word 0) |
| `Parking.NoneMissed` | src/elite_wait.c:36-38 | no wake is missed in a run where none fails |
| `Parking.DebtWakes` | src/elite_wait.c:33-36 | after the exchange, in every interleaving, the sleeper sleeps only while the wake is owed, or after a failed wake until its time slice ends; once awake, the predicate it reads after its own exchange cannot miss what that notifier stored |
| `Parking.ArmedSeesNews` | src/elite_wait.c:107-112 | with no exchange owed an armed waiter reports the news, whatever stale value its loads may return |
| `Parking.WordIsBinary` | src/elite_wait.c:33-34 | the word is 0 or 1, is 1 only while the waiter is armed, and wait never answers INTEGRITY |
| `Exporter.StepKeeps` | bindings/python/elite_buffer.c:38-154 | every segment of every pending call keeps the exporter invariant |
| `Exporter.ExportsArePinned` | bindings/python/elite_buffer.c:50-60 | exports are held views plus pending acquisitions; a held view has valid memory, the native pin and the slot |
| `Exporter.NoTransferUnderViews` | src/elite_core.c:163-191 | no transfer takes the slot while any exporter has a view |
| `Exporter.UnpinnedOnce` | bindings/python/elite_buffer.c:62-85 | at most one native unpin per exporter takes effect, exactly one once it is closed for good |
| `Exporter.DeferredCloseRuns` | bindings/python/elite_buffer.c:100-154 | a requested close with nothing exported has run or is running, except after its last attempt failed and was reported; a further attempt starts it afresh |
| `Exporter.LastViewCloses` | bindings/python/elite_buffer.c:103-124 | the last release or the failed last acquisition starts the requested close |
| `Exporter.OneExporterServes` | bindings/python/elite_ringbuffer/__init__.py:592-604 | a lease has at most one unfinished exporter at any time |
| `Explorer.Run` | formal/explore.py:16-83 | PASS, the two witnesses, the progress verdict and INCOMPLETE certify what they say for every finite model and both budgets |
| `Explorer.PathInTables` | formal/explore.py:27-56 | every path through expanded states is in the tables, no deeper than the path |
| `Explorer.FoundViolation` | formal/explore.py:40-49 | the reported witness is a genuine violating path and no violating path is shorter |
| `Explorer.FoundDeadlock` | formal/explore.py:58-69 | the reported deadlock is genuine and no deadlock is nearer |
| `Explorer.Reconstruct` | formal/explore.py:43-46 | following parent links backwards gives the path of the state |
| `Explorer.PassMeansInvariant` | formal/explore.py:16-41 | PASS gives the invariant in all reachable states if and only if the initial state has it |
| `Explorer.InitialNeverTested` | formal/explore.py:16-41 | a one-state model breaking its invariant for which PASS is the only conclusive verdict |
| `Elimination.Eliminate` | formal/explore.py:70-84 | the residue is zero exactly when no directed cycle avoids progress edges |
| `Elimination.Remove` | formal/explore.py:78-83 | taking one node's edges away keeps in-degrees, the ready list and the removal order right |
| `Elimination.BackWalk` | formal/explore.py:70-84 | a nonempty residue contains such a cycle |
| `Crc.EliteCrc64` | src/elite_format.c:13-21 | the nested loops compute the CRC specification for every byte string |
| `Crc.FeedLinear` | src/elite_format.c:16-19 | the checksum is linear over GF(2) in register and data together |
| `Crc.TurnInjective` | src/elite_format.c:18 | one register turn with an odd polynomial is injective |
| `Crc.BurstDetected` | src/elite_core.c:123-126 | any nonzero error confined to 64 consecutive bits changes the checksum, for every payload and length |
| `Crc32.EliteCrc32` | src/elite_format.c:4-12 | the nested loops compute the CRC-32 specification for every byte string |
| `Crc32.Crc32IsTableDriven` | src/elite_format.c:4-12 | that checksum equals the 256-entry table algorithm of section 8 of RFC 1952 on every byte string |
| `Crc32.TurnRightLinear` | src/elite_format.c:9 | a right-shifting register turn is linear over GF(2) |
| `Crc32.TurnRightInjective` | src/elite_format.c:9 | a right-shifting turn with 0xedb88320 is injective |
| `Crc32.Burst32Detected` | src/elite_format.c:4-12 | any nonzero error within 32 consecutive transmitted bits changes the CRC-32 |
| `Crc32.EliteHeaderCrc32` | src/elite_format.c:22-30 | the header loop computes the CRC-32 of the header with bytes 52 to 55 cleared |
| `Crc32.StoringSeals` | src/elite_shm.c:202 | storing the computed checksum makes the header pass its check, whatever the field held |
| `Crc32.DamagePassesExactly` | src/elite_format.c:113 | a damaged header passes exactly when the damage outside the field leaves the residue by which the field changed |
| `Crc32.HeaderBurstRejected` | src/elite_format.c:113 | a burst of at most 32 bits outside the checksum field never passes |
| `Crc32.FieldDamageRejected` | src/elite_format.c:113 | damage inside the checksum field alone never passes |
| `Geometry.Mul` | src/elite_format.c:33-34 | checked multiplication succeeds exactly when the product fits 64 bits |
| `Geometry.RoundUp` | src/elite_format.c:35-36 | checked rounding gives the least multiple not below its argument, exactly when it fits |
| `Geometry.CapacityTest` | src/elite_format.c:47 | the capacity test accepts exactly the powers of two from 2 to 2^31 |
| `Geometry.Header.Geometry` | src/elite_format.c:38-77 | accepts exactly the configurations whose unbounded layout fits the budget and 63 bits, and then writes that layout |
| `Geometry.RegionsAreDisjoint` | src/elite_format.c:55-73 | regions of an accepted layout are quantum-aligned, ordered without overlap and inside the segment |
| `Geometry.BlocksAreDisjoint` | src/elite_internal.h:65-66 | two payload blocks never share a byte and lie inside the segment on their own lines |
| `Geometry.MatrixGeometryAgrees` | tools/verify_matrix_results.py:153-157 | the independent formula gives the same segment size for every admissible configuration |
| `Prefix.DecodeOfEncode` | include/elite_ringbuffer.h:30-73 | reading the 512 bytes of a record gives the record back |
| `Prefix.EncodeOfDecode` | include/elite_ringbuffer.h:30-73 | every 512 bytes are the encoding of the record they decode to, so no header byte is ignored |
| `Prefix.ValidatePrefix` | src/elite_format.c:97-121 | every answer with its exact condition on the bytes; OK exactly for the current ABI, zero reserved bytes, a right checksum, identities and the recomputed layout |
| `Prefix.BuildPrefix` | src/elite_shm.c:178-202 | every header creation builds is accepted by validation and decodes to what it was built from |
| `Prefix.DamagedPrefixRefused` | src/elite_format.c:113 | an accepted header hit by a burst of at most 32 bits beside its checksum field is not accepted |
| `Geometry.AcceptedCapacity` | src/elite_format.c:47-74 | an accepted capacity is a ring of the queues and leaves room for tickets and epochs |
| `Limbs.Compare` | benchmarks/bench_ratio.c:19-20 | the three answers are the order of the represented numbers |
| `Limbs.Subtract` | benchmarks/bench_ratio.c:21-25 | exact difference in place |
| `Limbs.Shift` | benchmarks/bench_ratio.c:26-27 | doubling plus one bit in place, given room |
| `Limbs.DivideByTen` | benchmarks/bench_ratio.c:34-35 | quotient in place and remainder by ten |
| `Limbs.TimesTen` | benchmarks/bench_ratio.c:36-37 | multiplication by ten in place, given room |
| `Ratio.Product` | benchmarks/bench_ratio.c:7-16 | the full 128-bit product; no carry is lost |
| `Ratio.Divide` | benchmarks/bench_ratio.c:28-33 | n = q d + r with r < d after 160 bit steps |
| `Bits.BitSet` | benchmarks/bench_ratio.c:32 | setting bit i of a number clear up to i doubles and increments its prefix |
| `Ratio.FractionIsExact` | benchmarks/bench_ratio.c:45-48 | the emitted digits spell r / d to their place, short only when nothing is left |
| `Ratio.RatioIsExact` | benchmarks/bench_ratio.c:38-50 | integer and fractional digits are the ratio truncated, and the exact ratio when fewer than 80 were needed |
| `Ratio.Digits` | benchmarks/bench_ratio.c:42 | at most 50 digits are buffered, so 64 characters are enough, and they are those of the quotient |
| `Ratio.JsonRatio` | benchmarks/bench_ratio.c:38-50 | the stream gets exactly the text of the ratio, or as much of it as it accepts, with the matching status |

## Left out

- POSIX calls, clocks, the futex and `os_sync`: answers, a failed wake included, are parameters or free choices, and a channel in POLL_ONLY mode is one whose notifications never fail; sleeping is one atomic compare-and-block that may also end spuriously.
- A full C11 memory model: queue and gate words are seq_cst and interleaved; release/acquire visibility is modelled for payload handoff and parking only.
- Malicious peers, corrupted memory (beyond one damaged payload in `NcqDamage` and `SpscDamage`) and raw pointers kept after a transfer: excluded by the API contract.
- The NCQ payload handoff fragment of `formal/handoff.py` and its enumeration of reads-from choices: the SPSC graph is proved for all of them.
- `reconcile`, `verify_events` and the other record verifiers of `tools/`: bulk bookkeeping beside the oracle.
- SHA-256 identity, quantile ranks, topology, performance counters, JSON emission and command lines.
- CPython reference counts, `tp_clear`, garbage-collection order, fork and pid guards, and asynchronous exceptions between two bytecodes: only exporter flags, counts and callback nesting are kept.
- Duplicate attach attempts: their losing swap is a step of `Lifecycle`, their mapping and unmapping around it are not.
- `NcqPool`: the bodies of `el_retire_raw` and of metadata validation are one step each there, because the CAS loop is proved in `Lifecycle` and validation reads only memory the caller owns; the gate may move forward at any time, which covers every authority; view counts are in `Exporter`.
- NcqCalls.SharedQueue.Interfere: its contract is the assumption the loops are proved under; its own body does nothing, `OthersRespectTokens` shows the pool meets the contract, and a finite amount of interference is taken for granted.
- NcqCalls.SharedQueue.Enqueue: failure and gate words raised by the COUNTER_LIMIT exit are in `NcqPool`, not here.
- SpscChannel.Channel.Reserve: the method is the part of the call after its admission check, whose answer is a parameter; the check as a step of its own is in `SpscRing`.
- SpscTheorems.ActionRefines: an observation of empty or full through a stale load is no instant of the abstract FIFO; its distance from the present is stated instead. A notification after a store is one step there, of which only the answer matters; its exchange and its wake are in `Parking`.
- Lifecycle: cleanup receipts are genuine (a receipt exists only after the final unmapping) and `waitpid` reports only real exits, as the documentation demands; process identities are incarnations that are never reused; failed `munmap` and `close` calls leave the state where it was.
- Ledger.Authority.Quarantine: what retiring the object answered is a parameter; retirement itself is in `Lifecycle`, without its notifications.
- Ledger.Authority.Create: the answer about the layout comes from `Geometry` and is a parameter here, as is the one about the identities of the endpoint definitions.
- Parking.NoLostWakeup: a notifier that dies between its store and its exchange owes for ever; the bounded wait slice that covers this is only a free choice to wake.
- Exporter: `exports` is unbounded, where the C code refuses at `PY_SSIZE_T_MAX`.
- Explorer.Run: the wall clock is a number of states the run has patience to expand; hashes and statistics of the report are not modelled.
- Prefix.ValidatePrefix: null pointers and the endianness probe of the running machine are not modelled.
- Crc32.HeaderBurstRejected: bursts across an edge of the checksum field are covered by the exact condition of `Crc32.DamagePassesExactly` only.
- Ratio.Digits: the output stream is a count of characters it still accepts.

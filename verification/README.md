# smoothfs: a verified model

smoothfs is a tiering filesystem. A kernel module shows one namespace whose files lie on one of
several lower tiers; a Go control plane moves files between the tiers and settles what a crash
interrupted. This project models the parts of it where order, failure and concurrency meet, and
proves what they keep.

**Movement.** `Kernel` is the per-inode automaton (plan, cutover in two halves, complete,
rollback, abort) as a class whose methods are proved against functions; `KernelRun` proves what
holds over every sequence of calls. `Recovery` is the settling of one interrupted movement,
effect by effect. `Protocol` puts kernel inode, SQL row, tier copies, any number of workers with
possibly stale plans, client writes between any two steps, process death and repeated recovery
into one step system; `ProtocolSafety` proves its invariant action by action, and
`ProtocolResults` draws the conclusions: the current tier always holds what clients wrote, a
placed object has one copy, a row that says placed is right, a cutover never changes what is
read, and a write that races one makes it fail. `ProtocolStuck` shows where recovery is safe but
stuck: it proves exactly when an object at rest can ever be settled, and gives three runs after
which it cannot, each begun by a plan that was stale when it was carried out. A worker that
looked before another worker's movement failed claims the failed row and overwrites its
transaction number; a plan queued twice is claimed again after it was carried out; a plan from a
tier the object has left is accepted by the kernel and then misses its source.

**Cache-mode files.** `Ranges` is the staged range list, `Overlay` a base file seen through it,
`CacheFile` the file with its staged ranges, read cache, sidecar and mappings as a class.
`CacheRun` proves that any run of operations over any files of a pool, with failed drains and
crashes of the whole pool in between, is a trace of plain files (text, inode size, what a crash
would leave), and that the pool's counter of staged bytes is exact all along. `CacheResults` says
what that means for clients: a file in order is a byte array until its inode's size is left short;
a crash loses nothing unless a staged write went unacknowledged; a staged append lands at the end
exactly when the inode's size is the file's length, which a splice past the end, a replay of
ranges past the base file, or a link or ACL change on a file staged past it undoes. The code does
not look at failures to remove the sidecar; runs assume there are none, and `CacheFile` proves
exactly when a drain that could remove neither stage file nor sidecar, any later changes of the
base file and a crash still leave the file right.

**Durable formats and queues.** `Sidecar`, `PathIndex` (over `Codec`), `PlacementLog` and
`OidQueue`. The code ignores failed writes of log records and of OID xattrs beyond a warning.
`PlacementLog` proves that the numbering stays gapless exactly when no record is appended after
a lost one, that every replay is right exactly when no record is appended whose number is below
the one its object already has, and shows a run where one is; `OidQueue` proves which step loses
an identity, that exactly those runs change it, and shows the second OID that a failed xattr
write leads to.

**Algorithms.** `Descriptor` (reopening after cutovers, with the generation's 32-bit
wrap-around), `CreateTier` (high-water search and create loop) and `Reconcile` (removing empty
duplicate directories).

Where the code does in-place updates the model is a class or a method with loops; where it is a
protocol between parties it is a step function, and theorems quantify over all sequences of
steps. What may fail in a call is an argument of it, and without it the call has to succeed.
Assumptions: each file operation is one atomic step; an error reply from a cutover means that it
did not switch; transaction numbers do not repeat within one control-plane process; recovery
finishes before workers start; stage bytes are durable once written; in runs of cache-mode files
the sidecar is removed when a drain is over.

`dafny verify dfyconfig.toml` checks the whole project.

## Model

| member | source | states |
|---|---|---|
| Kernel.InodeInfo.Complete | src/smoothfs/movement.c:755-790 | success means the named transaction is placed, coming from switched or placed already; an error changes nothing; tier, generation and write sequence stay |
| Kernel.InodeInfo.Rollback | src/smoothfs/movement.c:796-838 | success means the named transaction is placed on the tier it was on, never coming from switched or a cutover in progress; an error changes nothing; tier, generation and write sequence stay |
| KernelRun.Perform | src/smoothfs/movement.c:334-884 | each kernel entry point, called on the inode object in any state, is the automaton's step, and a note taken from its reply alone is the step's event |
| KernelRun.Serve | src/smoothfs/movement.c:334-884 | after any sequence of calls on the object its notes are a legal life, its fields are where that life says, and its generation counts the moves |
| KernelRun.EveryRun | src/smoothfs/movement.c:334-884 | over every run the event log is a legal life (accept, then move or settle or drop), the fields agree with it, one cutover call at most is between its halves, and the generation counts the moves |
| KernelRun.CutoverCallOwnsTheState | src/smoothfs/movement.c:513-561 | in every run a marked call finds its mark again, so the raced branch never runs, and both outcomes leave cutover-in-progress |
| KernelRun.OnlyCommitMoves | src/smoothfs/movement.c:641-706 | tier and generation change only at a commit of the accepted transaction; switched leaves only by complete; placed has intended equal to current |
| KernelRun.MovesNeedPlans | src/smoothfs/movement.c:356-384 | between two moves of any run lies the acceptance of the later one: one plan moves at most once |
| Recovery.Host.RecoverObject | controlplane/recovery_live.go:62-254 | without a fault it settles exactly what can be settled; stopped anywhere it leaves a state that is some prefix of the effects, and a success is the full recovery |
| Recovery.RecoverLive | controlplane/recovery_live.go:32-60 | every unsettled object gets its call whatever became of the others and, without a fault, fails exactly when it cannot be settled; settled ones are untouched |
| Recovery.RemovesOnlyTheOtherCopy | controlplane/recovery_live.go:97-215 | for any row and kernel answer at most one copy goes, never the kernel's, and only with the kernel's copy present |
| Recovery.SettlesExactlyWhen | controlplane/recovery_live.go:97-253 | the call succeeds if and only if the kernel's transaction is the row's or over and the kernel is at the end of the route its phase says; then kernel and row are placed on the kernel's tier |
| Recovery.RefusalChangesNothing | controlplane/recovery_live.go:97-160 | a call that may not settle changes nothing, wherever it stops |
| Recovery.RetryConverges | controlplane/recovery_live.go:161-253 | interrupted after any effect and run again, it ends where an uninterrupted call ends |
| ProtocolSafety.EveryRun | controlplane/worker.go:121-346 | the protocol invariant holds in every state of every run of workers, writers, crashes and recoveries |
| ProtocolSafety.StepKeeps | controlplane/worker.go:202-346 | every one of the actions keeps the invariant |
| ProtocolResults.CurrentCopyIsSafe | controlplane/worker.go:202-346 | in every state the kernel's tier, under what is staged over it, holds what clients wrote, a placed object has no other copy, and a placed row agrees with the kernel |
| ProtocolResults.OneMoverAtATime | controlplane/worker.go:713-757 | the row's compare-and-set and the kernel leave at most one worker past its intent, stale plans included |
| ProtocolResults.CutoverIsInvisible | controlplane/worker.go:227-292 | a commit switches exactly when no write came since the worker's first look and the destination resolves; then both copies are what clients read; otherwise nothing changes but the state |
| ProtocolResults.RacedWriteWins | controlplane/worker.go:130-131 | a write anywhere between a worker's first look and its commit makes that commit fail with the source kept |
| ProtocolResults.RecoveryOutcome | controlplane/recovery_live.go:97-160 | in every reachable state outside a cutover, recovery succeeds if and only if the transaction is the row's or over and the kernel is on the recorded route |
| ProtocolStuck.RecoverableIff | controlplane/recovery_live.go:97-253 | the row of an object at rest is settled by some run if and only if recovery settles it now: transaction the row's or over, kernel at the end of the route its phase says |
| ProtocolStuck.StuckStays | controlplane/recovery_live.go:97-160 | otherwise no run ever changes the row or the kernel's transaction again, and every recovery refuses |
| ProtocolStuck.OvertakenPlanSticks | controlplane/worker.go:713-757 | a run to such a state: a worker that looked before another's failure claims the failed row |
| ProtocolStuck.DuplicatePlanSticks | controlplane/worker.go:202-213 | another: a plan queued twice is claimed after the object has moved, and the row leads from a tier to itself |
| ProtocolStuck.MissedObjectSticks | controlplane/worker.go:212-226 | another: a plan from a tier the object has left is accepted and aborted, and the recorded route misses the object |
| Ranges.Record | src/smoothfs/file.c:112-147 | the list stays sorted and strictly separated, covers exactly the old bytes and the new range, and its byte count grows by exactly the newly covered bytes |
| Ranges.BytesCountsCovered | src/smoothfs/file.c:190-208 | the walk that sums range lengths counts every covered byte once |
| Ranges.SeparatedIsCanonical | src/smoothfs/file.c:112-147 | a separated list is determined by what it covers |
| Overlay.StagedWrite | src/smoothfs/file.c:192-205 | a write into the stage file with its range is that write on the file clients see |
| Overlay.PartDrainInvisible | src/smoothfs/super.c:1257-1279 | copying back any part of the staged bytes changes nothing clients see |
| Overlay.FullDrain | src/smoothfs/super.c:1257-1289 | once all are copied back the base file is what clients see |
| Overlay.DrainAfterPartDrain | src/smoothfs/super.c:1257-1295 | a drain that starts from an interrupted one ends where an uninterrupted one ends |
| Overlay.SavedAfterPartDrain | src/smoothfs/super.c:1257-1279 | a drain stopped anywhere, with only some ranges on record, leaves for a crash only bytes it would have left before and bytes clients wrote |
| Overlay.SavedAfterStagedWrite | src/smoothfs/file.c:192-220 | so does a staged write that did not get on record |
| Overlay.StaleRecordIff | src/smoothfs/range_staging.c:297-326 | a sidecar and stage file that outlive their drain are harmless under a newer base write if and only if it changes no recorded byte |
| Overlay.RecordHarmlessIff | src/smoothfs/range_staging.c:297-326 | replaying a record over any base file is harmless if and only if that file is not shorter than the record and agrees with the stage file there |
| CacheFile.File.WriteFull | src/smoothfs/super.c:1165-1180 | short writes amount to one write of the part that landed, which without a fault is all |
| CacheFile.File.CopyRange | src/smoothfs/super.c:1260-1278 | one range copied in chunks, stopped anywhere, is a partial drain; completed, everything up to its end is back |
| CacheFile.File.CopyBack | src/smoothfs/super.c:1257-1279 | all ranges in order; the bytes counted are the staged bytes |
| CacheFile.File.Drain | src/smoothfs/super.c:1206-1355 | on any sound file, replayed ones with a short inode size included: what clients see, the cache invariant and counter minus staged bytes are kept, complete or not; what a crash would leave moves only towards it; without a fault it succeeds |
| CacheFile.File.StageWrite | src/smoothfs/file.c:149-227 | a staged write lands at its position, an append at the inode's size; acknowledged it is all a crash would leave; with a failed sidecar it keeps its range and takes a write sequence |
| CacheFile.File.DrainAndWrite | src/smoothfs/file.c:538-549 | drain first, then write the base file: what landed is safe from a crash |
| CacheFile.File.Write | src/smoothfs/file.c:483-594 | every path of a write is the plain write of the bytes that landed, without a fault all of them, at the position, size and crash safety its path gives |
| CacheFile.File.Truncate | src/smoothfs/inode.c:864-934 | a size change drains, resizes with zeros, and puts the inode's size back in order |
| CacheFile.File.Fsync | src/smoothfs/file.c:596-612 | success means the base file is what clients see |
| CacheFile.File.MapShared | src/smoothfs/file.c:628-657 | a shared writable mapping is made only with nothing staged and an empty cache |
| CacheFile.File.OverlayStaged | src/smoothfs/file.c:240-278 | the buffer ends with stage bytes where covered and its own bytes elsewhere |
| CacheFile.File.ReadStaged | src/smoothfs/file.c:280-329 | a staged read returns the bytes clients wrote up to the inode's size, holes as zeros, without a fault all of them |
| CacheFile.File.FetchChunk | src/smoothfs/file.c:358-401 | hit or miss, a chunk is the base file's chunk, and refreshing the replica keeps it coherent |
| CacheFile.File.ReadCached | src/smoothfs/file.c:342-415 | a cached read equals a direct read of the base file |
| CacheFile.File.Read | src/smoothfs/file.c:453-481 | every read returns the bytes clients see, and only direct I/O on a staged file is refused |
| CacheFile.File.SpliceWrite | src/smoothfs/file.c:732-757 | a splice is a base write that leaves the inode's size where it was |
| CacheFile.File.CopyAttrs | src/smoothfs/super.c:2687-2704 | link(2) and setting an ACL give the inode the base file's size without draining first |
| CacheFile.File.Replay | src/smoothfs/range_staging.c:513-584 | on any sound file, any number of times: the ranges on record come back, the file is what was saved, the inode's size is the base file's and is the file's length if and only if no recorded range ends past the base file |
| CacheFile.ReplayServes | src/smoothfs/range_staging.c:552-558 | what a replayed inode serves is what clients wrote if and only if nothing was staged past the end of the base file |
| CacheFile.File.RemountAndDrain | src/smoothfs/range_staging.c:513-584 | after crash and replay the file is what was saved whether the drain succeeds or not, a success puts it all in the base file, and the counter is exact |
| CacheFile.File.WriteAfterFailedRemoval | src/smoothfs/super.c:1308-1317 | after a drain that could remove neither stage file nor sidecar, a base write leaves a crash harmless if and only if it changes no recorded byte |
| CacheFile.File.SavedIsTextIff | src/smoothfs/range_staging.c:513-584 | with nothing staged, at any time and whatever the record is of, a crash leaves the file right if and only if the base file is not shorter than the record and has its bytes |
| CacheFile.File.CrashAfterFailedRemoval | src/smoothfs/super.c:1308-1317 | after such a drain, any writes and size changes of the base file and a crash, the replay is right exactly then |
| CacheFile.StoreChunk | src/smoothfs/file.c:394-399 | storing one chunk leaves every other chunk of the replica good |
| CacheRun.Apply | src/smoothfs/file.c:453-782 | one operation answers and does what a plain file may, and must succeed without a fault; a staged write fails then only for too many ranges |
| CacheRun.Run | src/smoothfs/file.c:453-782 | any run over any files of a pool, with faults, failed drains and crashes, is a trace of plain files reply by reply, the counter is the staged bytes throughout, and a file with nothing staged is all in its base file |
| CacheResults.InOrderStep | src/smoothfs/file.c:453-782 | on a file in order every operation is that operation on a byte array, and it stays in order if and only if the operation is neither a splice past its end nor a copy of attributes while it is staged past its base file |
| CacheResults.RunIsArray | src/smoothfs/file.c:453-782 | over any run up to such an operation a file's texts and replies are a byte array's, crashes included that come when the file is safe and nothing recorded reaches past its base file |
| CacheResults.CrashesLoseNothing | src/smoothfs/range_staging.c:513-584 | as long as no staged write goes unacknowledged, no crash changes a file, after any number of crashes and failed drains |
| CacheResults.UnacknowledgedCrash | src/smoothfs/file.c:217-220 | a crash after an unacknowledged write leaves of each byte what it was or what the write made of it |
| CacheResults.StagedAppendIff | src/smoothfs/file.c:168-171 | a staged append lands at the end if and only if the inode's size is the file's length |
| CacheResults.SpliceThenAppendIff | src/smoothfs/file.c:732-757 | after a splice it does if and only if the splice did not end past the file |
| CacheResults.RemountInOrderIff | src/smoothfs/range_staging.c:552-558 | a crash leaves a file in order if and only if nothing recorded reached past the base file |
| CacheResults.RemountThenAppendIff | src/smoothfs/range_staging.c:552-558 | a staged append after a crash lands at the end if and only if nothing recorded reached past the base file |
| CacheResults.CopyAttrsThenAppendIff | src/smoothfs/acl.c:54-57 | a staged append after a copy of attributes does if and only if the file was not staged past its base file |
| CacheResults.SeesAllIff | src/smoothfs/file.c:287-297 | reads see the whole file if and only if nothing is staged or it is in order |
| CacheRun.TotalChange | src/smoothfs/super.c:1407-1417 | changing one file's ranges changes the pool total by that file's difference |
| CacheRun.ReplayAll | src/smoothfs/range_staging.c:639-677 | after a mount's replay every file is what was saved of it, is sound again, and the counter is the number of staged bytes over all files |
| Sidecar.Persist | src/smoothfs/range_staging.c:200-262 | the bytes written are the record's image; more than 65536 ranges are refused |
| Sidecar.Replay | src/smoothfs/range_staging.c:464-550 | the parser returns the record the file holds, and rejects exactly the files that hold none |
| Sidecar.RoundTrip | src/smoothfs/range_staging.c:242-262 | an image holds its record and no other |
| Sidecar.PrefixRejected | src/smoothfs/range_staging.c:389-405 | an image cut short anywhere holds no record |
| Sidecar.ParseOid | src/smoothfs/range_staging.c:366-387 | a name parses if and only if it has the right length and hex digits, and gives those bytes |
| Sidecar.NameRoundTrip | src/smoothfs/range_staging.c:67-73 | the sidecar's name gives its OID back |
| Sidecar.OthersAreNotSidecars | src/smoothfs/range_staging.c:328-364 | no temporary and no stage file name is taken for a sidecar |
| PathIndex.Write | src/smoothfs/placement.c:836-899 | the file is the image of the chosen entries |
| PathIndex.Read | src/smoothfs/placement.c:909-1013 | the reader accepts exactly the parsable files and merges their entries in order |
| PathIndex.ReadsBackIff | src/smoothfs/placement.c:836-1013 | an image reads back, entry by entry, if and only if every path fits PATH_MAX and the count is within bounds |
| PathIndex.PrefixRejected | src/smoothfs/placement.c:1000-1008 | every strict prefix of an image is rejected |
| PathIndex.TakeAllRestores | src/smoothfs/placement.c:964-997 | every indexed object is chosen on its indexed tier unless the log disagrees, and always has it to fall back to; other records stay |
| PathIndex.Remount | src/smoothfs/placement.c:836-1013 | writing a scan's index and reading it back from no records is accepted if and only if paths and count are within bounds, and restores every object where the scan chose it and no other |
| PlacementLog.Writeback.WriteBack | src/smoothfs/placement.c:670-701 | a worker run empties the queue and appends exactly the records whose write does not fail, in order; the others are missing from then on |
| PlacementLog.Life | src/smoothfs/placement.c:413-807 | a log's life over any records, worker runs and crashes is the run of steps its requests make, and its replay finds each object's last record if no stale one was appended |
| PlacementLog.GaplessIff | src/smoothfs/placement.c:664-701 | over any crashes and remounts the i-th record has number i+1 all along if and only if no record is appended after a lost one |
| PlacementLog.NoFailureNoGap | src/smoothfs/placement.c:664-701 | without failed writes there is never a gap |
| PlacementLog.StepRefinesList | src/smoothfs/placement.c:755-807 | file, taken and queued records together are one list that records extend and crashes cut |
| PlacementLog.Replay | src/smoothfs/placement.c:413-455 | the replay loop computes the record-by-record merge |
| PlacementLog.ReplayKeepsLast | src/smoothfs/placement.c:440-451 | of a gapless file the replay keeps exactly each object's last record |
| PlacementLog.ReplayRightIff | src/smoothfs/placement.c:440-451 | for any file and object the replay finds the last record if and only if no record of the object has a higher number |
| PlacementLog.StepCrashproofIff | src/smoothfs/placement.c:440-451 | a step keeps every prefix of the file replaying right if and only if it does not append a record numbered below the one its object has |
| PlacementLog.ReplayAfterAnyRunIff | src/smoothfs/placement.c:413-455 | over any run with crashes, remounts and failed writes every crash is followed by a right replay if and only if no such record is appended |
| PlacementLog.NoGapNoStale | src/smoothfs/placement.c:664-701 | a run that never appends over a gap is one of those |
| PlacementLog.GapWithoutHarm | src/smoothfs/placement.c:690-696 | not the other way: an append over a gap that is not stale |
| PlacementLog.LostWritesReplayStale | src/smoothfs/placement.c:690-696 | a run with lost writes and a crash after which the replay keeps a stale record |
| OidQueue.Pool.Peek | src/smoothfs/super.c:1752-1771 | the oldest queued OID of an inode |
| OidQueue.Pool.Forget | src/smoothfs/super.c:1700-1723 | an unlinked inode's entries leave the queue, the others keep their order |
| OidQueue.Pool.WriteEntry | src/smoothfs/super.c:1676-1695 | one create-only xattr write of a flush |
| OidQueue.Pool.DrainQueue | src/smoothfs/super.c:1739-1746 | the running flush ends and the whole queue is written |
| OidQueue.Pool.LookupOid | src/smoothfs/super.c:2542-2610 | memory, xattr, queue, drained xattr, mint, in that order |
| OidQueue.RunKeepsInv | src/smoothfs/super.c:1663-1821 | over every run no file is queued twice or queued with an xattr, and memory agrees with both |
| OidQueue.LookupAnswers | src/smoothfs/super.c:2542-2610 | a lookup answers with the file's identity and mints if and only if it has none |
| OidQueue.StepIdentityIff | src/smoothfs/super.c:1676-1695 | a step keeps a linked file's identity if and only if it is not one of the losing steps, each a failed write or an eviction after one |
| OidQueue.IdentityKeptIff | src/smoothfs/super.c:2542-2610 | over any run a file that still has a name has kept its identity if and only if no step lost it |
| OidQueue.SameAnswer | src/smoothfs/super.c:2542-2610 | without failed xattr writes two lookups of a file answer alike, whatever came between, and nothing is minted twice |
| OidQueue.FailedWriteMintsTwice | src/smoothfs/super.c:1684-1691 | with one failed write and an eviction a second OID is minted |
| Descriptor.Backing.Cutover | src/smoothfs/movement.c:643-658 | lower file and 32-bit generation advance together |
| Descriptor.Descriptor.Reissue | src/smoothfs/lower.c:139-173 | it succeeds if and only if the generation is current or the file reopens; a failed reopen leaves file and generation, a successful one takes the current pair |
| Descriptor.Descriptor.LowerFile | src/smoothfs/lower.c:181-193 | the result is an error or the current lower file, unless the generation has wrapped onto the descriptor's own, and exactly then |
| Descriptor.SameGeneration | src/smoothfs/lower.c:149-158 | that needs a positive multiple of 2^32 cutovers between two uses |
| Descriptor.Run | src/smoothfs/lower.c:95-193 | over any opens, cutovers and uses no superseded lower file is returned while there are fewer than 2^32 cutovers, and a use that can reopen answers |
| CreateTier.Survey | src/smoothfs/inode.c:86-101 | the largest size and the first of the freest tiers |
| CreateTier.HighWater | src/smoothfs/inode.c:67-120 | a valid tier: either it was eligible above some water level and has more than half the free blocks of every tier eligible throughout, or none of those has more than one free block and it is the freest of all, near-full ones included; the latter whenever no tier is eligible with more than one; near-full is asked anew in every pass; without memory the fastest |
| CreateTier.Select | src/smoothfs/inode.c:122-167 | cache mode takes the slowest tier, fastest-first the first one not near full |
| CreateTier.Create | src/smoothfs/inode.c:983-1040 | the first tier in cyclic order that is not passed over decides, and out of space means every tier was passed |
| Reconcile.FasterHasDir | controlplane/reconcile.go:76-84 | true if and only if a faster tier has the directory |
| Reconcile.Pool.Visit | controlplane/reconcile.go:60-69 | a directory goes if and only if it is empty, on a faster tier and removable, and nothing dealt with before becomes left over |
| Reconcile.Pool.ReconcileTier | controlplane/reconcile.go:24-70 | after a tier's turn every walked empty directory that duplicates one on a faster tier is one that cannot be read or removed, and only walked directories without such a fault have gone |
| Reconcile.Pool.ReconcilePool | controlplane/reconcile.go:19-74 | every file stays, the union of directories stays, and no empty duplicate is left on any tier except directories that cannot be read or removed |

## Left out

- VFS plumbing, locks, credentials, netlink, sysfs, the Samba module and SQL text: foreign calls or wrappers; their effects are steps or assumptions.
- Finer interleavings inside one file operation: the code does not protect them, so each operation is one step.
- Host crashes of a movement: replay forwards an interrupted cutover to its destination before the write sequence was compared (src/smoothfs/placement.c:194-200), so crashes in `Protocol` end the control plane only.
- Namespace operations during a movement: they reset movement fields outside the automaton.
- Mapped writes in movement runs: they do not move the write sequence; they are part of `CacheFile`.
- Movement with a kernel that reports no write sequence: the worker then skips the comparison, and the protocol runs always make it.
- LUN pins, target resume and modification times: in `Protocol` these checks can only make a worker give up more often.
- Fallocate and reflink: they take the splice's path, with the same gap in the inode's size.
- Tier-mode staging: truncate does not drain there and staged inodes are not pinned.
- CacheRun.Run: assumes that the sidecar is removed when a drain is over; the code ignores a failure (src/smoothfs/range_staging.c:297-326), and `CrashAfterFailedRemoval` gives the failing input and its exact condition.
- A sidecar left without its stage file and met by a new one after a second crash, and the count of recovered files.
- Torn records at the end of the placement log, and the normalisation of movement states while it is read.
- Crash loss of queued OIDs: by design the next mount mints new ones.
- Path-index scanning: it mints without consulting the queue, so it is not part of the identity runs.
- The bit layout of OIDs (section 5.7 of RFC 9562), heat scoring, planner filters, event decoding and file handles: branch by branch or easy.
- Truncate rehome, rename, spill repair and relowering after a forget: tied to dentries and outside the automaton.
- CreateTier.HighWater: the half-of-the-freest claim is made for tiers whose free blocks do not exceed their blocks, as a filesystem reports them.
- Reconcile.Pool.ReconcileTier: takes directories of equal depth in any order, where the code orders them by name.

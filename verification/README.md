# A verified model of the sandbox platform's state-carrying protocols

The platform runs Firecracker sandboxes on nodes (node-agent), places, suspends, resumes and moves
them (sandbox-api) and offers a terminal (portal).  This project models the protocols in which a
lost step, a crash or a race would lose or duplicate a sandbox, and proves what they keep.  Code
that only computes is functions; code that works by changing things is methods with loops, and
classes whose methods are proved against the step functions the theorems are about; protocols
between several parties are transition systems in which a step is one record write, node call, EC2
call or critical section, and a crash can fall between any two.  A snapshot operation is one step
whose outcomes say where it failed or where the agent was lost on the way.

`dafny verify dfyconfig.toml` checks everything.

## What is proved

**Guest memory across generations** (`SparseImages`, `SnapshotGenerations`, `SnapshotFidelity`,
`SnapshotCorruptions`, `SandboxNode`).  A guest's memory is a base, a sparse or in-place Diff and a
dirty bitmap, rewritten by base snapshots, checkpoints, suspends and resumes.  `Covered` says the
image the next suspend starts from carries every page the bitmap does not.  A suspend reloads the
guest if and only if the sandbox is covered; an operation keeps that for every guest memory if and
only if its guard holds, and the guard can be read off the directory and the bitmap; the same is
exact for resumes of a sandbox that is down; over guarded runs every resume gives back exactly what
was suspended, and the guest is throughout what its own writes made it.  A snapshot that is damaged,
by whatever, is never loaded.  Where the guard can fail the code does lose memory, and five short
runs show it: a checkpoint over a Diff an abandoned suspend left in vm.mem; an in-place suspend that
fails after its Diff succeeded; a checkpoint interrupted between its Diff and the promotion; an
agent lost between a resume's load and the promotion (in-place mode), or within the promotion
(sparse mode), whose restart adopts the live guest.

**Recovery and repatriation of a state volume** (`VolumeHandoff`, `HandoffSafety`, `EmptyHost`,
`Reentrancy`, `ReentrantRuns`, `RepatriationGoal`, `RepatriationRuns`, `HandoffWitness`,
`PassSteps`, `PassRuns`, `RepatriationPass`).  One interruption session: its volume, its sandboxes,
any number of recovery and Spot hosts, stale heartbeats, lost hosts, re-claimed standbys, passes
interrupted anywhere.  A sandbox has one live copy, where the volume is; a delete of the volume
happens only in the branch for empty hosts, with no record targeted at that host and none on a Spot
host that still exists.  That fence does not look at the session's other recovery hosts:
`ReclaimedStandbyLosesVolume` is a run, with no second failure, in which the code deletes the volume
of a sandbox that still exists.  Over every run in which empty hosts are reclaimed only when the
rows and claims show it safe the volume is never deleted while it holds sandboxes, and a pass over
an empty host that starts when they do not can lose it.  Repatriation is re-entrant: after any
number of passes interrupted while no sandbox runs on the Spot host yet, or after all have moved,
the next pass starts and, left alone, ends within a bounded number of its own steps at the goal,
whatever the nodes report meanwhile; interrupted at any other moment, no later pass ever gets there,
so the condition is exact.  A run from the initial world to the goal shows the hypotheses met.
`RepatriationPass` is the pass as the code runs it, with its own lists and lookups and with calls
that fail or lose their answers: every execution is a run of the protocol, success is reported only
at the goal, and always when no call fails; a host no record is targeted at is reclaimed with its
volume exactly where nothing there is in the way.

**Suspended means suspended** (`Lifecycle`, `OperatorActions`).  The operator's record against the
node, with crashes, timeouts, lost answers, and operations that go on after their lease has lapsed.
Whatever the operators do, what verifies on the node is what was suspended last.  A step breaks what
a record marked suspended or slept promises if and only if it writes such a state while the sandbox
runs or its snapshot does not verify, or carries out a resume request while the record says so.
While only the holder of the lease writes the record and has resumes carried out, no step does, even
where a node carries a suspend out long after its operation crashed or lost the lease; such a record
then stands for a verified snapshot of exactly the guest that was suspended.  Two runs show what
happens where that is not so: the unleased write of "slept", and a recovery that stalls past its
lease and then writes its target unconditionally.  The operator's actions as they run uninterrupted
are proved to be runs of this kind.

**Concurrency kernels** (`WorkQueue`, `LockMap`, `Leases`, `LeaseSet`).  No id is reconciled twice
at once and no enqueue is forgotten, except exactly by a re-read on behalf of a dirty mark that
fails or finds nothing while the id is neither queued nor due for a retry or another re-read.  The
refcounted lock table gives mutual exclusion and holds exactly the ids in use.  Lease holds last as
long as was asked for and never overlap, stale owners change nothing, deleted items stay deleted; a
lease set is all or nothing up to lost answers.

**Crash-safe placement** (`WarmPool`, `Placement`).  A warm VM is consumed by at most one sandbox,
retries keep it, a claim whose calls are answered in the end finishes, its fields are taken over
before it is deleted, directories have one owner; its VM escapes its record exactly when a claim is
given up although the VM is there, be it that the answer of the resume was lost or that the clean-up
after a completed migration failed.  A sandbox has at most one VM, and leaves its one place exactly
when a create is repeated while the node it runs on is cut off; the retry over full nodes is bounded
and never asks one twice.

**Algorithms with bounds** (`VcpuPinning`, `WebSocketFrames`, `AgentAuth`, `NodeNetwork`).  vCPU
admission, granted exactly when the request fits beside what is outstanding, the pigeonhole bound on
CPU load and even loads for fresh sandboxes; the WebSocket codec of sections 5.2 and 5.3 of RFC
6455, its round trips and its independence of how the stream is cut; signed requests bound to what
they sign; no nonce and timestamp accepted twice, under any signature, while clock readings reach
the lock in order, and otherwise twice exactly when an eviction with a reading more than two windows
later comes in between and there is room (a run for every cache size shows it); the jump rule first
in its chain; tap /30s and exactly when they collide.

## Assumptions

- Firecracker: a Full call writes every page and clears the bitmap, a Diff call writes exactly the
  dirty pages and clears it, a load sets memory and clears it; a failing call leaves the bitmap
  alone but may have written pages.
- The manifest records contents.  In in-place mode on a checksumming filesystem the code records only
  the sizes of vm.mem and vm.mem.base and leaves their contents to the filesystem
  (node-agent/main.py:1463-1484 and 1523-1535); `SnapshotFidelity.SizesSuffice` shows that both decide
  every resume alike, as long as nothing but these operations writes the files; an image damaged
  otherwise is the filesystem's to refuse there.
- Renames succeed, a failed `cp` leaves no destination, holes are page-accurate, images of one
  sandbox have one size, and manifest hashes do not collide.
- EC2 attaches a volume to one instance at a time and deletes only detached ones; a conditional
  table write is atomic; lease ids are unique.
- Recovery and repatriation run in one loop, one pass at a time.  The check for records in flight
  reads the table consistently (the code queries an eventually consistent index there).
- A pass starts when it gets past the heartbeat count at sandbox-api/recovery.py:451-457, which only
  makes it wait; in `ReclaimedStandbyLosesVolume` the host runs nothing, so the count is zero.
- A node is never picked that the call was told to exclude (sandbox-api/drivers/firecracker.py:456-544).
- In `Lifecycle`, the guest runs, checkpoints and suspends as the guards of `SnapshotFidelity` allow,
  and an agent lost during a resume leaves a base that does for the image it loaded.

## Model

| member | source | states |
|---|---|---|
| SparseImages.MergeDiffIntoBase | node-agent/main.py:2317-2351 | for any extent layout and chunk size the walk ends, and the merged image is the diff where it has data, zero pages included, and the base everywhere else |
| SparseImages.MergeEqualsInPlace | node-agent/main.py:2215-2245 | merging a Diff over the base gives the image that writing the same dirty pages into a clone of it gives |
| SnapshotFidelity.SuspendHolds | node-agent/main.py:2192-2258 | by whichever path a suspend succeeds, it leaves a verified snapshot a resume rebuilds the suspended memory from, page for page |
| SnapshotFidelity.CoveredExactly | node-agent/main.py:2193-2255 | the successful suspends of a sandbox all reload its memory if and only if base, leftover vm.mem and bitmap cover it |
| SnapshotFidelity.FullFallbackHeals | node-agent/main.py:2246-2254 | the Full fallback reloads even a sandbox whose base is stale |
| SnapshotFidelity.GuardKeepsCovered | node-agent/main.py:1872-1973 | a guarded write, base snapshot, checkpoint or suspend loses no clean page |
| SnapshotFidelity.GuardFailureUncovers | node-agent/main.py:1954-1969 | where the guard fails there is a guest memory, compatible with everything on disk, that the operation loses |
| SnapshotFidelity.GuardExactly | node-agent/main.py:1872-2267 | an operation is safe for every compatible guest memory if and only if its guard holds |
| SnapshotFidelity.ResumeGuardExactly | node-agent/main.py:2512-2633 | of a sandbox that is down: its guard holds if and only if the resume leaves a running sandbox covered, and one still down with its snapshot, wherever the agent is lost |
| SnapshotFidelity.FailedResumeKeepsSnapshotExactly | node-agent/main.py:2615-2667 | a resume that fails and leaves the sandbox down keeps the snapshot unless it fails after the promotion consumed vm.mem |
| SnapshotFidelity.RunFidelity | node-agent/main.py:2132-2633 | over any number of generations, both storage modes, failed calls and agents lost on the way, a guarded run resumes exactly what it suspended, and a sandbox that is down always verifies |
| SnapshotFidelity.GuestUndisturbed | node-agent/main.py:1926-1973 | while a sandbox runs, no base snapshot, checkpoint or failed suspend touches its memory or registers |
| SnapshotFidelity.RunIsTransparent | node-agent/main.py:1872-2633 | after any guarded run the guest, running or held on disk, is what its own writes and execution made it: snapshots and resumes leave no trace |
| SnapshotFidelity.DamagedStaysDown | node-agent/main.py:1503-1566 | where a file the manifest lists is missing or has other content than recorded, the sandbox stays down and the directory unchanged over any operations with any outcomes |
| SnapshotFidelity.SizesSuffice | node-agent/main.py:1463-1535 | over every run that starts with the sandbox running, guarded or not, one that is down verifies if and only if the files its manifest lists are there, so sizes alone decide as hashes do |
| SnapshotCorruptions.CheckpointOverLeftover | node-agent/main.py:1936-1970 | a checkpoint over a vm.mem left by an abandoned suspend makes a later resume roll a page back |
| SnapshotCorruptions.LateFailureInPlace | node-agent/main.py:2256-2267 | in-place mode, the manifest cannot be written after the Diff: the next resume rolls a page back |
| SnapshotCorruptions.CheckpointLostAfterDiff | node-agent/main.py:1954-1970 | a checkpoint lost between Diff and promotion: the next resume rolls a page back |
| SnapshotCorruptions.LostAfterLoadInPlace | node-agent/main.py:2615-2621 | in-place mode, the agent lost between the load and the promotion and the guest adopted: the next resume rolls a page back |
| SnapshotCorruptions.LostInPromotionSparse | node-agent/main.py:2622-2633 | sparse mode, the agent lost between the removal of vm.mem and the rename: the next resume rolls a page back |
| SandboxNode.SandboxDir.OpSnapshotBase | node-agent/main.py:1889-1905 | takes exactly the specified step; it succeeds if and only if there is a base or the Full call is served, leaves a dense image of the memory, and does not touch the guest |
| SandboxNode.SandboxDir.OpCheckpoint | node-agent/main.py:1930-1970 | takes exactly the specified step; it succeeds if and only if the sandbox runs over a base and the Diff is promoted, and then the base has every dirty page anew and every other page as before, nothing is dirty and the guest is untouched |
| SandboxNode.SandboxDir.FullSnapshot | node-agent/main.py:2193-2210 | the first suspend: a dense image of the memory, and a copy of it as the base; it succeeds if and only if both are served |
| SandboxNode.SandboxDir.DiffSnapshot | node-agent/main.py:2211-2254 | the later suspends, page by page: dirty pages over a clone of the base or over what vm.mem held, or every page by the Full fallback; the marker says which, the base stays |
| SandboxNode.SandboxDir.OpSuspend | node-agent/main.py:2190-2293 | takes exactly the specified step; which calls must be served for it to succeed; a success from a covered sandbox holds its memory, anything else leaves it running as it was |
| SandboxNode.SandboxDir.VerifySnapshot | node-agent/main.py:1542-1566 | a directory without a manifest gets one, and the check fails if and only if a file is missing or differs from what was recorded |
| SandboxNode.SandboxDir.PromoteImage | node-agent/main.py:2615-2633 | the two file operations of the promotion, and what is left when the agent is lost between them |
| SandboxNode.SandboxDir.OpResume | node-agent/main.py:2481-2633 | takes exactly the specified step; whatever its calls come to, a damaged snapshot never enters the guest and stays as it is on disk, an undamaged one does unless the load or the registration fails, page for page as vm.mem, the marker and the base say, and a success leaves it as the next base |
| HandoffSafety.NextKeepsInv | sandbox-api/recovery.py:200-842 | every step of recovery, repatriation, nodes and users keeps: mounts are attached, VMs are where the volume is, moved records are on a host that has it |
| HandoffSafety.SingleLiveCopy | sandbox-api/recovery.py:715-759 | over all interleavings a sandbox has at most one running VM, where the state volume is attached and mounted |
| HandoffSafety.UnmountKeepsSound | node-agent/main.py:3469-3527 | an unmount that the agent does not refuse leaves no VM without its volume |
| HandoffSafety.OnlyPassDeletes | sandbox-api/recovery.py:1021-1038 | only three steps delete a volume, each one that is not attached |
| HandoffSafety.DeletionFence | sandbox-api/recovery.py:704-708 | the state volume is deleted only by the empty-host branch, with no record targeted at that host and every moved record's Spot host gone |
| EmptyHost.SafeRunsLoseNothing | sandbox-api/recovery.py:552-590 | along every run of recovery, repatriation, users, joins, lost hosts and interruptions in which empty hosts are reclaimed only when the rows show it safe, the volume is never deleted while sandboxes are left |
| EmptyHost.EmptyPassSafeExactly | sandbox-api/recovery.py:552-590 | reclaiming an empty host spares the volume of every sandbox left, whatever happens then and after, if and only if neither its row nor a claim names that volume when the pass starts, or no record is left |
| EmptyHost.ReclaimedStandbyLosesVolume | sandbox-api/recovery.py:566-590 | a run in which a standby's row lapses and comes back, and the pass over it deletes the volume of a sandbox that still exists |
| Reentrancy.CheckpointKeepsRecord | sandbox-api/recovery.py:854-882 | a checkpoint flags a record only once its sandbox no longer runs on the source |
| Reentrancy.MoveKeepsRecord | sandbox-api/recovery.py:763-782 | a record that is not running moves with its original state; a running one waits for its resume |
| Reentrancy.ResumeAllKeepsRecord | sandbox-api/recovery.py:884-907 | a record becomes running on the Spot host only with its VM there |
| ReentrantRuns.StepKeeps | sandbox-api/recovery.py:599-842 | every step of a handoff stays on the way to the goal or reaches it |
| ReentrantRuns.VolumeKeepsIn | sandbox-api/recovery.py:695-759 | the moves of the two volumes keep every record, VM and volume where the handoff expects them |
| ReentrantRuns.BeatKeeps | sandbox-api/recovery.py:695-697 | whatever a node reports at any moment, neither a pass in progress nor the world between two passes is disturbed |
| ReentrantRuns.BackToBefore | sandbox-api/recovery.py:715-759 | a pass cut short before any sandbox runs on the Spot host leaves a world the next pass can start from |
| ReentrantRuns.BeforeStarts | sandbox-api/recovery.py:505-533 | the next pass starts from what an interrupted one left and finds each sandbox's original state |
| RepatriationGoal.SomeStep | sandbox-api/recovery.py:599-842 | a handoff pass is never stuck: until the goal some step of it succeeds |
| RepatriationGoal.StepShrinks | sandbox-api/recovery.py:634-842 | every step brings the pass nearer its end, by a measure in records and node calls left |
| RepatriationRuns.PassEndsAtGoal | sandbox-api/recovery.py:634-842 | a pass left alone, nodes reporting meanwhile, takes a bounded number of steps of its own and stops nowhere short of the goal |
| RepatriationRuns.RepatriationReentrant | sandbox-api/recovery.py:695-697 | after any number of interrupted passes and reports of the nodes the next pass starts and, left alone, ends with the volume on the Spot host, every sandbox in its original state, the replaced volume deleted and the On-Demand host terminated |
| RepatriationRuns.UnmountedMeansCheckpointed | sandbox-api/recovery.py:653-688 | once the source has no volume, every sandbox that ran there is flagged checkpointed or has moved |
| RepatriationRuns.InterruptExactly | node-agent/main.py:3406-3412 | an interrupted pass can still be completed if and only if no sandbox is on the Spot host yet or all have moved |
| RepatriationRuns.TornForever | node-agent/main.py:3406-3412 | with one sandbox on the Spot host and another left behind, no number of later passes reaches the goal |
| RepatriationRuns.RecoveredIsBefore | sandbox-api/recovery.py:441-476 | a freshly recovered host and a Spot host that has reported its volume are where a handoff can start |
| HandoffWitness.RecoveredIsReached | sandbox-api/recovery.py:200-440 | a run of recovery leads from the initial world to such a one |
| HandoffWitness.GoalIsReached | sandbox-api/recovery.py:200-842 | and a run of the whole protocol on to the goal of the handoff |
| PassSteps.IdentityGate | sandbox-api/recovery.py:695-708 | the volumes are touched only while the claim stands and does not name the state volume as the one to replace |
| PassSteps.HealthGate | sandbox-api/recovery.py:818-833 | the source is given up only if the Spot host mounts the state volume and reports at least as many sandboxes as were running |
| RepatriationPass.Coordinator.MarkRecord | sandbox-api/recovery.py:634-649 | one write: the record is repatriating and keeps the state it is held for |
| RepatriationPass.Coordinator.MarkRecords | sandbox-api/recovery.py:634-649 | the loop marks every record of the list, each write a step of the protocol, and stops at the first that fails |
| RepatriationPass.Coordinator.CheckpointRecord | sandbox-api/recovery.py:854-882 | a running sandbox is suspended, a suspended one left alone, any other runtime is an error; then the record is flagged |
| RepatriationPass.Coordinator.CheckpointRunning | sandbox-api/recovery.py:651-688 | every running record not yet flagged is worked through in order whichever fail: each that runs on the source is asked to suspend, exactly once; it succeeds only when all did, and then nothing is left to checkpoint |
| RepatriationPass.Coordinator.LeaveSource | sandbox-api/recovery.py:715-724 | looks the attachment up, and unmounts and then detaches only where it is there |
| RepatriationPass.Coordinator.HandOver | sandbox-api/recovery.py:695-759 | identity check, claim, unmounts, detaches, attach and mount in this order, each a step of the protocol; none is refused in a handoff |
| RepatriationPass.Coordinator.MoveRecords | sandbox-api/recovery.py:761-782 | the loop moves every record that was not running and lists exactly the others for their resume |
| RepatriationPass.Coordinator.ResumeRunning | sandbox-api/recovery.py:784-816 | every listed record is asked to resume, exactly once, whichever fail; it succeeds only when all did, each with its VM on the Spot host before its record says so |
| RepatriationPass.Coordinator.CheckTarget | sandbox-api/recovery.py:818-833 | passes if and only if the Spot host mounts the state volume and reports as many sandboxes as were running, unless a call fails |
| RepatriationPass.Coordinator.FinishUp | sandbox-api/recovery.py:818-842 | health check, deletion, release and termination in this order, each a step of the protocol; an unhealthy target costs nothing, a success leaves volume, claim and source gone; in a handoff none is refused |
| RepatriationPass.Coordinator.ReclaimVolume | sandbox-api/recovery.py:566-590 | an attached volume is unmounted, detached and deleted, an available one deleted, any other left alone; it is refused if VMs run on the host or another volume is mounted, and only then unless a call fails |
| RepatriationPass.Coordinator.ReclaimEmpty | sandbox-api/recovery.py:552-597 | the branch for empty hosts, each call a step of the protocol; if no call fails and no claim names an attached volume it succeeds if and only if the row's volume is not stuck on the host, and then exactly that volume, unless it is attached elsewhere, and the claim's are deleted and the host is gone |
| RepatriationPass.Coordinator.RepatriateHost | sandbox-api/recovery.py:505-852 | whichever calls fail or lose their answer, a pass is a run of the protocol, cut off where it stopped; over a handoff it reports success only at the goal, and does so when no call fails; of a host no record is targeted at it reclaims volume, claim and host, and when no call fails it does so exactly where nothing is in the way |
| Lifecycle.StepKeepsNode | node-agent/main.py:2132-2633 | whatever operators do, a snapshot that verifies is of exactly what was suspended last |
| Lifecycle.StepKeepsFenced | sandbox-api/operator.py:401-565 | while the record is written and resumes are carried out only for the holder of the lease, every step, suspends carried out late included, keeps what the record, the operation in progress and the node promise each other |
| Lifecycle.VerifiedMeansSuspended | node-agent/main.py:2132-2633 | over every run, fenced or not, what verifies on the node is what was suspended last |
| Lifecycle.SuspendedMeansVerified | sandbox-api/operator.py:401-531 | over every such run, abandoned and recovered suspends included, a record marked suspended or slept has a verified snapshot, and resuming it brings back exactly what was suspended |
| Lifecycle.PromiseBrokenExactly | sandbox-api/operator.py:293-296 | with operations outliving their leases: a step breaks that promise if and only if it writes suspended or slept while the sandbox runs or its snapshot does not verify, or carries out a resume request while the record says so |
| Lifecycle.LateSleepBreaks | sandbox-api/operator.py:293-296 | from any suspended record someone is about to mark slept, a resume in between ends with a slept record and a running sandbox |
| Lifecycle.StaleRecoveryBreaks | sandbox-api/operator.py:419-437 | from any abandoned suspend: a recovery that stalls past its lease writes its target over a sandbox the user has resumed in the meantime |
| OperatorActions.SuspendRuns | sandbox-api/operator.py:461-565 | a suspend that nothing interrupts is a run of the protocol, fenced by its lease |
| OperatorActions.SandboxOperator.Suspend | sandbox-api/operator.py:461-565 | is that run: the record leaves "running" for its target only with a verified snapshot, of exactly the guest if nothing was lost before; any failure leaves it "running", and without the lease nothing happens |
| OperatorActions.RecoverRuns | sandbox-api/operator.py:401-459 | so is a recovery that nothing interrupts |
| OperatorActions.SandboxOperator.RecoverSuspending | sandbox-api/operator.py:401-459 | is that run: an abandoned "suspending" becomes what the node reports and stays when it does not answer |
| OperatorActions.ResumeRuns | sandbox-api/operator.py:567-672 | and a resume, from every record state, with the probe of an earlier attempt answered or not |
| OperatorActions.SandboxOperator.Resume | sandbox-api/operator.py:567-672 | is that run: which records, probes, answers and outcomes bring the record to "running", with "failed" in every other case, and when the sandbox runs; a suspended sandbox comes back exactly as suspended, a damaged one never |
| WorkQueue.CoalescingQueue.AdmitId | sandbox-api/operator.py:829-835 | an id already queued is only marked dirty; otherwise it is queued and one put is owed |
| WorkQueue.CoalescingQueue.EnqueueId | sandbox-api/operator.py:829-835 | the put follows exactly where one is owed, behind everything queued before |
| WorkQueue.CoalescingQueue.GetId | sandbox-api/operator.py:844-847 | ids leave the queue in the order they entered |
| WorkQueue.CoalescingQueue.ReleaseId | sandbox-api/operator.py:862-867 | leaving a reconcile clears queued and dirty together and reports the dirty mark |
| WorkQueue.NextKeepsToken | sandbox-api/operator.py:829-887 | an id is queued exactly when it has a put to come, a queue slot or a worker, and never two of them |
| WorkQueue.NeverTwoAtOnce | sandbox-api/operator.py:842-867 | no interleaving has two workers on one id, or one on an id that also waits |
| WorkQueue.NextKeepsMark | sandbox-api/operator.py:829-867 | an id enqueued while a worker is past its fetch is dirty or due for a retry |
| WorkQueue.ForgottenExactly | sandbox-api/operator.py:869-887 | a step loses an enqueue if and only if it is a re-read for a dirty mark that fails or finds nothing, of an unserved id that is not queued, has no retry due and is owed no other re-read |
| WorkQueue.QuietMeansServed | sandbox-api/operator.py:829-887 | at rest, if no step was a re-read that forgets, every enqueue has been followed by a reconcile that started after it and did not fail |
| WorkQueue.RereadsServe | sandbox-api/operator.py:869-887 | in particular where every re-read succeeds and finds its resource |
| WorkQueue.LookEnqueuesExactly | sandbox-api/operator.py:873-885 | the re-read enqueues if and only if the resource is there and the id was dirty or has an operation pending, and changes nothing else |
| WorkQueue.EnqueuedIsFetched | sandbox-api/operator.py:829-885 | once an id is enqueued, by anyone or by a re-read that finds an operation pending, a run without forgetting re-reads comes to rest only after a worker has fetched it again |
| WorkQueue.NeverStuck | sandbox-api/operator.py:842-887 | while anything is left to do, some step other than an enqueue can be taken |
| WorkQueue.FailedRereadForgets | sandbox-api/operator.py:873-887 | a run in which a failed re-read leaves an enqueue unserved with nothing left to do |
| LockMap.LockTable.Register | node-agent/main.py:476-480 | registering returns the table's lock for the id and counts the registration |
| LockMap.LockTable.Deregister | node-agent/main.py:486-493 | the last registration removes the entry, and only if it is still that lock |
| LockMap.NextKeepsInv | node-agent/main.py:473-493 | every step keeps: one lock per id in use, counts equal registrations, the owner is the thread inside |
| LockMap.MutualExclusion | node-agent/main.py:473-493 | everyone registered for an id has the same lock, and two inside it are one thread |
| LockMap.Independent | node-agent/main.py:477 | locks of different ids are different objects |
| LockMap.TableExact | node-agent/main.py:488-493 | the table holds exactly the ids in use, counted as often as registered |
| LockMap.NeverStuck | node-agent/main.py:481-485 | a waiter can enter if and only if no other thread is inside its id |
| Leases.HoldsNeverOverlap | sandbox-api/db.py:274-326 | over all runs of acquire, renew, release, deletion and re-creation the holds of distinct lease ids, each up to the expiry it was granted unless released or deleted, do not overlap |
| Leases.HeldUntilExpiry | sandbox-api/db.py:283-286 | until the expiry it was last granted nobody else takes a lease its owner has not released |
| Leases.AcquireExactly | sandbox-api/db.py:274-288 | an acquisition is granted if and only if the item is there without a lease or with one that ended before the reading, and the lease then ends the asked duration after the reading |
| Leases.GrantLasts | sandbox-api/db.py:274-288 | a granted lease is still held, over any run, until the asked duration after its reading, unless its owner releases or shortens it or the item is deleted |
| Leases.RenewalLasts | sandbox-api/db.py:304-318 | so is a renewed one |
| Leases.ReleasedIsFree | sandbox-api/db.py:292-301 | what its owner gives back, the next one who asks gets |
| Leases.StaleOwnerChangesNothing | sandbox-api/db.py:292-326 | once another hold has begun, whatever the old owner sends changes nothing, for good |
| Leases.DeletedStaysDeleted | sandbox-api/db.py:283-286 | no lease write brings a deleted item back |
| LeaseSet.LeaseTable.Acquire | sandbox-api/db.py:274-289 | one conditional write: it succeeds if and only if the item exists and its lease is absent or expired before the reading, grants the lease until the asked duration after it, and touches no other item |
| LeaseSet.LeaseTable.Renew | sandbox-api/db.py:304-326 | only the current owner extends its lease, expired or not, to the asked duration after the reading; otherwise nothing changes |
| LeaseSet.LeaseTable.Release | sandbox-api/db.py:292-301 | only the current owner removes its lease; a lost write is swallowed |
| LeaseSet.SandboxLeaseSet.AcquireAll | sandbox-api/recovery.py:73-92 | succeeds if and only if every sandbox could be leased and answered, and then holds all for the asked duration; otherwise it is refused or raises as the first failure says, and holds none of its own but where the network lost an answer or a release |
| LeaseSet.SandboxLeaseSet.ReleaseAll | sandbox-api/recovery.py:129-136 | gives back every lease it held and touches no other item |
| WarmPool.WarmItems.ClaimItem | sandbox-api/db.py:674-699 | wins the first candidate still ready, and only that one, however stale the list |
| WarmPool.ConsumedAtMostOnce | sandbox-api/warm_pool.py:78-103 | over all races and crashes a warm id is taken by at most one real id and never offered again |
| WarmPool.DirectoriesDisjoint | node-agent/main.py:1771-1794 | no sandbox directory has two owners |
| WarmPool.MigrationBeforeDeletion | sandbox-api/warm_pool.py:105-123 | a source item goes only after a real record took over its fields or the claim was given up |
| WarmPool.RetryResumesSameVm | sandbox-api/warm_pool.py:78-103 | a retried claim finds its journaled source and keeps the VM an earlier attempt left running |
| WarmPool.ClaimReachesCall | sandbox-api/warm_pool.py:76-103 | from every state a claim takes the first ready candidate, reads it and journals it before it calls the node |
| WarmPool.CallSettles | sandbox-api/warm_pool.py:105-130 | an answered resume and two writes that go through end with the VM running under the real id, its record complete, and neither journal nor source left |
| WarmPool.LostAnswerSettles | sandbox-api/warm_pool.py:131-143 | so does a resume whose answer is lost, if the probe then says that the VM runs |
| WarmPool.FailedCallGivesUp | sandbox-api/warm_pool.py:144-163 | a refused resume whose probe does not say so ends with journal, node and source cleared and no VM touched |
| WarmPool.AbandonedExactly | sandbox-api/warm_pool.py:126-163 | a VM escapes its record, by journal, takeover or node, if and only if a claim is given up although its VM exists |
| WarmPool.LostAnswerAbandonsVm | sandbox-api/warm_pool.py:131-163 | a run with one lost answer and one unanswered probe that ends so |
| WarmPool.FailedDeleteAbandonsVm | sandbox-api/warm_pool.py:122-163 | a run in which every answer arrives, but the delete after the migration fails and the probe does: the record of a running sandbox loses its node |
| Placement.Placer.TryNodes | sandbox-api/drivers/firecracker.py:171-209 | at most one request more than the configured retries, to different nodes, all but the last refused as full; the journal names the last; capacity is reported exactly when all of them were full |
| Placement.LoopRuns | sandbox-api/drivers/firecracker.py:172-209 | the loop's iterations are a run of the protocol: a node is picked, the journal names it, and only then the request goes out |
| Placement.Placer.TryInState | sandbox-api/drivers/firecracker.py:172-209 | from any state the loop can find, what it does is that run |
| Placement.HeadRuns | sandbox-api/drivers/firecracker.py:146-169 | asking for the journaled VM, for its node's health and for a tap is a run of the protocol up to the loop |
| Placement.Placer.Create | sandbox-api/drivers/firecracker.py:136-216 | a VM found running is returned with no request; a journaled place is tried first with its tap; a cut-off node's place is given up for a new tap; where there is a record the call is a run of the protocol from any state it can find |
| Placement.ForsakenExactly | sandbox-api/drivers/firecracker.py:146-163 | a sandbox leaves its one place if and only if a create is repeated while the node it runs on is cut off |
| Placement.AtMostOneVm | sandbox-api/drivers/firecracker.py:136-216 | however often create crashes and repeats there is one VM at most, on the journaled node with the journaled tap |
| Placement.ForsakenRunsTwice | sandbox-api/drivers/firecracker.py:155-191 | from any state in which the node is cut off, the repeated create can start the sandbox a second time |
| Placement.RetriesBounded | sandbox-api/drivers/firecracker.py:172-209 | each request of a call goes to a node that has not refused it, after the journal names it, at most one time more than the configured retries |
| VcpuPinning.VcpuTable.Reserve | node-agent/main.py:842-873 | grants if and only if the others' vCPUs and the request fit the capacity, and leaves everything alone otherwise; the pins are different CPUs, as many as asked for and there are, the old ones first, and none left out comes before an added one by the number of other sandboxes on it |
| VcpuPinning.VcpuTable.CountLoads | node-agent/main.py:862-868 | the load counted for a CPU is the number of other sandboxes pinned to it |
| VcpuPinning.VcpuTable.Release | node-agent/main.py:876-879 | the sandbox is in neither table afterwards and every other entry is as before |
| VcpuPinning.LightestIsLeastLoaded | node-agent/main.py:869-873 | the chosen CPUs are different, as many as asked for and there are, and none left out comes before one of them |
| VcpuPinning.CommitBounded | node-agent/main.py:842-856 | over any run the node never commits more than its capacity, and a sandbox's pins are different CPUs of the host |
| VcpuPinning.CommittedIsOutstanding | node-agent/main.py:842-879 | what is committed is what each sandbox was last granted and has not released since |
| VcpuPinning.GrantedExactly | node-agent/main.py:842-879 | over any run a reserve is granted if and only if it fits beside what the others were granted and have not released |
| VcpuPinning.RepeatKeepsPins | node-agent/main.py:857-861 | asking again keeps the pins; asking for more extends them |
| VcpuPinning.NoCpuOverloaded | node-agent/main.py:862-873 | over any run of single-vCPU sandboxes no CPU carries more than its rounded-up share of the capacity |
| VcpuPinning.FreshReservationsEven | node-agent/main.py:862-873 | sandboxes of any sizes placed one after another load the CPUs to within one of each other |
| WebSocketFrames.RecvFrames | portal/lib/termServer.ts:54-83 | the loop over the shrinking buffer gives every complete frame's data up to a close, and the remainder |
| WebSocketFrames.TakeFrame | portal/lib/termServer.ts:58-78 | one frame's header, length class, mask and payload, or that it is not complete |
| WebSocketFrames.Unmask | portal/lib/termServer.ts:76-78 | the in-place XOR unmasks every byte with its mask byte |
| WebSocketFrames.XorIsBitwise | portal/lib/termServer.ts:77-78 | unmasking flips exactly the bits the mask byte sets |
| WebSocketFrames.SendFrame | portal/lib/termServer.ts:42-51 | the bytes sent: 0x82, then one, three or nine bytes of length without a mask bit, then the data |
| WebSocketFrames.ServerFrameReadsBack | portal/lib/termServer.ts:42-51 | for every length class, decoding what is sent gives exactly that payload, whatever follows |
| WebSocketFrames.ClientFrameReadsBack | portal/lib/termServer.ts:60-79 | a masked client frame of any length class reads back as its opcode and payload |
| WebSocketFrames.ReceivesOne | portal/lib/termServer.ts:79-83 | of one client frame, opcodes 0, 1 and 2 give exactly the payload, 8 closes, 9, 10 and the others give nothing |
| WebSocketFrames.ReceivesUnmasked | portal/lib/termServer.ts:60-83 | a frame without a mask is read as two header bytes and its payload |
| WebSocketFrames.ReceivesFrames | portal/lib/termServer.ts:54-83 | after any frames but a close come exactly their data payloads, then whatever the rest of the bytes gives |
| WebSocketFrames.ReceivesStream | portal/lib/termServer.ts:54-83 | a stream of frames and the start of another gives every data payload in order and keeps the start |
| WebSocketFrames.ReceivesUpToClose | portal/lib/termServer.ts:79-83 | a close ends the stream and leaves what follows unread |
| WebSocketFrames.SplitsDoNotMatter | portal/lib/termServer.ts:54-83 | payloads, remainder and close do not depend on how the bytes are split over reads |
| AgentAuth.CanonicalInjective | sandbox-api/node_agent_auth.py:54-58 | canonical strings agree if and only if the requests do, up to the case of the method |
| AgentAuth.DecimalReadsBack | sandbox-api/node_agent_auth.py:65 | the signer's timestamp has the digits the verifier accepts and reads back as the same second |
| AgentAuth.SignedIsAccepted | sandbox-api/node_agent_auth.py:61-75 | a request signed in the window, with a fresh nonce and room in the cache, is accepted |
| AgentAuth.NonceCharsExactly | node-agent/agent_auth.py:42 | the characters taken in a nonce are exactly the 64 of URL-safe base64 |
| AgentAuth.HexCharsExactly | node-agent/agent_auth.py:43-44 | and in a hash or signature exactly the 16 lower-case hexadecimal digits |
| AgentAuth.TokenFormat | sandbox-api/node_agent_auth.py:66 | 24 random bytes make a nonce the verifier takes |
| AgentAuth.TokensDiffer | sandbox-api/node_agent_auth.py:66 | different random bytes make different nonces |
| AgentAuth.SignedHeadersAccepted | sandbox-api/node_agent_auth.py:61-75 | what the signer sends, nonce, body hash and MAC in their encodings, is accepted while the clocks differ by no more than the skew, the nonce is new and there is room |
| AgentAuth.AcceptedBindsRequest | node-agent/agent_auth.py:118-122 | an accepted signature was made for that very request, unless the two strings collide |
| AgentAuth.Verifier.VerifyHeaders | node-agent/agent_auth.py:98-122 | accepts exactly the requests that pass every check in order and whose nonce is new, names for each reason exactly when it is given, and touches the cache only after the signature |
| AgentAuth.Verifier.RememberNonce | node-agent/agent_auth.py:124-133 | refuses a known nonce, evicts past the horizon only when full, refuses when still full |
| AgentAuth.Verifier.Serve | node-agent/agent_auth.py:98-133 | a run of calls answers, and leaves the cache, as the run the replay lemmas are about |
| AgentAuth.DoubleAcceptanceExactly | node-agent/agent_auth.py:115-133 | a nonce last accepted before is accepted again if and only if an eviction in between read a clock more than twice the skew past its reading, and there is room |
| AgentAuth.NeverAcceptedTwice | node-agent/agent_auth.py:115-133 | in any run of calls no pair of nonce and timestamp is accepted twice, under any signature and for any request, evictions or not, while the readings of those that reach the lock are in order |
| AgentAuth.CacheBounded | node-agent/agent_auth.py:128-133 | the cache never exceeds its limit |
| AgentAuth.LateLockAcceptsTwice | node-agent/agent_auth.py:115-133 | for every skew and every cache of two nonces or more, a run of signed requests, all accepted, whose first and last are the same request with the same reading |
| NodeNetwork.Chain.EnsureJumpFirst | node-agent/main.py:604-618 | any chain becomes the jump and then its other rules; from the first command on the jump is first; one command for each copy too many and one if the jump was not first |
| NodeNetwork.WithoutKeepsOthers | node-agent/main.py:616-618 | every other rule is kept as often as it was |
| NodeNetwork.WithoutJoins | node-agent/main.py:616-618 | and they keep their order |
| NodeNetwork.TapIsSlash30 | node-agent/main.py:506-514 | host and guest are the usable pair of one aligned /30 with valid octets: 172.18.index.1 up to index 255, then the blocks of 172.19.0.0/16 in order |
| NodeNetwork.TapCollidesExactly | node-agent/main.py:502-514 | two indices share a /30 if and only if they are equal or both past 255 and a multiple of 16384 apart, and otherwise their /30s are disjoint |

## Left out

- Relocation of a claimed warm VM's snapshot directory, memory templates, hash caches and the S3 path: resumes are from the directory the snapshot was taken in.
- A base snapshot left half-written by a failed Full call is modelled, and its guard says when it is harmful; the deadline arithmetic around the calls is not.
- Swallowed promotion errors: renames are assumed to succeed.
- Cross-session repatriation: a claim that expires and is taken by another session is not modelled; per-session flags are never cleared, so the claims are per session.
- RepatriationRuns.RepatriationReentrant: quantifies over passes of one handoff with hosts up, nodes reporting at will and no user operations in between; lost hosts and users are in HandoffSafety.
- RepatriationPass.Coordinator.RepatriateHost: nothing else moves during one execution, and the thread pools are worked through in order; interleavings are in the transition system its executions are runs of.
- SnapshotGenerations: an agent lost between the in-place clone's rename and its marker leaves what a failed Diff leaves but for the marker, which the next suspend writes anew.
- HandoffSafety.DeletionFence: says nothing about records of other recovery hosts of the session, because the code's fence does not either; EmptyHost says exactly when that matters.
- AgentAuth.CanonicalInjective: upper-cases ASCII letters only and treats strings as sequences of characters; hashes and HMAC are functions assumed collision-free where a lemma says so.
- Placement.AtMostOneVm: covers creates that have a record to journal in; a warm-pool create without one is never repeated under the same id.
- Placement.Placer.Create: the read of the guest's address after the request counts as part of the answer.
- WarmPool.RetryResumesSameVm: the node holding the snapshot is one party; resuming elsewhere from S3 is not modelled.
- Lifecycle.SuspendedMeansVerified: covers runs in which only the holder of the lease writes the record and has resumes carried out, because the code does not enforce that; PromiseBrokenExactly and the two runs say what the others do.  Leaves out creation, deletion, idle cancellation and the states of Spot recovery.
- VcpuPinning.NoCpuOverloaded: the set of online CPUs and the capacity are fixed during a run.
- WorkQueue.QuietMeansServed: leaves out the stop flag, under which a failed reconcile sets off no retry.
- Renewal threads: renewals appear as lease writes at any time, not as a schedule.
- HTTP handlers, tunnelling, exec, file transfer, IMDS polling, metrics, the synchronous API in sandbox-api/app.py and the portal's pages: plumbing around the protocols.

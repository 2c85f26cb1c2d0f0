# KVCR in Dafny

A model of KVCR, a multi-tier KV-cache data plane, and proofs about it: remote writes between
processes, the local DRAM pools shared by two threads, crash recovery through a shared ring and
a handback region, the Guard that owns a pool between primaries, the disk tier, and the lifetime
of operations and pins. `dafny verify dfyconfig.toml` checks everything.

How the parts fit together:

- **Remote write.** `RemoteOps` has the two halves of a write as functions of one poll;
  `WriteProtocol` is the state machine of one write identity over a network that loses and
  reorders messages, with processes that start, stop, die and are certified dead; `WriteSafety`
  and `WriteRuns` prove every run safe, and `WriteOutcomes` says what a success stands for.
  `RemoteEndpoint` has the tables that the code updates in place.
- **Recovery.** `Frames`, `RecoveryRing` and `RingInterleaving` take the journal ring from bytes
  to a FIFO queue; `Handback` is the snapshot region; `RecoveryRecords`, `Mirroring` and
  `CrashConsistency` say how changes travel and what may be recovered at any point of a primary's
  life; `Promotion` runs primary, ring and mirror as one machine. `GuardRecovery` and `GuardLife`
  carry tables, as bytes, from holder to holder; `GuardLease` decides who the holder is.
- **Local DRAM.** `Layouts` and `Fills` are labels, writer counts and readability of one
  residency; `Pools`, `PoolSafety` and `PoolRuns` are claims, readers, retirement and eviction of
  all of them under both threads; `SourceState` is the shared reader table; `Allocation` hands out
  slots; `EvictionQueue` is the lazy heap behind eviction.
- **Local operations.** `LocalOps` has the tables of deposits, fetches and deliveries and of
  everything else that holds a claim; `LocalOpsSafety` and `LocalClaims` prove what each step
  keeps and moves; `LocalVerdicts` and `LocalOutcomes` read every operation's results off the steps
  taken; `LocalRuns` and `LocalResults` run them on the residencies; `LocalFrames` is about frames
  that come back to a delivery.
- **Disk, completions, pulls, pins.** `DiskContent`, `DiskStore` and `DiskHistory`; `Lifecycles`,
  `JoinedCompletions` and `DeliveryResults`; `PullAlignment`; `FrameworkPins`; `PreparedIndices`.

State machines are stated over whole runs (`CanRun`, `After`); each step is one section under a
lock or one stretch of straight-line code, so a run may stop or switch threads between any two.
Invariants are stated per residency, key and slot.

Five properties hold only under a condition, which is proved to be exact:

- A pull that is cancelled before it knows its source's incarnation can be finished by a stranger:
  a closing process answers for every write it has not submitted, bare probe fences included, if it
  knows a route to the target (`src/kvcr/backends/remote_fw_dram.py:529-534`), and a blind probe
  believes it. Cancelling is safe in all continuations if and only if the incarnation is known
  (`WriteRuns.CancelIsSafeIffSourceIsNamed`, with a run in `WriteRuns.UnsafeRunExists`).
- The commit of an eviction re-checks readers but not claims
  (`src/kvcr/backends/local_dram_pools.py:727-731`). It is safe if and only if nobody claims or
  reads what leaves the table and the slots given back are those of what leaves
  (`PoolRuns.CommitIsSafeIffHarmless`, with a run in `PoolExample.ReentrantClaimIsLost`).
- Finishing a delivery takes it out of the pending table without looking whether it is still there
  (`src/kvcr/backends/local_dram.py:920-928`). A frame that collected the delivery may come back
  to it after a nested frame has finished it, and then this raises; it works if and only if the
  delivery is still pending (`LocalResults.ReturnWorksIffPending`, with a run in
  `LocalExample.ReturnFails`), and never fails while frames do not overlap on a delivery
  (`LocalFrames.PoliteRunsNeverFail`). The delivery completes once either way.
- A fetch that was granted a block does not always complete with success for it: when a fill that it
  asked for fails later, the result is overwritten without a look whether there is one
  (`src/kvcr/backends/local_dram.py:714-721`), and the claim it was granted stays. A granted block
  completes as a success if and only if no such fill fails after the grant
  (`LocalOutcomes.FetchesFollow`, with a run in `GrantExample.GrantedButFailed`).
- A block can come to refer to a pin whose release has started, namely if and only if the framework
  hands such a pin out anew for a key without one (`FrameworkPins.NothingRefersToReleasing`).

Modelling decisions:

- The clock, the transport's answers, policy decisions, the framework's answers to pin releases and
  the outcome of native transfers are parameters of steps and methods.
- The digest is collision-free and payload encodings are invertible (`Mirroring.Faithful`); `heapq`
  is a bag whose least entry can be removed; scores are reals.
- Reply channels of the write protocol may also duplicate; requests and refusals may not.
- One write identity is modelled at a time; `RemoteEndpoint.SourceTable` shows that handling one
  leaves all others alone.
- Operation handles, residencies, leases and incarnations are never reused.
- A block key is a string; only its equality matters.

## Model

| member | source | states |
|---|---|---|
| `RemoteOps.MergedNotifications` | src/kvcr/backends/remote_fw_dram.py:1132-1162 | over all notifications of one poll: the merged event is terminal if and only if some notification was, is cancelled if and only if some failed, and succeeds if and only if all did |
| `RemoteOps.MergeRefusal` | src/kvcr/backends/remote_fw_dram.py:501-510 | of a native event and a refusal exactly one is kept, and a terminal word is never lost to a retry |
| `RemoteOps.RefusedPullAsksOnceMore` | src/kvcr/backends/remote_fw_dram.py:638-674 | a refused pull that waits for its write asks once more, quoting whoever refused, if the refusal allows it, it has not done so before, is neither expired nor stopping and the request can be sent; otherwise it fails, and any later refusal ends it |
| `RemoteOps.ProgressShape` | src/kvcr/backends/remote_ops.py:130-339 | what one poll of a pull may do, for every state, message and clock: requests leave only from the start state, probes quote the known incarnation, and only a terminal event or an unsent request ends the pull |
| `RemoteOps.HandleProbe` | src/kvcr/backends/dangling_ops.py:174-203 | a probe for this process or for whoever answers fences the write, keeping what else is known of it, and any other probe changes nothing; the answer is terminal if and only if the probe is so addressed and no transfer was submitted |
| `RemoteOps.StartWriteMeans` | src/kvcr/backends/remote_fw_dram.py:726-841 | a request is accepted if and only if the process runs, its peer is set up, it has no status for the write, the request quotes nobody or this process, and it can take it; each refusal and failure is answered exactly in its own case |
| `WriteSafety.StepKeeps` | src/kvcr/backends/remote_fw_dram.py:726-841 | every step of target, source, network and process lifecycle keeps the protocol invariant, unless a closing process answers for a write it only fenced |
| `WriteRuns.FinishedPullIsNeverWritten` | src/kvcr/backends/remote_ops.py:130-339 | in every run with lost and reordered messages, crashes, restarts and certified deaths, a finished pull is never written afterwards, as long as no fence-only close answer is believed |
| `WriteRuns.NamedRunSafe` | src/kvcr/backends/remote_fw_dram.py:676-694 | a pull that knows its source's incarnation when it cancels is safe in every run, close answers included |
| `WriteRuns.CancelIsSafeIffSourceIsNamed` | src/kvcr/backends/remote_fw_dram.py:529-534 | at the moment of cancelling: every continuation is safe if and only if the source incarnation is known |
| `WriteRuns.UnsafeRunExists` | src/kvcr/backends/remote_fw_dram.py:529-534 | a concrete run from the start in which a closing stranger's answer to a blind probe finishes a pull whose write is then posted |
| `WriteOutcomes.SuccessIsEarned` | src/kvcr/backends/remote_fw_dram.py:1132-1162 | in every run with lost and reordered messages, crashes and restarts, a pull that succeeded has had its write finished and notified by a source, or nothing to write |
| `WriteOutcomes.WriteSucceeds` | src/kvcr/backends/remote_ops.py:199-253 | from every state in which a pull waits and its write runs: if the write ends with its notification and that is heard in time, the pull succeeds |
| `WriteOutcomes.NothingToWriteSucceeds` | src/kvcr/backends/remote_ops.py:438-450 | likewise if the source finds nothing to write |
| `WriteOutcomes.EveryEndIsTold` | src/kvcr/backends/remote_ops.py:398-601 | a source that lets go of a write tells the target, as a success only if there was nothing to write, except for a transfer that succeeded uncancelled, which the transport has notified |
| `WriteOutcomes.ProbeSettles` | src/kvcr/backends/dangling_ops.py:174-226 | from every state of a cancelled pull that names its source: an answer to its probe, by that process if it has submitted nothing or by anybody if that process is certified dead, ends it |
| `WriteOutcomes.CancelIsPassedOn` | src/kvcr/backends/dangling_ops.py:72-97 | a source that cancels a write under way tells the target once, and a waiting pull that hears it cancels |
| `WriteOutcomes.SourceStep` | src/kvcr/backends/remote_fw_dram.py:676-694 | apart from sending its request, a pull names a source only by the first acknowledgement it hears while it names none |
| `WriteOutcomes.SuccessRunExists` | src/kvcr/backends/remote_ops.py:140-253 | a run from the first request to success exists |
| `RemoteEndpoint.SourceTable.HandleProbe` | src/kvcr/backends/dangling_ops.py:174-203 | the table entry and answer of one probe are those of the protocol; no other write identity changes |
| `RemoteEndpoint.SourceTable.HandleStartWrite` | src/kvcr/backends/remote_fw_dram.py:726-841 | the table entry and reply of one request are those of the protocol; no other write identity changes |
| `RemoteEndpoint.SourceTable.FinishSource` | src/kvcr/backends/dangling_ops.py:99-106 | a finished write takes its own entry out and no other; its readers go back once; an abandoned write is reported quiesced, so that every uncertain report is answered by exactly one quiesced report or is still open |
| `RemoteEndpoint.SourceTable.Abandon` | src/kvcr/backends/dangling_ops.py:72-97 | a write cancelled for too long is reported uncertain once |
| `RemoteEndpoint.SourceTable.CloseProgress` | src/kvcr/backends/remote_fw_dram.py:529-534 | closing answers exactly the writes without a submitted transfer whose target has a route |
| `RemoteEndpoint.TargetPull.Poll` | src/kvcr/backends/remote_ops.py:130-339 | the in-place poll of a pull makes exactly the protocol's move and sends exactly its messages |
| `Frames.UnpackPack` | src/kvcr/service/recovery_journal.py:581-593 | a packed header is read back whatever follows it |
| `Frames.EncodeAligned` | src/kvcr/service/recovery_journal.py:229-237 | a queue of frames takes a multiple of the alignment |
| `RecoveryRing.ReadRingIsWindow` | src/kvcr/service/recovery_journal.py:346-353 | the two-part read across the end of the ring is the logical window |
| `RecoveryRing.WriteExtendsWindow` | src/kvcr/service/recovery_journal.py:338-344 | a write of free bytes extends the logical window and leaves the unread part alone |
| `RecoveryRing.OldestFrame` | src/kvcr/service/recovery_journal.py:273-301 | the window of a non-empty queue starts with its oldest frame, and dropping it leaves the rest |
| `RecoveryRing.SharedRing.Write` | src/kvcr/service/recovery_journal.py:338-344 | the in-place write across the end of the ring stores exactly the bytes at their positions |
| `RecoveryRing.SharedRing.Read` | src/kvcr/service/recovery_journal.py:346-353 | the in-place read returns the logical window |
| `RecoveryRing.RecoveryJournal.Reset` | src/kvcr/service/recovery_journal.py:210-217 | a reset journal is empty and valid |
| `RecoveryRing.RecoveryJournal.Publish` | src/kvcr/service/recovery_journal.py:219-257 | an accepted frame joins the end of the queue; a frame is refused, and the journal flagged, exactly when it does not fit or the journal is already unusable |
| `RecoveryRing.RecoveryJournal.ReadNext` | src/kvcr/service/recovery_journal.py:259-301 | a read returns the oldest frame and removes it, returns nothing on an empty unflagged one, or fails, and it fails only because the producer gave the journal up |
| `RecoveryRing.RecoveryJournal.Drain` | src/kvcr/service/recovery_journal.py:303-310 | a drain that does not fail returns every frame left; it fails exactly if the journal was flagged |
| `RingInterleaving.NeverMalformed` | src/kvcr/service/recovery_journal.py:273-301 | bytes copied from published memory never decode to a malformed frame, at any point of the copy |
| `RingInterleaving.StepRefinesQueue` | src/kvcr/service/recovery_journal.py:219-310 | every byte-sized step of producer or consumer leaves the queue, appends the published frame, or removes the oldest |
| `RingInterleaving.EveryInterleavingIsFifo` | src/kvcr/service/recovery_journal.py:219-310 | under every interleaving frames are delivered unaltered, in order and without gaps; an emptied ring that is not flagged delivered everything and refused nothing |
| `Handback.BodyRoundTrip` | src/kvcr/service/recovery_journal.py:596-605 | a snapshot body replays to exactly its frames, in order |
| `Handback.ReplayBody` | src/kvcr/service/recovery_journal.py:713-731 | the replay loop computes the decoding of the body, with its three errors |
| `Handback.FinishedReadsBack` | src/kvcr/service/recovery_journal.py:644-678 | a finished region reads back exactly its frames if and only if the terms are the ones it was written under |
| `Handback.AcceptedIsWhole` | src/kvcr/service/recovery_journal.py:687-731 | whatever a reader accepts is a whole body digested under its terms |
| `Handback.CrashIsAllOrNothing` | src/kvcr/service/recovery_journal.py:662-678 | after a crash at any point of the write, with any bytes of the interrupted overwrite in place, a reader finds the old snapshot whole, the new one whole, or an error |
| `Handback.PoolFile.WriteSnapshot` | src/kvcr/service/recovery_journal.py:644-678 | the written region reads back its frames; an oversized frame leaves the file untouched; no frames leave no region |
| `Handback.PoolFile.ReadSnapshot` | src/kvcr/service/recovery_journal.py:687-731 | reading decides like the specification, error by error |
| `RecoveryRecords.ReplayFirst` | src/kvcr/service/recovery_journal.py:361-372 | applying the oldest change first and the rest later is the whole replay |
| `CrashConsistency.EveryCrashIsRecoverable` | src/kvcr/service/recovery_journal.py:422-457 | over any number of generations and crash points: between actions baseline plus frames is the table's recoverable half; at every point a slot the replay names is not free, not being filled for another key, not named twice, and holds that key's bytes; a flagged journal leaves nothing |
| `CrashConsistency.StepKeeps` | src/kvcr/backends/local_dram_pools.py:639-646 | reserving, filling, dropping, publishing and giving back slots in both tiers keep what recovery may rely on, and so does dropping the record of a block no tier holds |
| `CrashConsistency.ReleaseKeeps` | src/kvcr/backends/local_dram_pools.py:734-744 | slots are given back only after the change that gave them up is published, so no replay names them |
| `CrashConsistency.Drop3Keeps` | src/kvcr/backends/local_disk.py:728-737 | evicting a disk residency leaves its slots held until the change is published |
| `CrashConsistency.PublishKeeps` | src/kvcr/service/recovery_journal.py:428-443 | a refused frame flags the journal and ends publication; an accepted one brings recovery up to date |
| `CrashConsistency.AlignKeeps` | src/kvcr/runtime/core.py:534-543 | moving a block within its sequence keeps what recovery may rely on; it is published if the block is recoverable |
| `CrashConsistency.TakeOverKeeps` | src/kvcr/service/guard.py:250-266 | whoever takes over at any point starts from the survivors with a consistent allocator |
| `CrashConsistency.TakeOverLosesNothing` | src/kvcr/service/guard.py:250-266 | between actions the next holder knows of every block exactly what the table said |
| `CrashConsistency.PublishedBlockSurvives` | src/kvcr/backends/local_dram.py:695-701 | a block filled and published survives its primary's death, slots and bytes |
| `Mirroring.MirroredIsReplay` | src/kvcr/service/recovery_journal.py:361-372 | decoding the published frames one by one is replaying the changes they stand for |
| `Promotion.StepKeeps` | src/kvcr/service/recovery_journal.py:219-301 | primary, ring and mirror in one machine: every action of the primary, every byte stored or copied, every death and every take-over keeps the accepted frames equal to the published changes, the flag equal to a refusal, and the mirror equal to the decoded frames |
| `Promotion.DrainedIsSurvivors` | src/kvcr/service/guard.py:250-266 | once the ring is read empty, what the Guard promotes is what the dead primary's own journal says has survived |
| `Promotion.PromotedTableIsSound` | src/kvcr/service/guard.py:250-266 | in every run of that machine, over any number of generations: a promoted table names no free slot, no slot with other bytes and no slot of another key; and if nothing was refused and the primary died between actions it is exactly the recoverable half of its block table |
| `GuardRecovery.CarriersAgree` | src/kvcr/service/recovery_journal.py:113-140 | the snapshot of any core table replays to exactly what the mirror adopts of it |
| `GuardRecovery.MirrorRoundTrip` | src/kvcr/service/recovery_journal.py:596-605 | a mirror's own table survives being written out and read back |
| `GuardRecovery.StripDisk` | src/kvcr/service/guard.py:146-159 | the in-place stripping drops blocks without a DRAM half and every disk half |
| `GuardRecovery.RestoreDisk` | src/kvcr/service/guard.py:162-176 | the in-place restoring gives every kept disk half back, with or without a DRAM record |
| `GuardRecovery.DiskSurvivesServing` | src/kvcr/service/guard.py:268-279 | whatever a serving Guard did to the DRAM half, every disk residency comes back as it was and none is made up; of the DRAM half exactly the complete residencies come back |
| `GuardRecovery.IdleServingIsInvisible` | src/kvcr/service/guard.py:268-307 | a Guard that served without changes hands back exactly what it took over |
| `GuardLife.UnreadableIsRefused` | src/kvcr/service/guard.py:880-920 | over a finished region that does not read back every run leaves the Guard and its region as they were |
| `GuardLife.ClaimantSeesTheMirror` | src/kvcr/service/guard.py:880-920 | in every run of claims, deaths, silences, promotions, serving, hand-backs, aborts and releases, over whatever region the file held: the table a claimant decodes from the bytes of the region is the mirror kept for it; it is what a serving Guard stood for if that could be stored; a claim over a region that does not read back is refused and changes nothing; and promotion from an unflagged journal recovers the primary's table |
| `GuardLife.StoredReadsBack` | src/kvcr/service/recovery_journal.py:644-759 | whatever a hand-back or release manages to store is decoded from the region as the replay of what was written |
| `GuardLife.HandBackAgrees` | src/kvcr/service/guard.py:288-301 | the bytes a serving Guard writes and the mirror it adopts are the same table |
| `GuardLife.StepKeeps` | src/kvcr/service/guard.py:203-332 | every such step keeps region, mirror, journal and primary consistent; a record too large leaves the file alone and ends the Guard or empties its mirror, a full storage empties region and mirror together |
| `GuardLife.ReleaseThenClaim` | src/kvcr/service/guard.py:303-316 | a released primary's exact table reaches the next claimant; without room nothing does; with an oversized record a started primary leaves nothing and one that had not started leaves what it was given |
| `GuardLife.DiskOutlivesThePrimary` | src/kvcr/service/guard.py:250-307 | after a death or a missed heartbeat, any serving and a claim whose hand-back was stored, the claimant has exactly the lost primary's disk residencies |
| `GuardLife.AbortThenClaim` | src/kvcr/service/guard.py:841-853 | a claim aborted before it served is invisible to the next claimant, as long as storage has room |
| `GuardLife.PromotionServes` | src/kvcr/service/guard.py:250-279 | in every run, after a death or a missed heartbeat the Guard serves, disk half included, exactly the primary's table if the journal is mirrored and unflagged, and nothing otherwise |
| `GuardLife.AbortUndoesTheClaim` | src/kvcr/service/guard.py:841-853 | in every run, aborting a claim just granted returns the Guard to serving if and only if it was serving before, and then it serves what the claimant was given |
| `GuardLife.RefusedFrameLosesTheTable` | src/kvcr/service/recovery_journal.py:245-257 | in every run, once the ring has refused a frame of a primary, a Guard that takes over from it serves nothing of its table |
| `GuardLife.OvertakenKeepsOut` | src/kvcr/service/guard.py:739-770 | in every run, from the moment a silent holder is overtaken until its exit is confirmed or it releases, no claim is taken |
| `GuardLease.StepKeeps` | src/kvcr/service/guard.py:474-507 | every section under the phase lock keeps the lease invariant |
| `GuardLease.LeasesAreSafe` | src/kvcr/service/guard.py:791-810 | in every run a current lease means the pool is held or the Guard failed, and a grant is made only while nobody holds the pool and the Guard does not serve |
| `GuardLease.CurrentOnce` | src/kvcr/service/guard.py:791-810 | in every run a lease is current without interruption: one that has ended is never current again |
| `GuardLease.LeasesEndForAReason` | src/kvcr/service/guard.py:489-507 | in every run, a lease that is current at one point and not at a later one was ended by a request for that very lease or the certain death of its own holder, either in between or earlier with the lease current ever since, or by shutdown in between |
| `GuardLease.StaleStepsCanBeLeftOut` | src/kvcr/service/guard.py:640-650 | releases, aborts and heartbeats for a lease that is not current can be left out of any run without changing where it ends |
| `GuardLease.NoGrantPastTheBarrier` | src/kvcr/service/server.py:229-239 | no run contains a grant after `refuse_claims` returned, wherever its flag was set relative to a grant under way |
| `GuardLease.ClaimIsGranted` | src/kvcr/service/guard.py:772-822 | from every state in which the Guard is free, accepts a claim and is not refusing, the claim is granted, and the Guard no longer serves |
| `GuardLease.DeadHolderIsReplaced` | src/kvcr/service/guard.py:684-737 | from every state in which the actor is free to look, a holder found dead is taken over: the Guard serves, nobody holds the pool, and it can be claimed |
| `GuardLease.SilentHolderIsFenced` | src/kvcr/service/guard.py:739-770 | a holder that beat and then stopped keeps its lease; the Guard serves for it if and only if it can be fenced and the takeover works, and else fails or changes nothing |
| `GuardLease.LiveHolderIsLeftAlone` | src/kvcr/service/guard.py:684-737 | a live holder that was heard in time, or never beat, is left alone |
| `GuardLease.HolderIsReleased` | src/kvcr/service/guard.py:824-853 | a release or abort of the current lease ends it; the Guard serves afterwards exactly if an abort may resume and it did not serve already |
| `GuardLease.BeatStep` | src/kvcr/service/guard.py:474-484 | a holder counts as beating from its first heartbeat while it holds the pool itself until the next grant or a takeover for its silence |
| `GuardLease.FailsIff` | src/kvcr/service/guard.py:867-872 | a Guard fails if and only if a hand-over fails for good, a release, abort, takeover, poll or shutdown fails, and never recovers |
| `EvictionQueue.EvictionQueue.Insert` | src/kvcr/runtime/policy_runtime.py:168-186 | a changing insert takes over its key with a fresh sequence; with nothing held by scans the heap is then at most twice the live entries |
| `EvictionQueue.EvictionQueue.Remove` | src/kvcr/runtime/policy_runtime.py:188-189 | removal answers whether the key was live and removes only it |
| `EvictionQueue.EvictionQueue.Next` | src/kvcr/runtime/policy_runtime.py:191-206 | a scan, whatever happened since it was last resumed, yields a live key that it does not exclude and has not yielded, with a smaller score, or an equal one and an earlier sequence, than everything left in the heap, or ends on an empty heap |
| `EvictionQueue.EvictionQueue.Close` | src/kvcr/runtime/policy_runtime.py:207-210 | closing restores what is still live, and with no scan left every live entry is in the heap exactly once |
| `EvictionQueue.EvictionQueue.FullScan` | src/kvcr/runtime/policy_runtime.py:191-210 | an undisturbed scan yields exactly the live keys it does not exclude, in strict (score, sequence) order, and restores the heap |
| `EvictionQueue.CompactSize` | src/kvcr/runtime/policy_runtime.py:177-185 | with nothing held, compaction leaves one entry per live key |
| `Layouts.IndicesSelect` | src/kvcr/backends/local_dram_pools.py:37-58 | indices found for a request are in range, different, aligned label by label and closed under labels |
| `Layouts.IndicesComplete` | src/kvcr/backends/local_dram_pools.py:37-58 | any such selection that exists is found, and apart from the whole layout it is the only one |
| `Layouts.SelectableIff` | src/kvcr/backends/local_dram_pools.py:37-58 | a request is answered if and only if some selection of the layout has exactly its pieces |
| `Layouts.PrepareLabelIndex` | src/kvcr/backends/local_dram_pools.py:151-157 | one pass builds the index of labels that occur once |
| `Layouts.CachedAgrees` | src/kvcr/backends/local_dram_pools.py:53-58 | the lookup through the cached index answers like the direct one for every layout and request |
| `Fills.EqualWriters` | src/kvcr/backends/local_dram.py:351-355 | slots of one label always have equally many writers |
| `Fills.AddWriters` | src/kvcr/backends/local_dram.py:351-355 | the loop counts one writer more on exactly the selected slots |
| `Fills.DropWriters` | src/kvcr/backends/local_dram.py:662-665 | the loop counts one writer less on exactly the copied slots, and fails exactly if one had none |
| `Fills.DepositChooses` | src/kvcr/backends/local_dram.py:319-349 | refused, present, waiting and started, each if and only if the layout, the labels written and the copies in flight say so; a deposit that starts copies exactly the requested slots not yet readable |
| `Fills.FetchChooses` | src/kvcr/backends/local_dram.py:455-488 | refused, present, waiting and started, each if and only if the layout, the labels written, the copies in flight and the source say so; a remote fill that starts takes exactly the requested slots that are missing and that nothing writes |
| `Fills.Residency.Deposit` | src/kvcr/backends/local_dram.py:319-361 | a deposit decides so, and starting it keeps counts equal to the copies in flight |
| `Fills.Residency.Fetch` | src/kvcr/backends/local_dram.py:455-488 | a fetch decides so, and starting its remote fill keeps counts equal to the copies in flight, one fill at a time |
| `Fills.Residency.FinishDeposit` | src/kvcr/backends/local_dram.py:655-703 | a finished deposit always had its writers; its labels become readable exactly if it counts as a success |
| `Fills.Residency.FinishRemote` | src/kvcr/backends/local_dram.py:655-703 | likewise for the remote fill, which does not count once cancelled |
| `Fills.Residency.Settle` | src/kvcr/backends/local_dram_pools.py:124-130 | writer counts are dropped only when nothing is pending or in flight |
| `Fills.Residency.Discard` | src/kvcr/backends/local_dram.py:521-546 | a fill may be discarded only while nothing of it is readable; otherwise it is cancelled |
| `Fills.Residency.ReadyIndices` | src/kvcr/backends/local_dram_pools.py:159-164 | slots are handed out if and only if the request selects from the layout and no requested label is pending, and then each label was wholly written by one successful copy |
| `PoolSafety.DrainNeverFails` | src/kvcr/backends/local_dram_pools.py:358-383 | the drain's reader-ownership errors cannot occur |
| `PoolSafety.AfterLastKeeps` | src/kvcr/backends/local_dram_pools.py:623-657 | after the last claim a residency is freed, ranked or left to its readers, as its state asks |
| `PoolRuns.StepKeeps` | src/kvcr/backends/local_dram_pools.py:289-393 | every lock-protected section of either thread keeps the pool invariant, commits undisturbed by their decision calls included |
| `PoolRuns.EveryInterleavingIsSafe` | src/kvcr/backends/local_dram_pools.py:623-657 | in every interleaving a residency that is read or claimed is its key's and none of its slots is free; active entries are exactly the residencies with readers; only idle residencies are ranked, and all of them once drained |
| `PoolRuns.SlotsPartition` | src/kvcr/backends/local_dram_pools.py:805-807 | free slots and the slots of resident keys partition the pool |
| `PoolRuns.FreesUnused` | src/kvcr/backends/local_dram_pools.py:639-652 | slots freed after the last claim have neither claims nor readers, and their residency is gone |
| `PoolRuns.EvictsUnused` | src/kvcr/backends/local_dram_pools.py:734-744 | slots of an evicted victim have neither claims nor readers, and their residency is gone |
| `PoolRuns.FreedMeansUnused` | src/kvcr/backends/local_dram_pools.py:639-744 | whichever step makes a slot free, its residency had neither claims nor readers and is gone from then on |
| `PoolRuns.GoneForever` | src/kvcr/backends/local_dram_pools.py:639-652 | a residency once gone never returns, so its slots are freed exactly once |
| `PoolRuns.FreesIff` | src/kvcr/backends/local_dram_pools.py:611-652 | a residency goes to be freed if and only if its last claim goes or its readers have been counted down without a claim left, and it is unreadable or retiring with nobody reading it |
| `PoolRuns.FoundIff` | src/kvcr/backends/local_dram_pools.py:266-287 | the progress thread finds a residency from the step that publishes it, complete and wanted, to the step that retires, discards, frees or evicts it |
| `PoolRuns.CommitIsSafeIffHarmless` | src/kvcr/backends/local_dram_pools.py:727-744 | committing selected victims keeps the invariant if and only if nobody claims or reads what leaves the table and the slots given back are exactly the slots of what leaves, once each |
| `PoolRuns.HarmlessIffUndisturbed` | src/kvcr/backends/local_dram_pools.py:727-731 | if no victim's key was filled anew meanwhile, that holds if and only if every victim is still its key's residency and unclaimed |
| `PoolExample.ReentrantClaimIsLost` | src/kvcr/backends/local_dram_pools.py:680-744 | a concrete run with two candidates: the failed spill of the second resumes a waiter that claims the first, already selected, and the claim ends on a freed slot |
| `LocalOpsSafety.StepKeeps` | src/kvcr/backends/local_dram.py:225-963 | every step of deposits, fetches and deliveries keeps their tables consistent: results within keys, copies of one operation apart, finished operations resolved and without claims |
| `LocalClaims.StepMoves` | src/kvcr/backends/local_dram.py:629-928 | the claims on a key that all tables together name change by exactly what the step does to the claim count, also when a finishing delivery leaves its claims to its copies |
| `LocalRuns.StepKeeps` | src/kvcr/backends/local_dram_pools.py:538-621 | on top of the residencies: the claim count stays the number of claims the tables name, and handles, sources and fills keep naming their key's residency |
| `LocalResults.ClaimsAreTheHolders` | src/kvcr/backends/local_dram_pools.py:605-621 | in every run the claim count of a residency is the number of public handles, deposit copies, fills, waiting or finishing operations, delivery copies and source operations that hold its key; a key without a residency is held by nobody |
| `LocalResults.OnlyReturnsCanFail` | src/kvcr/backends/local_dram_pools.py:611-621 | in every run no invalid claim, lost fill, lost source, lost delivery or failed lookup can be raised, except when a frame comes back to a delivery |
| `LocalResults.ReturnWorksIffPending` | src/kvcr/backends/local_dram.py:876-928 | coming back to a delivery works if and only if the delivery is still in the pending table |
| `LocalResults.DiscardFindsItsFill` | src/kvcr/backends/local_dram.py:521-540 | in every run a fill that is owed, or asked for by a fetch that expires, is found on its key's residency when it is discarded |
| `LocalFrames.PoliteRunsNeverFail` | src/kvcr/backends/local_dram.py:920-963 | as long as no frame turns to a delivery that another frame is still to come back to, nothing is raised at all |
| `LocalExample.ReturnFails` | src/kvcr/backends/local_dram.py:629-772 | a concrete run in which a nested frame finishes a delivery that the outer frame has collected, and taking it out of the pending table fails |
| `LocalResults.OperationsCompleteOnce` | src/kvcr/backends/local_dram.py:900-928 | in every run each deposit, fetch and delivery is pending, giving back its claims, or completed exactly once, with results for exactly its keys |
| `LocalVerdicts.StepSays` | src/kvcr/backends/local_dram.py:592-735 | one step changes the result of a key exactly if it says something about it and there was no result yet, or the step is one that overwrites: a copy given up on, or the failure of a fill the operation asked for |
| `LocalOutcomes.OutcomeIff` | src/kvcr/backends/local_dram.py:592-735 | in every run, from the steps alone: an operation has a result for a key if and only if some step said something, and it is a success if and only if the first to do so said yes and none has overwritten it |
| `LocalOutcomes.CompletionsFollow` | src/kvcr/backends/local_dram.py:900-928 | what an operation completes with is that, as of the step that completes it |
| `LocalOutcomes.DeliveriesFollow` | src/kvcr/backends/local_dram.py:876-897 | a delivery completes with success for a key if and only if a copy that carried the key for it came back with success |
| `LocalOutcomes.FetchesFollow` | src/kvcr/backends/local_dram.py:714-721 | a fetch completes with success for a key if and only if it was granted the key and no fill it had asked for failed after that |
| `LocalResults.ResultsFollow` | src/kvcr/backends/local_dram.py:876-928 | the same for every run of the operations on the residencies |
| `GrantExample.GrantedButFailed` | src/kvcr/backends/local_dram.py:714-721 | a concrete run in which a fetch is granted a block, its own fill of that block then fails, and it completes as failed while its claim stays |
| `SourceState.ReaderTable.Reserve` | src/kvcr/backends/local_dram_pools.py:261-264 | a reserved key is known but not to be found, as the pool's step says |
| `SourceState.ReaderTable.Publish` | src/kvcr/backends/local_dram_pools.py:266-287 | a key can be found from now on exactly if its residency is complete and wanted |
| `SourceState.ReaderTable.Hide` | src/kvcr/backends/local_dram_pools.py:559-562 | a key that retires or is discarded is hidden, as the pool's step says |
| `SourceState.ReaderTable.Withdraw` | src/kvcr/backends/local_dram_pools.py:629-635 | a key that leaves, alone or with other victims, leaves the index with it |
| `SourceState.ReaderTable.Acquire` | src/kvcr/backends/local_dram_pools.py:331-341 | an operation's readers are acquired all or none, as the single steps would |
| `SourceState.ReaderTable.Drain` | src/kvcr/backends/local_dram_pools.py:373-383 | the in-place count-down equals the specification and does not fail for a queued operation |
| `Allocation.SlotPools.TakeSlots` | src/kvcr/backends/local_dram_pools.py:745-751 | each label gets a slot of its pool, and each pool gives out exactly the front of its free list |
| `Allocation.SlotPools.FreeAll` | src/kvcr/backends/local_dram_pools.py:805-807 | freed slots join the end of their pools' free lists |
| `Allocation.SlotPools.Choose` | src/kvcr/backends/local_dram_pools.py:680-725 | victims are taken in order until no pool is short, each only because it has a slot of a pool that was still short, slots given back by failed spills meanwhile included; a refusal means no remaining willing candidate would help |
| `Allocation.SlotPools.Allocate` | src/kvcr/backends/local_dram_pools.py:659-752 | all or nothing: every label gets a slot of its pool, no two the same and none that stays free, and besides what failed spills gave back only the victims' slots came back; or no slot was taken; nobody is evicted in vain, it is refused only if every willing candidate that would help was picked and that was not enough or one was read meanwhile, and it waits only for a pending eviction |
| `Allocation.PlacedDistinct` | src/kvcr/backends/local_dram_pools.py:745-751 | slots taken from free lists that were fed by spills and victims are all different, and the rest stay free of repetitions |
| `Allocation.TakenDistinct` | src/kvcr/backends/local_dram_pools.py:745-751 | slots taken from free lists without repetitions are all different |
| `DiskContent.SlotsDoNotOverlap` | src/kvcr/backends/local_disk.py:810-818 | different slots are disjoint ranges within their files |
| `DiskContent.PieceSlots` | src/kvcr/backends/local_disk.py:276-286 | the loop gives each label its consecutive run of slots |
| `DiskContent.StoredUnits` | src/kvcr/backends/local_disk.py:481-487 | storing a block puts its memory, cut into units label by label, into its slots |
| `DiskContent.ContentReadsBack` | src/kvcr/backends/local_disk.py:511-532 | reading any accepted selection of a block's labels moves, label by label, exactly the bytes stored for it |
| `DiskHistory.StepKeeps` | src/kvcr/backends/local_disk.py:459-504 | reserving, writing single units, committing, rolling back, evicting and claiming keep what every resident block was committed with in its slots |
| `DiskHistory.LifeStep` | src/kvcr/backends/local_disk.py:682-754 | a block is pending from its reservation to its commit or rollback and resident from there to its eviction, with the same slots throughout |
| `DiskHistory.LaterReadsAgree` | src/kvcr/backends/local_disk.py:506-532 | through any sequence of other stores, evictions and reuse, the slots of a block that is not evicted read as when it was committed |
| `DiskHistory.UnitHolds` | src/kvcr/backends/local_disk.py:810-818 | whatever else is written, committed, evicted and reused meanwhile, each unit of a reserved block holds what was last written to it, or is untouched |
| `DiskHistory.StoredBlockReadsBack` | src/kvcr/backends/local_disk.py:506-532 | a block whose units were last written with its content while it was reserved, among any other steps, and which was then committed, is read back as it was stored, any time later and in any accepted selection of its labels |
| `DiskStore.SlotsPartition` | src/kvcr/backends/local_disk.py:682-708 | free, resident, pending and half-collected slots partition the store |
| `DiskStore.DiskTier.Reserve` | src/kvcr/backends/local_disk.py:682-708 | a reservation gets as many different slots as it needs or gives every one back; if each scan settles on another evictable block, it succeeds if and only if the key is new and free and evictable slots suffice |
| `DiskStore.DiskTier.AllocateSlot` | src/kvcr/backends/local_disk.py:710-738 | a slot comes from the free list or from one evicted block; there is none if and only if there is neither, and then nothing changes |
| `DiskStore.DiskTier.Evict` | src/kvcr/backends/local_disk.py:728-737 | an evicted block was resident and unclaimed; exactly its slots return |
| `DiskStore.DiskTier.Commit` | src/kvcr/backends/local_disk.py:740-748 | a pending store becomes resident and evictable; the summed evictable slots stay exact |
| `DiskStore.DiskTier.Rollback` | src/kvcr/backends/local_disk.py:750-754 | a failed store's slots return once |
| `DiskStore.DiskTier.Claim` | src/kvcr/backends/local_disk.py:756-770 | a claimed key is not evictable; the sum over evictable keys stays exact |
| `DiskStore.DiskTier.ReleaseClaim` | src/kvcr/backends/local_disk.py:772-781 | the last claim makes the key evictable again; the sum stays exact |
| `DiskStore.DiskTier.RetryUnscored` | src/kvcr/backends/local_disk.py:806-808 | unscored keys become evictable exactly if they now have a score; the sum stays exact |
| `Lifecycles.CopyEndsOnce` | src/kvcr/backends/local_disk.py:96-148 | every run of a native copy hands exactly one outcome to its operation, reports nothing, uncertainty, or uncertainty and quiescence, and never succeeds once uncertain |
| `Lifecycles.CopySucceedsIff` | src/kvcr/backends/local_disk.py:96-148 | in every run, from what the polls see: a copy completes with success if and only if its transfer was submitted in time and was first seen to end with success, with no poll late |
| `Lifecycles.CopyIsGivenUpIff` | src/kvcr/backends/local_dram.py:97-156 | in every run a copy is done if and only if it was never submitted or a poll saw its transfer end, and is reported uncertain if and only if a poll gave up on a late or ill-submitted one before that |
| `Lifecycles.HandleIsKeptWhileRunning` | src/kvcr/backends/local_dram.py:97-156 | in every run a native handle is held, the same one, until a poll sees the transfer end, and the copy is done exactly then |
| `Lifecycles.PullEndsOnce` | src/kvcr/backends/remote_ops.py:199-334 | every run of a remote pull, under all messages and clocks, hands exactly one outcome to its operation, reports nothing, uncertainty, or uncertainty and quiescence, and never succeeds once cancelled |
| `Lifecycles.PullSucceedsIff` | src/kvcr/backends/remote_ops.py:130-253 | in every run, from notifications, refusals and clocks alone: a pull completes with success if and only if its request was sent in time, no poll was late or saw a failure, an end or a refusal until one found some notification terminal, none failed and valid indices, and for a local fill that poll was in time too |
| `Lifecycles.PullIsCancelledIff` | src/kvcr/backends/remote_ops.py:299-334 | in every run a pull is cancelled if and only if a poll saw a failure, or was late with no retry due, while it waited; the local fill of a cancelled pull is discarded, once |
| `Lifecycles.PullIsGivenUpIff` | src/kvcr/backends/remote_ops.py:295-312 | in every run a pull is reported uncertain if and only if it was cancelled and then late again with nothing heard, and quiesced if and only if word of its end came after that |
| `Lifecycles.ProbePoll` | src/kvcr/backends/remote_ops.py:299-339 | a poll probes if and only if it cancels, gives up, or has not been able to probe since cancelling, and can send |
| `Lifecycles.PullStep` | src/kvcr/backends/remote_ops.py:199-334 | which reports and completions one poll of a pull produces, in each state it can leave it in |
| `Lifecycles.PullAsksAtMostTwice` | src/kvcr/backends/remote_ops.py:130-198 | however many retries are invited, a pull sends at most two requests |
| `JoinedCompletions.CompletesOnce` | src/kvcr/runtime/core.py:1282-1298 | a joined operation completes with its last report, once, on exactly its keys |
| `JoinedCompletions.DiskCovers` | src/kvcr/backends/local_disk.py:506-577 | the disk's reports, rejected keys first and then the others or all of them again, leave out no key, and only the last of them completes the set |
| `JoinedCompletions.DeliveryCompletesOnce` | src/kvcr/runtime/core.py:586-624 | however a delivery is split, whatever the disk rejects and in whatever order the reports come, it completes exactly once, with the last report, and each key has the result its backend gave last |
| `JoinedCompletions.CompletionDesk.Reject` | src/kvcr/backends/local_disk.py:534-539 | the disk joins a completion that nobody has joined and reports what it rejects; served by the disk alone, this opens the delivery and makes its first report as the specification does |
| `JoinedCompletions.CompletionDesk.Complete` | src/kvcr/runtime/core.py:1282-1298 | the in-place completion is the specification's report |
| `DeliveryResults.LocalReportsOnce` | src/kvcr/backends/local_dram.py:920-928 | in every run of the local operations, a delivery reports nothing while it is pending and once, on its keys, when it is over |
| `DeliveryResults.LocalReportFollows` | src/kvcr/backends/local_dram.py:876-928 | and that report is a success for exactly the keys that a copy carried for it and came back with |
| `DeliveryResults.DiskTellsAll` | src/kvcr/backends/local_disk.py:534-640 | what the disk's transfer hands over, uncertain or not, is one report on the keys it moved, a success if and only if the transfer succeeded in time |
| `DeliveryResults.DeliveryEndsOnce` | src/kvcr/runtime/core.py:586-624 | with the reports taken from the runs of the three backends themselves: once they are done with a delivery it has completed exactly once, on exactly its keys, with success for exactly those that a copy brought, that the disk neither rejected nor was late with, or that a successful pull wrote |
| `PullAlignment.AcquireReaders` | src/kvcr/backends/local_dram_pools.py:289-343 | exactly the keys whose residency has the layout asked for and a selection of slots with the destination's labels are claimed, each with such a selection, aligned to its own destinations; the request goes to the caller exactly if something unservable may not be left out |
| `PullAlignment.SelectsIffServes` | src/kvcr/backends/local_dram_pools.py:289-343 | references are selected if and only if the layouts agree and a selection exists, and they are one |
| `PullAlignment.PullIsAligned` | src/kvcr/backends/remote_fw_dram.py:896-943 | after a successful write every destination of a completed key holds that key's piece of that label, whichever keys were left out |
| `PullAlignment.ReportIsAccepted` | src/kvcr/backends/remote_ops.py:608-622 | the indices a source reports always pass the target's check |
| `PullAlignment.PostedOnlyOnItsRoute` | src/kvcr/backends/remote_ops.py:425-436 | an accepted write is posted exactly if its peer was never re-routed in between |
| `FrameworkPins.GatheredIsRetained` | src/kvcr/backends/remote_sources.py:166-245 | the framework memory gathered for a write lies under the pins computed for the keys it retains |
| `FrameworkPins.StepKeeps` | src/kvcr/backends/remote_sources.py:144-277 | installing, acquiring, waiting, submitting, returning and offering pins keep the pin invariant |
| `FrameworkPins.PinsOutliveTheirReaders` | src/kvcr/backends/remote_sources.py:719-744 | in every run, from the moment a write is given its descriptors until it returns or is given up on, the pin of every piece of framework memory it reads stays installed and is not once offered back |
| `FrameworkPins.InstalledPinsComeBackOnce` | src/kvcr/backends/remote_sources.py:740-744 | every installation of a pin ends in one accepted release, or the pin is still there |
| `FrameworkPins.NothingRefersToReleasing` | src/kvcr/backends/remote_sources.py:728-739 | no block ever refers to a pin whose release has started if and only if the framework never hands such a pin out anew for a key without one |
| `FrameworkPins.MemoryStep` | src/kvcr/backends/remote_sources.py:634-650 | a block's framework memory is the first installed for it, until its pin is offered back |
| `FrameworkPins.WriteStep` | src/kvcr/backends/remote_sources.py:166-245 | a write is given exactly the chosen pieces of the framework memory of the keys that local DRAM does not serve, and keeps them until it returns |
| `FrameworkPins.WaitingKeepsItsPins` | src/kvcr/backends/remote_sources.py:196-245 | in every run, while an operation waits for missing pieces, the framework memory of every key it still wants from there stays pinned and is not offered back |
| `FrameworkPins.PinTable.Release` | src/kvcr/backends/remote_sources.py:719-744 | the release loop keeps the invariant, leaves held and unnamed pins alone, gives every other named pin back if the framework agrees once and else marks it, and no block refers to it then |
| `PreparedIndices.BuildOffsets` | src/kvcr/runtime/progress.py:413-420 | one pass computes the prefix-sum offset of every region of a namespace |
| `PreparedIndices.EntriesOrder` | src/kvcr/runtime/progress.py:406-420 | the regions of one memory type are laid out as registered, the framework's before KVCR's own |
| `PreparedIndices.ResolvesIff` | src/kvcr/runtime/progress.py:60-89 | a reference resolves to a region if and only if it is the owner's, the region is the one its label is about, by name, by its pool's wildcard or by its pool, and its element lies in it |
| `PreparedIndices.IndicesAreApart` | src/kvcr/runtime/progress.py:456-491 | each resolved reference gets the number of elements laid out before it, within the list; two get the same index if and only if they are to the same element of the same region |
| `PreparedIndices.CachedIndices` | src/kvcr/runtime/progress.py:468-491 | resolving with the cache equals resolving each reference on its own as its owner's, and is refused besides exactly if some label's first use is not the owner's; the indices returned are so placed and so apart |
| `PreparedIndices.Prepare` | src/kvcr/runtime/progress.py:456-491 | the memory type of the first reference decides the list, and the indices are so placed in it and so apart |
| `PreparedIndices.Validate` | src/kvcr/runtime/core.py:1131-1152 | the check of incoming references accepts exactly non-empty lists that resolve for their owner, in configured pools, with the pool's block size and no part named twice |
| `PreparedIndices.AdmittedResolveAlike` | src/kvcr/runtime/core.py:1131-1152 | for the references of blocks that passed the check, caching changes nothing, and a list is refused exactly if its memory types differ |
| `PreparedIndices.ResolveAlikeIffOwned` | src/kvcr/runtime/progress.py:456-491 | cached and uncached resolution agree if and only if the agent owns every reference or the list is refused anyway |

## Left out

- Native libraries, sockets, shared-memory mapping, file opening and locking, memory ordering below
  whole loads and stores, u64 cursor overflow.
- Liveness: deadlines are inputs, and nothing is said about when an operation ends.
- Policy callbacks, inventory, telemetry, tracing, hints, configuration checks and the control
  encoding: they observe or configure the state modelled here and do not change it.
- The order of capacity waiters and the choice a scan of disk eviction candidates settles on, which
  is an input of `DiskStore.DiskTier.Reserve`; and the re-scoring of unscored keys in the middle of
  an allocation.
- The caller-side preparation of a source write that waits for pieces or reads framework memory; its
  pins are in `FrameworkPins`, its claims in `LocalOps`, and the selection of references is that of
  `PullAlignment`.
- Pools, Guards, local operations, pins and the primary of `CrashConsistency` are modelled on values,
  because they are stepped by several threads or frames or stopped at any point; update in place is
  modelled in the classes `ReaderTable`, `SlotPools`, `EvictionQueue`, `Residency`, `DiskTier`,
  `RecoveryJournal`, `PoolFile`, `SourceTable`, `TargetPull`, `CompletionDesk` and `PinTable`.
- GuardLife.StepKeeps: takes a primary that was overtaken for its silence to have stopped publishing;
  what it may still write to the ring is dropped by the next reset.
- GuardLease.LeasesAreSafe: takes a fenced but not yet dead holder to have stopped, as the code does.
- LocalResults.OnlyReturnsCanFail: takes evictions to leave their victims alone, the condition of
  `PoolRuns.CommitIsSafeIffHarmless`.
- Nothing was executed; the claims are about the model.

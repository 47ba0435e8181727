# Paged KV serving, verified

A Dafny model of the part of `qwen3_runtime` that decides which tokens a user gets back: the paged
KV pool with its prefix cache and reference counts, the scheduler that preempts, chunks and
speculates on top of it, the host memory behind it, the conversations that are parked and resumed
on it, and the split decode kernel that reads it.

The network is opaque. `Kv.Net` gives the cache entry of a position from the entries of all earlier
positions and its token, and gives the next token from the entries of the whole context. Nothing
else is known about either, so every theorem holds for every network. A slot of the pool is right
when it holds the entry that recomputing the prefix from token 0 would give. The central theorem
is that this is true of every slot a request has computed, in every reachable state, and that the
engine therefore reports exactly what the runner that keeps no cache reports.

How the files fit together:

- `Kv`, `BlockPool`, `Requests`, `Ownership`, `OwnershipSteps`: pages, the pool, one request, and what
  each operation on one request leaves of everybody else's blocks.
- `SpecDecode`, `Forced`, `Ngram`, `Drafts`, `DraftRuns`, `SampledVerify`: drafting and verification.
- `System`, `SystemInv`, `SchedulePlan`, `ScheduleInv`, `Engine`, `Runs`, `Outcomes`, `Liveness`,
  `Steady`, `Batch`, `Reclaim`, `Reuse`, `Invalidation`, `StaleParent`, `Reset`: the whole engine over runs.
- `BlockManager`, `Scheduler`, `EngineLoop`, `HostStore`, `BlockStore`, `OffloadManager`, `Sessions`,
  `Rollout`: the same as objects that are updated in place. Their methods are proved equal to the
  functions above, so the theorems about runs are theorems about them.
- `Transfer`, `Restore`, `PlainRestore`, `Offload`, `GroupReclaim`, `OffloadRuns`, `TierTokens`,
  `AsyncOffload`, `BlockOffload`, `BlockReclaim`, `BlockRuns`, `BlockTokens`, `Geometry`: KV in host
  memory, for the snapshot, the asynchronous and the block backend.
- `Turns`: parked and running conversations, and what each operation does to them.
- `SplitK`: decode attention over exact reals.

## Model

| member | source | states |
|---|---|---|
| Runs.RunRefines | qwen3_runtime/engine/engine.py:225-338 | Over any run of admissions, steps with chunked prefill, sharing, eviction, preemption and speculation, pauses, resumes, finishes, aborts and weight updates, the paged engine reports event for event what recomputing every prefix from token 0 reports, both end in the same host state, and no operation ever finds the pool corrupt |
| Runs.BootInv | qwen3_runtime/engine/block_manager.py:26-46 | A new engine is sound, so the theorems about runs start somewhere |
| Outcomes.StepAnswers | qwen3_runtime/engine/engine.py:227-338 | After one step every history has grown by exactly what the step reported for it, and every request still heads for the history that decoding it alone would give |
| Outcomes.RunGrows | qwen3_runtime/engine/scheduler.py:66-87 | Whatever the run does, a committed token is never changed or lost |
| Outcomes.TurnIsGreedy | qwen3_runtime/engine/engine.py:227-305 | Once a request has stopped, what was reported for it is what decoding it alone, one token at a time, would add, whoever else came, was preempted or went |
| EngineLoop.Engine.Step | qwen3_runtime/engine/engine.py:216-338 | The step as updates in place: schedule, speculative part, ordinary part. It ends in the state of the paged step and of the reference step, emits what both emit, and leaves the system sound |
| Schedulers.Scheduler.ScheduleBatch | qwen3_runtime/engine/scheduler.py:47-64 | `schedule` over the queues it updates in place returns the batch of the specification, and neither the allocator error nor the could-not-admit error can be raised |
| ScheduleInv.ScheduleInvariant | qwen3_runtime/engine/scheduler.py:47-64 | In every configuration scheduling never runs out of blocks half way and never gives up after preempting; a batch is nonempty and covered by blocks; an empty answer means that nobody is live |
| Liveness.StepIsCloser | qwen3_runtime/engine/scheduler.py:47-64 | With prefix caching, speculation and held sessions off, while there is work a step neither fails nor comes back empty, and a measure of outputs left, the head's uncomputed tokens and the others' slack strictly drops |
| Liveness.ScheduleAdvances | qwen3_runtime/engine/scheduler.py:227-306 | In the same setting scheduling always returns a batch; the head of the line is never preempted, and either is in the batch or nobody else has gained a block |
| Liveness.DrainCompletes | qwen3_runtime/engine/engine.py:359-366 | In the same setting repeated steps finish everybody, each with exactly the history that decoding it alone gives |
| SystemInv.WriteExclusive | qwen3_runtime/engine/block_manager.py:85-100 | A block that covers a position not yet computed has one reference, is once in its own table, in no other, and not in the cache |
| SystemInv.RefcountConservation | qwen3_runtime/engine/block_manager.py:282-311 | Every count is the number of table entries plus the cache's own reference, and the free list is exactly the blocks with none, without repetition |
| OwnershipSteps.CowNeverFires | qwen3_runtime/engine/block_manager.py:272-280 | Copy-on-write copies nothing and changes nothing on blocks that are the request's own |
| OwnershipSteps.AllocateStep | qwen3_runtime/engine/block_manager.py:85-100 | Allocation succeeds exactly when free and idle blocks suffice; it then only appends fresh blocks, covers the span, copies nothing and leaves everybody else's KV alone |
| OwnershipSteps.MaxAllocatableStep | qwen3_runtime/engine/block_manager.py:74-83 | The count returned is the largest within the limit that held, free and evictable blocks can cover, and the allocation that follows it fits |
| Reclaim.ReclaimableGroup | qwen3_runtime/engine/block_manager.py:107-112 | The predicted count is exactly the growth of free plus evictable blocks when the group's tables are released one by one, under any sharing |
| BlockPool.ChainHashInjective | qwen3_runtime/engine/prefix_cache.py:18-23 | With an injective hash, two chains agree after n blocks exactly when the tokens they cover agree |
| Batch.SlotsDistinct | qwen3_runtime/engine/batch.py:45-60 | No two rows of a batch are written to the same slot |
| Batch.PackPaged | qwen3_runtime/engine/batch.py:45-60 | The packed rows are each request's scheduled tokens with their positions and slots, end to end, every one of them counted as scheduled, and exactly the requests completed by the batch are sampled |
| Batch.PackedSlotsDistinct | qwen3_runtime/engine/block_manager.py:264-270 | The slots of the packed batch are all different |
| Batch.SampledRowIsLast | qwen3_runtime/engine/batch.py:31-42 | A sampled row is the last position of its request's history |
| Batch.RunOrder | qwen3_runtime/engine/model_runner.py:107-132 | Any two orders of the same requests leave the same pool |
| Batch.SplitIsPacked | qwen3_runtime/engine/model_runner.py:118-127 | Running prefills and decodes apart leaves the same pool as running them packed, and every request samples the same token |
| SpecDecode.VerifyGreedy | qwen3_runtime/spec_decode.py:146-169 | The loop emits target choices while they agree with the draft, then the first disagreement or one bonus token |
| SpecDecode.VerifiedMeaning | qwen3_runtime/spec_decode.py:146-169 | What is emitted is a nonempty prefix of the target's choices, all but its last token were drafted, and a short one ends in a disagreement |
| SpecDecode.TrimEmitted | qwen3_runtime/spec_decode.py:246-276 | The loop keeps what fits the output budget, up to and including the first stop token; of recorded tokens it keeps all that fit, stop tokens or not |
| SpecDecode.BurstIsGreedy | qwen3_runtime/spec_decode.py:279-317 | A burst is never empty, is what greedy decoding appends, and every token but its last was a draft, so the KV that is kept is right |
| SpecDecode.SpeculationPreservesMeaning | qwen3_runtime/spec_decode.py:279-317 | For a request that is not replaying recorded tokens, whatever is drafted at each step, the run ends with the same tokens and for the same reason as one-token-at-a-time greedy decoding with the same budget, stop tokens, end token and minimum |
| SpecDecode.PlainRunMeaning | qwen3_runtime/engine/scheduler.py:95-122 | The plain run is the greedy continuation, cut at the first token that finishes the request and not before |
| Forced.ScriptIsAPolicy | qwen3_runtime/sampling.py:301-332 | A teacher-forced request that takes one token a step is a way of picking tokens that touches no cache entry, so what holds for every network holds for it |
| Forced.BurstIsKept | qwen3_runtime/spec_decode.py:94-102 | A step with recorded tokens attached emits exactly what trimming keeps of them, without a bonus token |
| Forced.ForcedBurstsExact | qwen3_runtime/spec_decode.py:264-286 | Bursts of up to k recorded tokens replay what one recorded token a step replays, whichever steps after the first output attach them, exactly when k is at most one, the first output already ends the request, or no recorded token that a burst could pass over would end it |
| Ngram.ProposeNgram | qwen3_runtime/reference/propose_ngram.py:5-47 | The capped Knuth-Morris-Pratt loop over the reversed history proposes the continuation of the longest repeated suffix in the window at its earliest start |
| Ngram.NgramIndex.Propose | qwen3_runtime/spec_decode.py:51-85 | The first-occurrence index proposes the same tokens, for every history, window, draft length and model length |
| Ngram.NgramIndex.Extend | qwen3_runtime/spec_decode.py:41-49 | Extending token by token keeps the table of every window length equal to the earliest starts |
| Ngram.ProposalBounds | qwen3_runtime/spec_decode.py:57-85 | A proposal is a stretch of the history itself, at most k long, within the model length |
| Drafts.SyncedExact | qwen3_runtime/spec_decode.py:103-114 | Deciding by length gives the index of this history exactly when the index is rebuilt anyway or was built from a prefix of it |
| Drafts.DraftSource.ProposeDrafts | qwen3_runtime/spec_decode.py:94-114 | The consultation, in place: the next recorded tokens if there are any recorded, else the proposal of the index, kept, extended or rebuilt, whatever it was built from |
| DraftRuns.IndexesStayFresh | qwen3_runtime/engine/scheduler.py:124-156 | Over any run, kept and extended indexes propose at every consultation what an index built from that moment's history would: the run is the run with fresh proposals, and every index is a prefix of its request's committed history |
| SampledVerify.VerifySampled | qwen3_runtime/spec_decode.py:172-223 | The accept, recover and bonus loop gives the verdict of the specification and reports the target's own probability of every token |
| SampledVerify.BurstsTotal | qwen3_runtime/spec_decode.py:172-223 | The bursts that can be emitted carry total probability one |
| SampledVerify.SpeculationKeepsDistribution | qwen3_runtime/spec_decode.py:172-223 | Whatever is drafted and however bursts fall, any continuation has exactly its autoregressive probability |
| Runs.InvalidateExact | qwen3_runtime/engine/engine.py:368-374 | Dropping all KV leaves the engine sound exactly when, prefix caching being on, the chain parent of every running request is still the root |
| Resets.ResetExact | qwen3_runtime/engine/engine.py:368-374 | From any sound state and with any batch limits: every later run without another such reset leaves every cached copy right, under any new weights, exactly when that condition holds; and where it does not, under some weights, finishing everybody else and stepping the offender leaves a wrong copy |
| Invalidation.UnsafeCorrupts | qwen3_runtime/engine/block_manager.py:245-262 | A request that starts to publish under a parent other than the root puts a wrong copy in the cache as soon as its first block is complete, whatever the pool holds |
| StaleParent.BareInvalidationSpoilsCache | qwen3_runtime/engine/engine.py:368-374 | A run of four operations from a new engine after which the cache is wrong |
| StaleParent.BareInvalidationLies | qwen3_runtime/engine/engine.py:368-374 | A run of eight operations in which the engine reports a token that recomputing from token 0 does not give |
| Transfer.ExportBlocks | qwen3_runtime/kv/paged.py:103-211 | The chunked copy to the host, with its zeroed tail, is the table's pages in order |
| Transfer.ImportMissing | qwen3_runtime/kv/paged.py:213-297 | The chunked copies of the missing ranges write exactly the missing pages and never a device hit |
| PlainRestore.PlainTableKeeps | qwen3_runtime/engine/session_offload.py:353-395 | Attach up to the saved prefix, reclaim, allocate: either a table whose attached blocks are that prefix and whose other blocks nobody shares, or everything released again |
| Restore.RebuildTableKeeps | qwen3_runtime/engine/session_offload.py:397-495 | Pins first, then reclaim and allocation: either a table with every hit in its place and every hole filled by an unshared block, or everything released again |
| Restore.AssembledContents | qwen3_runtime/engine/session_offload.py:397-495 | With hits kept and holes imported the table holds the saved prefix, and only unshared blocks were written |
| PlainRestore.PlainExact | qwen3_runtime/engine/session_offload.py:353-395 | The plain restore succeeds exactly when no copy fails and the free and idle blocks, less the shared ones that were idle, cover what the walk did not share |
| Restore.RebuildExact | qwen3_runtime/engine/session_offload.py:397-495 | The mixed one exactly when they cover the holes, less the pinned hits that were idle |
| Restore.RolledBackCounts | qwen3_runtime/engine/session_offload.py:386-395 | After a refused restore every count is as before, except that cache-only blocks may have been evicted and are free |
| Offload.SaveInv | qwen3_runtime/engine/session_offload.py:97-175 | A save of a paused request succeeds exactly when it is parked already, or no copy fails and the budget could hold it; it then leaves a snapshot of everything computed under the present weights, and otherwise the request as it was; either way the system, the books and the host budget stay sound |
| Offload.EarlySaveInv | qwen3_runtime/engine/session_offload.py:177-191 | An early save succeeds exactly when there is room beside every snapshot and no copy fails; it evicts nothing and touches nobody else |
| Offload.RestoreSnapInv | qwen3_runtime/engine/session_offload.py:327-495 | Plain or mixed, a restore succeeds exactly when no copy fails and the free and idle blocks that it does not pin cover what it does not share, with one to spare after a full last block; it then brings back every saved position entry by entry, and otherwise leaves the request tableless on the host with its snapshot and nobody else touched |
| Offload.ResumeTieredInv | qwen3_runtime/engine/engine.py:94-137 | A resume with restore, commit and rollback keeps every parked session described by a good snapshot and the bytes balanced |
| OffloadRuns.TierRunInv | qwen3_runtime/engine/session_offload.py:41-608 | Every run of admissions, steps, resumes, saves, early saves, evictions, group reclaims, finishes, aborts and resets keeps all of it |
| OffloadRuns.TierMeaning | qwen3_runtime/engine/session_offload.py:514-603 | In every reachable state committed bytes are used, wasted, stored or pending, what is stored fits the budget, and a session is on the host exactly when a snapshot of its whole history is registered |
| OffloadRuns.RoundTrip | qwen3_runtime/engine/session_offload.py:97-512 | Save, then anything at all, then restore: while the snapshot is registered it is accepted, the restore succeeds exactly when there is room and no copy fails, and the new table gathers exactly the entries the old one gathered, for every computed position |
| Groups.ReclaimGroupInv | qwen3_runtime/engine/session_offload.py:248-325 | A group reclaim ends with nothing reserved; exactly the committed ids have moved to the host, they are a prefix of the group, and all of it unless the goal was met or a member failed; no history changes and the budget holds throughout |
| TierTokens.TierTurnIsGreedy | qwen3_runtime/engine/engine.py:307-338 | With host memory behind it, a turn still reports what decoding it alone would add |
| TierTokens.TierStepsAgree | qwen3_runtime/engine/engine.py:307-338 | Every step of a run with host memory is a step of the runner that recomputes from token 0 |
| TierTokens.ParkedTurnIsGreedy | qwen3_runtime/engine/engine.py:94-137 | A turn resumed after a save, a group reclaim, reuse of its blocks and a restore ends with the parked history, the suffix and what greedy decoding from there gives |
| AsyncOffload.AsyncRunInv | qwen3_runtime/engine/async_offload.py:91-230 | The same for runs in which a save is copied chunk by chunk between any other operations, falls back to a plain save, or cannot be launched |
| AsyncOffload.WaitCommits | qwen3_runtime/engine/async_offload.py:149-207 | A copy that is waited for commits what the request's table holds: in no reachable state is a complete copy stale |
| AsyncOffload.SourceIsStable | qwen3_runtime/engine/async_offload.py:111-147 | While a copy is pending its source blocks are referenced, not free, and hold what is to be saved, on every path through resume, remove, abort and reset |
| TierTokens.AsyncTurnIsGreedy | qwen3_runtime/engine/async_offload.py:111-200 | Beside copies in flight a turn still reports what decoding it alone would add |
| BlockRuns.RunInv | qwen3_runtime/engine/block_offload.py:98-362 | Every run with the block backend keeps its manifests, its shared host blocks, its ledger and the engine sound |
| BlockRuns.BlocksMeaning | qwen3_runtime/engine/block_offload.py:318-406 | In every reachable state committed bytes are used, wasted or still stored, the store is within its capacity, and a session on the host has a manifest of its whole history |
| BlockRuns.BlockRoundTrip | qwen3_runtime/engine/block_offload.py:125-310 | Save, then anything at all, then restore: whatever part is still covered by device and host blocks comes back exactly when no copy fails and there is room, and gathers exactly what was saved for it |
| BlockReclaim.ReclaimGroupInv | qwen3_runtime/engine/block_offload.py:98-201 | The group reclaim of the block backend: exactly the committed ids have moved, and the ledger balances whatever failed |
| BlockTokens.BlockTurnIsGreedy | qwen3_runtime/engine/block_offload.py:203-336 | With the block backend a turn still reports what decoding it alone would add |
| BlockTokens.ParkedTurnIsGreedy | qwen3_runtime/engine/block_offload.py:203-316 | So does a turn resumed through a partial restore |
| HostStore.CpuKVStore.Reserve | qwen3_runtime/kv/cpu_store.py:100-126 | Room for a whole snapshot exactly when reserved plus committed plus the new bytes fit, else nothing changes |
| HostStore.CpuKVStore.Commit | qwen3_runtime/kv/cpu_store.py:128-146 | The bytes move from reserved to committed; a second commit, or one under a stored id, is refused |
| HostStore.CpuKVStore.EvictOldest | qwen3_runtime/kv/cpu_store.py:171-176 | The least recently touched unprotected snapshot goes, and only it |
| HostStore.CpuKVStore.InvalidateAll | qwen3_runtime/kv/cpu_store.py:178-185 | Every snapshot goes, every reservation that is found by its id is aborted, and what stays reserved is the bytes of the others |
| HostStore.ListedExact | qwen3_runtime/kv/cpu_store.py:100-156 | After any calls, an open reservation is found by its id exactly as long as no other one under that id has been made, committed or aborted since |
| HostStore.SweepExact | qwen3_runtime/kv/cpu_store.py:178-185 | After any calls, the sweep gives all reserved room back exactly when that is so for every open reservation that asked for room |
| HostStore.OneAtATimeSweeps | qwen3_runtime/kv/cpu_store.py:100-185 | Whoever reserves an id only while none is open under it never loses room |
| HostStore.ReuseLosesRoom | qwen3_runtime/kv/cpu_store.py:100-185 | Reserving it once more while one with room is open loses that room at the next sweep |
| BlockStores.BlockStore.Reserve | qwen3_runtime/kv/block_store.py:145-212 | Succeeds exactly when its pre-check passes, else nothing changes; it then pins every key, evicts exactly the fewest least recently used idle blocks, leaves all others undisturbed and stays within the budget |
| BlockStores.EvictionIsMinimal | qwen3_runtime/kv/block_store.py:154-172 | What it evicts is the shortfall and not one block more |
| BlockStores.BlockStore.ResolveMeaning | qwen3_runtime/kv/block_store.py:83-89 | A handle resolves only to the slot it was issued for, still under its key, and once ready to the contents committed under it |
| BlockStores.BlockStore.Close | qwen3_runtime/kv/block_store.py:39-51 | Closing a lease gives back its pins once, and fails exactly when one of its blocks is still being written under another lease, keeping the pins after that one; committed blocks keep everything but their pins |
| BlockStores.BlockStore.Runs | qwen3_runtime/kv/block_store.py:112-127 | The runs are the keys in order, each within one slab at consecutive offsets and within the limit |
| BlockStores.RunsAreViewable | qwen3_runtime/kv/block_store.py:98-127 | A run's own handles are always accepted by `view` |
| BlockStores.BlockStore.InvalidateAll | qwen3_runtime/kv/block_store.py:221-235 | Every handle of the epoch is dead, and slabs that somebody still refers to keep counting against the budget |
| OffloadManagers.SessionOffload.Save | qwen3_runtime/engine/session_offload.py:97-175 | The save as it happens, reservation, eviction of old snapshots, copy, commit, release, ends in the state the run theorems are about, with the store's totals those of the registered snapshots and nothing reserved |
| OffloadManagers.SessionOffload.ReclaimGroup | qwen3_runtime/engine/session_offload.py:248-325 | The same for a group, whose reservations are all made first and closed whatever happens |
| OffloadManagers.SessionOffload.Resume | qwen3_runtime/engine/session_offload.py:327-539 | The same for a resume with its restore, with the reason of every refusal |
| OffloadManagers.SessionOffload.Step | qwen3_runtime/engine/engine.py:307-338 | The step of an engine with host memory: a paged step, and a restore that proves useful is counted |
| Sessions.SessionCache.ReserveClaim | qwen3_runtime/rollout/session.py:117-137 | Grants the longest strict prefix among unclaimed sessions, the first of them, or nothing when there is none |
| Sessions.SessionCache.CommitClaim | qwen3_runtime/rollout/session.py:139-148 | The claimed session leaves the books, once, and the tokens reused and prefilled add up |
| Sessions.SessionCache.Park | qwen3_runtime/rollout/session.py:171-177 | The session is registered as the newest and the least recently parked unclaimed ones retire, no more than must, until both bounds hold |
| Sessions.SessionCache.FinishExact | qwen3_runtime/rollout/session.py:192-209 | Retires a session exactly when one and only one holds this history and it is unclaimed |
| Rollout.SessionRollout.Admit | qwen3_runtime/rollout/execution.py:140-207 | An admitted turn's request holds exactly the submitted history, its KV as it stood or exactly as it was saved; a deferred turn leaves every history, claim and queue as it was though blocks may have moved; only the best match can be given up |
| Rollout.SessionRollout.OffloadOldest | qwen3_runtime/rollout/execution.py:275-309 | Only parked sessions that hold blocks are moved, and nothing of them but their KV |
| Rollout.CandidatesMeaning | qwen3_runtime/rollout/execution.py:286-293 | The candidates are exactly the unclaimed parked sessions with blocks, least recently parked first |
| Rollout.SessionRollout.PickGroup | qwen3_runtime/rollout/execution.py:296-303 | The group is the shortest prefix of at most eight that is predicted to free enough |
| Rollout.SessionRollout.EvictForWatermark | qwen3_runtime/rollout/execution.py:311-359 | Ends with enough free blocks or with no session that holds any, every history still matchable |
| Rollout.SessionRollout.RunStep | qwen3_runtime/rollout/driver.py:223-334 | After every step each parked session is on the books under exactly its request's tokens, and each turn in flight is what was submitted plus what was reported; a failed step finishes everybody |
| Rollout.SessionRollout.FinishSession | qwen3_runtime/rollout/execution.py:365-378 | Finishes the one session with this history and no other, or nothing |
| Turns.ResumedTurn | qwen3_runtime/engine/engine.py:94-137 | A granted resume puts exactly the suffix onto the history, and the KV is the table it had or the snapshot entry by entry |
| Turns.RefusedTurns | qwen3_runtime/engine/session_offload.py:532-539 | A refused resume has changed no session and nothing of a running request |
| Reuse.ReuseIsExact | qwen3_runtime/engine/scheduler.py:168-215 | A continued session answers, for every network, like a cold start on the whole conversation exactly when its own minimum length acts as the new one would |
| SplitK.SplitKernel | qwen3_runtime/kernels/triton_decode.py:281-444 | The tile loop of one split summarises exactly that split's rows, none if it is empty |
| SplitK.Combine | qwen3_runtime/kernels/triton_decode.py:448-501 | Merging the partials by their log-sum-exps gives the attention over all rows |
| SplitK.DecodeAttention | qwen3_runtime/kernels/triton_decode.py:617-717 | For every length, split count, tile width and block table, split and merge give the softmax-weighted sum of the gathered rows |
| SplitK.NaiveKernel | qwen3_runtime/kernels/triton_decode.py:172-277 | So does the page-by-page baseline |
| SplitK.GatherReference | qwen3_runtime/kernels/triton_decode.py:136-168 | The oracle's gather gives those rows |
| SplitK.AttentionIsSoftmaxSum | qwen3_runtime/kernels/triton_decode.py:136-168 | Normalising each weight first gives the same sum |
| SplitK.PickedSplitsAreUsed | qwen3_runtime/kernels/triton_decode.py:122-133 | Whatever the shape, the picker never asks for a split with nothing to do |

## Findings

Five properties one would expect of the code fail. Each has its input and its exact condition.

- Dropping all KV under running work (`invalidate_all_kv`, qwen3_runtime/engine/engine.py:368-374).
  `reset_kv_state` (qwen3_runtime/engine/request.py:121-131) does not reset the chain parent, so a
  running request that has published a block republishes its first block under the wrong hash.
  `Resets.ResetExact`: the cache stays right in every later run if and only if no running request has
  a parent other than the root while prefix caching is on; otherwise finishing the other requests
  and stepping this one is enough to spoil it. `StaleParent.BareInvalidationLies` is a run of
  eight operations that ends in a wrong token. Parking everybody at once, as sleep does
  (qwen3_runtime/rollout/lifecycle.py:213-240), always makes it harmless (`Runs.RestartInv`); a weight
  update parks only after writing the weights (qwen3_runtime/engine/engine.py:415-427), so one that
  fails half way is the bare reset.
- The minimum output length is not among the parameters a resume replaces
  (qwen3_runtime/engine/scheduler.py:168-215). `Reuse.ReuseIsExact`: a continued session answers
  like a cold start for every network if and only if the session's own minimum acts as the new one
  would (`SameMinimum`).
- Replaying recorded tokens under speculation. A burst is never cut at a stop token
  (qwen3_runtime/spec_decode.py:264-269), while one token a step stops there
  (qwen3_runtime/engine/scheduler.py:108-122). The first output is always sampled alone, because
  drafts are attached only to a completed prefill with one token uncomputed
  (qwen3_runtime/engine/scheduler.py:124-129). `Forced.ForcedBurstsExact`: the two agree for every
  way of attaching drafts if and only if at most one is attached a step, or the first output ends the
  request, or no later recorded token before the last that fits would (`NothingToPassOver`); so it
  always is with `ignore_eos`.
- `CpuKVStore.invalidate_all` aborts the reservations it finds by id (qwen3_runtime/kv/cpu_store.py:178-185),
  and both a second reservation under an id and the end of either of the two hide the other one.
  `HostStore.SweepExact`: everything is given back if and only if, for every open reservation that
  asked for room, no other under its id has been made, committed or aborted since it was made.
  `HostStore.ShadowedReservation` (reserve twice, sweep) leaves four bytes;
  `HostStore.StrandedReservation` (reserve twice, abort the first, sweep) leaves five. The offload
  manager never repeats an id, and then `HostStore.OneAtATimeSweeps` holds.
- `Lease.close` marks the lease closed and then raises when one of its blocks is still being written
  and somebody else holds it too (qwen3_runtime/kv/block_store.py:39-51, 129-136); the pins it had
  not reached are never given back. `BlockStores.BlockStore.Close`: it returns normally, every pin given
  back, if and only if none of its blocks is in that state. `BlockStores.PinLeftBehind`: a lease that
  protects a block under reservation, closed first, leaves one pin after both leases are closed.
  The block backend protects committed blocks only (qwen3_runtime/engine/block_offload.py:98-147).

## Left out

- Runs.RunRefines: host memory is not among its operations; `TierTokens` and `BlockTokens` state the same for runs with it. Teacher forcing enters only as a way of picking tokens (`Forced.ScriptIsAPolicy`), so forced bursts are not among its speculative steps.
- Forced.ForcedBurstsExact: about tokens only; the paging of a forced burst is that of any other burst.
- Forced.BurstIsKept: the log-probabilities reported beside forced tokens are not modelled.
- EngineLoop.Engine.Step: log-probability records, step statistics and the latch for fatal device errors are not part of it, nor are forced bursts.
- Resets.ResetExact: about the cache under the weights of the moment; which later tokens a wrong copy changes depends on who shares it (`StaleParent` has an instance).
- Liveness.DrainCompletes: with prefix caching on, waiting requests pin blocks and held sessions pin theirs, and then a queue may indeed be refused; that refusal is an outcome of `ScheduleInv.ScheduleInvariant`.
- BlockStores.BlockStore.Reserve: a failing host allocation for a new slab is not modelled; protected keys are pinned in the order in which they are given, where the code takes them in the order of a set.
- HostStore.CpuKVStore.Reserve: the allocation of the host buffer after the check, and a failure of it, are not modelled.
- BlockStores.BlockStore.InvalidateAll: how many blocks of dropped slabs somebody outside still holds is a parameter.
- BlockRuns.RunInv: the host blocks are a map from keys to contents, and which idle ones are evicted is a parameter; the slots, slabs and pins behind it are `BlockStores`.
- BlockReclaim.ReclaimGroupInv: the group lease appears as the set of host blocks that making room evicts, a parameter; the lease itself is `BlockStores`.
- OffloadManagers.SessionOffload.Resume: the restored pool, pages and table are computed as values and then written back in one go; the order of the writes inside a restore is that of `Restore` and `Transfer`.
- OffloadManagers.SessionOffload.Step: restores are marked used after the step, from the rows it recorded, not between its forward pass and its post-processing.
- Rollout.SessionRollout.RunStep: what was reported is stated for the state after the pre-step reclaim, in which every turn is as before; polling a pending copy and the early save before a step are not part of it (`Offload.EarlySaveInv` and `AsyncOffload` have them as operations), nor is the pairing of tokens with log-probabilities.
- Rollout.SessionRollout.EvictForWatermark: over the synchronous manager; the poll of a pending copy is not part of it.
- Rollout.SessionRollout.Admit: the driver's queue of deferred admissions and the retry after a pool error are left to the caller.
- Groups.ReclaimGroupInv: a group that names a request twice commits it twice and moves it once, as the code would; no caller does so.
- AsyncOffload.AsyncRunInv: stated on values, without a class for the manager; a copy advances by whole blocks, and the stream and its events are the order of these advances; a copy whose completion fails stops the engine and is not modelled.
- SplitK.DecodeAttention: over exact reals, for one query head and one feature; grouping of query heads, rounding and the scratch buffers are not modelled.
- SampledVerify.VerifySampled: the reported logarithm with its floor is not modelled, only the probability under it.
- SampledVerify.SpeculationKeepsDistribution: target rows are finite real distributions; the random generator is a sequence of uniforms, and sampling from a row is a parameter that returns a token of positive probability.
- Batch.PackPaged: the list of block tables beside the rows, `pack_eager` and the CUDA-graph batch are not part of this model.
- Block hashing is taken as injective on parent and tokens.
- At most `max_num_seqs` and `max_num_batched_tokens` of at least one are considered for the liveness results, and the runner does not fail.
- A weight update with `invalidate_kv=False` (qwen3_runtime/engine/engine.py:401-427): KV computed under the old weights is then kept on purpose, and nothing here holds of it.
- Stop strings, which a resume leaves as they were just as it leaves the minimum length (qwen3_runtime/engine/scheduler.py:168-215), the detokenizer, top-k log-probabilities, logit processing and penalties: sampling is a function of the context and the parameters.
- Copy-on-write bodies are modelled and proved never to run; device copies have no timing.
- External owners of host buffers, pinning, NUMA and transfer statistics; reports and counters other than the byte ledger and the session totals.
- Driver threads, futures and timeouts: the owner thread is the sequence of its atomic steps.
- Sleep and wake are the reset they perform; weight loading is a change of network.
- Model code, attention backends other than the split decode kernel, servers and benchmarks.

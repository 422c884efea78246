# Data-movement protocols on symmetric memory

This project models the multi-device data-movement protocols of the SHMEM examples and proves what
they deliver, in every interleaving of ranks and cores:

* **MoE dispatch** (`Routing`, `DispatchScript`, `Dispatch`, `DispatchGolden`): every (token, topK)
  pair is routed into a window on the rank that owns its expert; the receiver waits, builds prefix
  sums and compacts.
* **MoE combine**, classic and double-plane (`CombineScript`, `Combine`, `CombineKernel`): expert
  outputs return to their owners on one channel, or on two with deferred status, and are reduced.
* **All-gather** (`AllGather`, `AllGatherRounds`, `AllGatherFinish`, `AllGatherKernel`, `AllGatherSmall`): the streaming
  version with epoch-tagged counters and polling consumers, over rounds and launches, and the
  version for small inputs.
* **KV shuffle** (`KvShuffle`, `KvShuffleRuns`, `KvShuffleLiveness`, `KvShuffleOrders`, `KvShuffleKernel`): the two-flag
  handshake with equality waits over any number of rounds without a barrier.
* **Mega-MoE counts and checks** (`MegaMoe`, `MegaMoeShape`, `CheckedSize`), the **TCP rank exchange** (`TcpAllGather`) and the **window
  layouts** (`Layout`).

`Shmem` is the shared model of symmetric memory for dispatch and combine; `Arith` holds integer facts.

## How the protocols are modelled

A protocol is a state machine: a `State`, an `Action` type, `Enabled`, `Next`, and `Runs(s, trace, t)`
for a finite run. `Inv` is kept by every step (`NextInv`), so it holds in every reachable state, and
the results are read off it. What a core sends is a script of put and quiet operations; the loops
that produce the scripts are methods (`EmitStage1`, `EmitClassic`, `EmitDoublePlane`, ...) proved to
emit exactly the analysed script. Reference programs (`BuildGoldenRank`, `CombineGoldenToken`,
`GoldenRounds`) are methods too.

Assumptions about the machine:

* A non-blocking put stays pending until a quiet of the same core on the same channel; pending puts
  land one by one in any order. A 32-byte slot put is visible as a unit, and so is a payload row of
  dispatch and combine (nothing reads a row before its status). In the all-gathers single elements
  of a chunk land in any order.
* A wait is a guard. A barrier separates rounds where the source has one.
* In the KV shuffle a core's signal is ordered behind its own earlier puts.
* Element values are integers standing for bit patterns. Float conversion, multiplication and
  addition in combine are arbitrary functions (`Algebra`), so equal results mean equal folds in
  equal order.
* Integers are unbounded unless a width is written out: the 64-bit SDMA threshold, the 32-bit route
  sum and 64-bit checked arithmetic of mega-MoE, and the signed 32-bit rank claim are.

History that no step looks at is part of some states and named as such: `visible` and `consumed` in
`Shmem`, `sweeps` in `AllGather`, `hist` in `KvShuffle`.

## Results that limit the source

* **KV shuffle with changing tables.** The handshake is safe for any tables, but an equality wait can
  miss its value when two ranks swap roles: the old sender, now receiver, signals its next round
  without waiting and overwrites the flag. `KvShuffleLiveness.MissExactly` gives the exact condition,
  `MissedForever` shows that such a run can never finish, `TurnTakingMisses` is a two-rank example,
  and `FixedPairingOrderly` shows that a fixed pairing is always safe.
* **KV-shuffle slices.** The cores cut a block up correctly exactly for 16 cores and block sizes that
  8 divides (`KvShuffleKernel.TilesExactly`); with 8 cores they run past the block and skip the
  value cache (`EightCoresOverrun`).
* **KV-shuffle targets listed twice.** A core's puts may land in any order, so a block that is a target
  twice can end with either source. Every finished run follows the reference in every round exactly
  if the blocks a sender lists for one target have the same contents in the reference
  (`KvShuffleOrders.ReferenceExactly`); `TwoOnOneDiffers` is a run that ends otherwise.
* **The SDMA test with a wrapping product.** A segment above the average is kept off the SDMA plane when
  its bytes times the number of remote segments wrap to something small.
  `CombineKernel.AboveThresholdExactly` gives the exact condition; `WrappedStaysDirect` is a shape whose
  sizes all fit the source's integers, with a segment of 4 TiB. Correctness does not depend on the
  plane, and `SomeRemoteDirect` needs no such condition.

## Model

| member | source | states |
|---|---|---|
| `Shmem.IssueInv` | shmem/examples/dispatch/dispatch_classic/dispatch_kernel.cpp:135-211 | Issuing the next put or passing a quiet keeps the network invariant of a disciplined script: memory is exactly the initial contents overwritten by what is visible and not yet consumed. |
| `Shmem.LandInv` | shmem/examples/dispatch/dispatch_classic/dispatch_kernel.cpp:148-150 | Any pending put may land next; the invariant survives and nothing visible disappears. |
| `Shmem.Published` | shmem/examples/dispatch/dispatch_classic/dispatch_kernel.cpp:175-209 | A visible slot implies that every slot it vouches for is visible. |
| `Shmem.NotAgain` | shmem/examples/combine/combine_classic/combine_kernel.cpp:90-98 | Once a slot is visible, no core of any rank has a put to it pending or still to issue. |
| `Routing.PairSlotsInjective` | shmem/examples/dispatch/dispatch_classic/dispatch_kernel.cpp:142-146 | Different (source, flat index) pairs for the same destination get different window slots. |
| `Routing.SlotCodec` | shmem/examples/dispatch/dispatch_classic/dispatch_kernel.cpp:144-146 | A global slot determines source, local expert and place, and lies inside the window. |
| `Routing.SelectAt` | shmem/examples/dispatch/dispatch_classic/dispatch_kernel.cpp:144-144 | The running offset of a pair is its rank among the earlier pairs with the same expert. |
| `Routing.Conservation` | shmem/examples/dispatch/dispatch_classic/dispatch_kernel.cpp:125-133 | What all ranks receive adds up to ranks times tokens times topK, for every routing. |
| `DispatchScript.PassCovers` | shmem/examples/dispatch/dispatch_classic/dispatch_kernel.cpp:135-199 | The payload, assist and ready passes write the same slots, exactly those of the pairs routed to the destination. |
| `DispatchScript.ScriptSafe` | shmem/examples/dispatch/dispatch_classic/dispatch_kernel.cpp:116-213 | Every core's whole send script keeps the publication discipline: each slot once, with planned content, and ready and count only after quiets cover what they vouch for. |
| `DispatchGolden.CountSegments` | shmem/examples/dispatch/dispatch_classic/dispatch_kernel.cpp:120-133 | The counting loop yields the size of every segment. |
| `DispatchGolden.EmitPass` | shmem/examples/dispatch/dispatch_classic/dispatch_kernel.cpp:135-199 | One pass with running slot offsets emits the analysed puts, so the recomputed offsets agree between passes. |
| `DispatchGolden.EmitStage1` | shmem/examples/dispatch/dispatch_classic/dispatch_kernel.cpp:116-213 | Stage 1 of a core emits exactly the analysed script, word for word, including the conditional quiets and empty segments. |
| `DispatchGolden.BuildGoldenRank` | shmem/examples/dispatch/scripts/data_gen.py:33-70 | The nested reference loops produce the counts, rows and triples of the closed-form specification `IsGolden`, and zeros beyond the received rows. |
| `Dispatch.NextInv` | shmem/examples/dispatch/dispatch_classic/dispatch_kernel.cpp:116-270 | Every step of every rank and core keeps the invariant. |
| `Dispatch.DispatchCorrect` | shmem/examples/dispatch/dispatch_classic/dispatch_kernel.cpp:116-270 | Every run is bounded, can go on until all ranks have finished, and then holds the reference outputs on every rank and a reset window; at no time does a row or triple behind the received ones change. |
| `DispatchGolden.FinishedMatches` | shmem/examples/dispatch/dispatch_classic/main.cpp:317-322 | A finished run from the zero-filled buffers the host prepares holds the four reference outputs entry for entry, the zero padding included. |
| `Dispatch.Completes` | shmem/examples/dispatch/dispatch_classic/dispatch_kernel.cpp:116-270 | Every reachable state has a continuation in which all ranks finish, so the results about finished runs are never empty. |
| `Dispatch.HostInit` | shmem/examples/dispatch/dispatch_classic/main.cpp:323-331 | The host's zero fill followed by the -1 fill of the count slots is a window from which a launch may start. |
| `Dispatch.GoldenUnique` | shmem/examples/dispatch/scripts/data_gen.py:33-70 | The specification determines both count arrays and the first `total` rows and assist triples, so the kernel's outputs are the reference's. |
| `Dispatch.CountImpliesRows` | shmem/examples/dispatch/dispatch_classic/dispatch_kernel.cpp:204-253 | In every reachable state a count slot marked ready carries the right count, and payload, assist and ready words of all its slots are in place. |
| `Dispatch.ReadyLocsDistinct` | shmem/examples/dispatch/dispatch_classic/dispatch_kernel.cpp:247-263 | The receiver's places have different ready slots, so a reset never hides another place's row. |
| `Dispatch.ReadyNeverBlocks` | shmem/examples/dispatch/dispatch_classic/dispatch_kernel.cpp:241-270 | In every reachable state a rank that is compacting can take its next step, so stage 3 ready waits never block, whatever the senders still have to do. |
| `Dispatch.FinalClean` | shmem/examples/dispatch/dispatch_classic/dispatch_kernel.cpp:261-267 | In a finished state every ready slot is eight words 0 and every count slot eight words -1 again. |
| `Dispatch.RoundsCorrect` | shmem/examples/dispatch/dispatch_classic/main.cpp:323-350 | Every completed round of any number of barrier-separated rounds, with any inputs of the same shape, meets the reference, leaves what is behind the received rows as the round found it, and restores the window. |
| `CombineKernel.EmitClassic` | shmem/examples/combine/combine_classic/combine_kernel.cpp:78-100 | The classic send loops, reading bounds and triples from dispatch's outputs, emit exactly the analysed classic script. |
| `CombineKernel.EmitDoublePlane` | shmem/examples/combine/combine_doubleplane/combine_doubleplane_kernel.cpp:131-229 | The three passes emit exactly the analysed two-channel script on the planes the threshold test chooses; the core of the own rank uses the direct channel only. |
| `CombineKernel.OwnSegmentDirect` | shmem/examples/combine/combine_doubleplane/combine_doubleplane_kernel.cpp:45-57 | No segment of a rank to itself takes the SDMA plane, with any sizes and any number of ranks, one included. |
| `CombineKernel.OwnScriptDirect` | shmem/examples/combine/combine_doubleplane/combine_doubleplane_kernel.cpp:131-229 | The script of the core that serves its own rank has no operation on the SDMA channel. |
| `CombineKernel.ComputeThresholdNum` | shmem/examples/combine/combine_doubleplane/combine_doubleplane_kernel.cpp:75-90 | The loops over the receive counts add up all remote segments' bytes modulo 2 to the 64. |
| `CombineKernel.OnlyProductWraps` | shmem/examples/combine/combine_doubleplane/combine_doubleplane_kernel.cpp:45-90 | With the source's 32-bit counts, row length and expert number, the byte sum, the byte size and the divisor of the plane test never wrap; only the product of size and divisor can. |
| `CombineKernel.AboveThresholdExactly` | shmem/examples/combine/combine_doubleplane/combine_doubleplane_kernel.cpp:45-90 | A remote segment takes the SDMA plane exactly if it has the minimum size and is strictly above the average remote segment, if and only if that product fits 64 bits, or its remainder still exceeds the sum, or the segment is below the minimum size. |
| `CombineKernel.WrappedStaysDirect` | shmem/examples/combine/combine_doubleplane/combine_doubleplane_kernel.cpp:45-57 | A shape with a large segment above the average whose product is 2^64, so that it stays on the direct plane. |
| `CombineKernel.SomeRemoteDirect` | shmem/examples/combine/combine_doubleplane/combine_doubleplane_kernel.cpp:45-90 | With more than one rank, some remote segment of every rank stays on the direct plane, on all shapes of the source's integer widths, wrapping products included. |
| `CombineScript.PassSafe` | shmem/examples/combine/combine_doubleplane/combine_doubleplane_kernel.cpp:139-223 | Each pass keeps the discipline, and in the SDMA pass the kernel's counter equals the number of puts since the last SDMA quiet and stays below 256. |
| `CombineScript.ScriptLocs` | shmem/examples/combine/combine_doubleplane/combine_doubleplane_kernel.cpp:139-223 | The three passes together put exactly the data and status slots of the pairs this core answers, whatever the planes. |
| `Combine.NextInv` | shmem/examples/combine/combine_doubleplane/combine_doubleplane_kernel.cpp:131-262 | Every step of every sender, channel and reader keeps the invariant. |
| `Combine.CombineCorrect` | shmem/examples/combine/combine_classic/combine_kernel.cpp:78-133 | On any assignment of segments to planes every run is bounded, can go on until all tokens are done, and ends with all data in place, all status slots reset, and every column of every token the narrowed fold of that column of its answers with the token's scales, in topK order. |
| `Combine.Completes` | shmem/examples/combine/combine_classic/combine_kernel.cpp:78-133 | Every reachable state has a continuation in which all tokens are reduced and reset. |
| `Combine.ClassicScripts` | shmem/examples/combine/combine_classic/combine_kernel.cpp:78-100 | With no segment on SDMA the two-channel script is the classic kernel's, operation by operation. |
| `Combine.DoublePlaneRefinesClassic` | shmem/examples/combine/combine_doubleplane/combine_doubleplane_kernel.cpp:131-262 | Completed runs of the two kernels from the same window end with equal outputs and equal windows, on any schedules. |
| `Combine.ReadyMeansAnswered` | shmem/examples/combine/combine_doubleplane/combine_doubleplane_kernel.cpp:139-223 | In every reachable state a READY status means its row is in place and no put to it is pending or to come on either channel. |
| `Combine.ResetNeverRaces` | shmem/examples/combine/combine_classic/combine_kernel.cpp:127-132 | In every reachable state no core has a put pending or to come to a status slot its owner has reset. |
| `Combine.SdmaLimit` | shmem/examples/combine/combine_doubleplane/combine_doubleplane_kernel.cpp:159-164 | No core ever has more than 256 SDMA puts in flight. |
| `Combine.ExactlyOnce` | shmem/examples/combine/combine_classic/combine_kernel.cpp:78-98 | Every data and status slot is put by exactly one operation of exactly one core of all ranks. |
| `Combine.RoundsCorrect` | shmem/examples/combine/combine_classic/main.cpp:427-445 | Any number of barrier-separated rounds each reduce correctly, column by column, and leave all status slots reset. |
| `CombineKernel.ReduceToken` | shmem/examples/combine/combine_classic/combine_kernel.cpp:115-125 | The column-by-column loops leave in column c the narrowed fold over topK, in order, of column c of the rows with the token's own scales. |
| `CombineKernel.CombineGoldenToken` | shmem/examples/combine/scripts/data_gen.py:67-77 | The reference, which accumulates whole rows, leaves in column c the narrowed fold of column c of the token's own row with the token's scales. |
| `CombineKernel.GoldenFeeds` | shmem/examples/combine/combine_classic/combine_kernel.cpp:80-88 | The outputs of a finished dispatch are the receive counts and assist triples the combine loops rely on. |
| `CombineKernel.AnswerIsRow` | shmem/examples/combine/scripts/data_gen.py:33-64 | With identity experts on dispatch's output, the answer to a pair is the pair's own token row. |
| `CombineKernel.RoundTrip` | shmem/examples/combine/combine_classic/combine_kernel.cpp:78-133 | Dispatch, identity experts and combine leave on every rank and token, column by column, the narrowed scale-weighted fold of that column of the token's own row, for every routing and schedule. |
| `AllGather.NextInv` | shmem/examples/allgather/allgather_kernel.cpp:69-196 | Every producer and consumer step keeps the invariant that ties flags, published chunks and progress together. |
| `AllGather.NeverReadsAhead` | shmem/examples/allgather/allgather_kernel.cpp:138-183 | In every reachable state a consumer's progress is at most the published count, and every burst is half a buffer or the rest, inside published data that equals the input. |
| `AllGather.ChunksComplete` | shmem/examples/allgather/allgather_kernel.cpp:77-108 | The last chunk, and no earlier one, completes a group. |
| `AllGather.ShareExact` | shmem/examples/allgather/allgather_kernel.cpp:61-66 | All groups but the last have the largest equal length that fits and lie back to back; the last takes the rest, up to the last element. |
| `AllGather.ExitGathered` | shmem/examples/allgather/allgather_kernel.cpp:113-196 | When the consumers of a rank have exited, its output holds every rank's part of the round. |
| `AllGatherKernel.EmitChunks` | shmem/examples/allgather/allgather_kernel.cpp:61-110 | A producer core that divides the length by the number of groups and counts its bytes down puts exactly the chunks of the model with their flags, including the short last one and empty groups. |
| `AllGatherKernel.ChunkPutExact` | shmem/examples/allgather/allgather_kernel.cpp:79-87 | The put of a chunk moves exactly the elements the model lands before the flag. |
| `AllGatherKernel.CopyBursts` | shmem/examples/allgather/allgather_kernel.cpp:165-181 | Bursts of half a buffer add up to one copy of the whole range and touch nothing else. |
| `AllGatherKernel.VisitGroup` | shmem/examples/allgather/allgather_kernel.cpp:128-184 | A consumer core's visit to a group, with its byte comparisons, bursts and progress cell, is a sequence of steps of the model's consumer, whatever flag it reads. |
| `AllGatherKernel.BigDataRounds` | shmem/examples/allgather/allgather_kernel.cpp:203-223 | The loop of the big-data entry point passes exactly the model's offset, length and epoch to every round. |
| `AllGatherRounds.ProducerProgress` | shmem/examples/allgather/allgather_kernel.cpp:77-109 | A producer never waits for a consumer. |
| `AllGatherRounds.ExitsWithinTwoSweeps` | shmem/examples/allgather/allgather_kernel.cpp:127-196 | Once all producers have finished, a consumer exits at the second sweep end after the sweep it is in, in every continuation. |
| `AllGatherRounds.SweepAdvances` | shmem/examples/allgather/allgather_kernel.cpp:128-185 | Every step inside a sweep brings its end nearer, so sweeps end. |
| `AllGatherRounds.ChunkLimit` | shmem/examples/allgather/allgather_kernel.cpp:28-30 | With the source's buffer sizes a group needs at most 539 chunks. |
| `AllGatherRounds.EpochsSeparate` | shmem/examples/allgather/allgather_kernel.cpp:208-220 | Before every round no flag carries its epoch, whatever the earlier rounds wrote. |
| `AllGatherRounds.AllGatherCorrect` | shmem/examples/allgather/allgather_kernel.cpp:203-223 | After the last round `output[x*elements + j]` is rank x's `input[j]` on every rank, for every length. |
| `AllGatherRounds.SeriesCorrect` | shmem/examples/allgather/main.cpp:119-124 | With the host's counter times 1024 no launch ever meets a flag of its own epochs, so every launch of a series is correct, as long as flags do not overflow. |
| `AllGatherRounds.FlagFitsExactly` | shmem/examples/allgather/allgather_kernel.cpp:86-87 | A flag fits a signed 32-bit integer exactly while the host's launch counter is below 2048. |
| `AllGatherRounds.SeriesFlagsFit` | shmem/examples/allgather/main.cpp:119-124 | In the first 2046 launches of a series no flag a round leaves exceeds a signed 32-bit integer. |
| `AllGatherFinish.RoundCompletes` | shmem/examples/allgather/allgather_kernel.cpp:69-196 | Every reachable state of a round has a continuation in which all producers publish everything and all consumers exit. |
| `AllGatherFinish.LaunchCompletes` | shmem/examples/allgather/allgather_kernel.cpp:203-223 | Every launch whose epochs are unused has a complete sequence of rounds, from any memory contents. |
| `AllGatherSmall.StepInv` | shmem/examples/allgather/allgather_kernel.cpp:253-282 | Every core's step keeps the invariant: past the synchronisation all shares are in place, and a flag is set exactly by its core's signal. |
| `AllGatherSmall.PutShare` | shmem/examples/allgather/allgather_kernel.cpp:253-262 | The first step puts exactly the core's share of the model, computed from the element and core counts. |
| `AllGatherSmall.GetShare` | shmem/examples/allgather/allgather_kernel.cpp:265-282 | The second step copies in place exactly what the model's step does. |
| `AllGatherSmall.SmallCorrect` | shmem/examples/allgather/allgather_kernel.cpp:227-283 | When all cores are done every rank's output is every rank's whole input, in every interleaving. |
| `AllGatherSmall.Progress` | shmem/examples/allgather/allgather_kernel.cpp:267-272 | Some core can go on until all are done. |
| `AllGatherSmall.RunsBounded` | shmem/examples/allgather/allgather_kernel.cpp:227-283 | Every run is at most as long as the work its first state shows. |
| `AllGatherSmall.Completes` | shmem/examples/allgather/allgather_kernel.cpp:227-283 | Every reachable state has a continuation in which all cores are done. |
| `KvShuffle.NextInv` | shmem/examples/kv_shuffle/kv_shuffle_kernel.cpp:58-121 | Every step keeps flags, handshake order, partial copies and the history of finished rounds consistent, for any tables. |
| `KvShuffle.LandWindow` | shmem/examples/kv_shuffle/kv_shuffle_kernel.cpp:84-120 | A put can land only while the receiver's core waits in the same round. |
| `KvShuffleRuns.RoundsClose` | shmem/examples/kv_shuffle/kv_shuffle_kernel.cpp:58-121 | Ranks that are paired in every round are never more than one round apart. |
| `KvShuffleRuns.WrittenOnlyWhileWaiting` | shmem/examples/kv_shuffle/kv_shuffle_kernel.cpp:84-120 | A cache slice changes only by its sender's put, between its owner's signal and its return from the wait. |
| `KvShuffleRuns.MixedIsCopied` | shmem/examples/kv_shuffle/scripts/golden.py:160-166 | Puts landing in any order leave what the sequential reference copy leaves, if blocks listed for one target have the same contents. |
| `KvShuffleOrders.OrdersExactly` | shmem/examples/kv_shuffle/kv_shuffle_kernel.cpp:67-116 | All landing orders of one core's puts leave the reference's slice if and only if blocks listed for one target have the same contents. |
| `KvShuffleRuns.ShuffleCorrect` | shmem/examples/kv_shuffle/scripts/golden.py:160-166 | A finished run of any number of unsynchronised rounds leaves after every round exactly the caches of the round-by-round reference, if in the reference the blocks a sender lists for one target have the same contents. |
| `KvShuffleRuns.GoldenRound` | shmem/examples/kv_shuffle/scripts/golden.py:139-166 | The reference takes the ranks in turn and copies in place; since no sender receives, that is what all ranks copying at once leaves. |
| `KvShuffleRuns.GoldenRounds` | shmem/examples/kv_shuffle/scripts/golden.py:139-166 | Round after round the loops compute the `Reference` that the runs are compared with. |
| `KvShuffleOrders.LastPutRun` | shmem/examples/kv_shuffle/kv_shuffle_kernel.cpp:67-116 | For every put of every sender there is a finished run in which it lands last and decides its target. |
| `KvShuffleOrders.ReferenceExactly` | shmem/examples/kv_shuffle/kv_shuffle_kernel.cpp:67-121 | For orderly tables, every finished run follows the reference in every round if and only if that condition on the blocks holds. |
| `KvShuffleOrders.TwoOnOneDiffers` | shmem/examples/kv_shuffle/kv_shuffle_kernel.cpp:67-116 | Two different blocks sent to one target: some finished run ends with other caches than the reference. |
| `KvShuffleLiveness.RunsFinish` | shmem/examples/kv_shuffle/kv_shuffle_kernel.cpp:58-121 | For orderly tables every run is bounded and stops only when all ranks have finished all rounds. |
| `KvShuffleLiveness.Completes` | shmem/examples/kv_shuffle/kv_shuffle_kernel.cpp:58-121 | For orderly tables every reachable state has a continuation that finishes all rounds. |
| `KvShuffleLiveness.NeverMissed` | shmem/examples/kv_shuffle/kv_shuffle_kernel.cpp:118-121 | For orderly tables no receiver's equality wait misses its value. |
| `KvShuffleLiveness.SenderNeverMisses` | shmem/examples/kv_shuffle/kv_shuffle_kernel.cpp:59-60 | On any tables no sender's equality wait misses its value. |
| `KvShuffleLiveness.MissExactly` | shmem/examples/kv_shuffle/kv_shuffle_kernel.cpp:58-121 | Some run loses a receiver's flag if and only if the tables contain a role swap that no other exchange fences, and no run loses a sender's. |
| `KvShuffleLiveness.MissedForever` | shmem/examples/kv_shuffle/kv_shuffle_kernel.cpp:120-120 | A core that has missed its value waits for ever, and its run never finishes. |
| `KvShuffleLiveness.FixedPairingOrderly` | shmem/examples/kv_shuffle/kv_shuffle_kernel.cpp:40-42 | One pairing with fixed senders for all rounds is orderly. |
| `KvShuffleLiveness.TurnTakingMisses` | shmem/examples/kv_shuffle/kv_shuffle_kernel.cpp:117-120 | Two ranks that send in turn have a run that loses a flag. |
| `KvShuffleKernel.ShuffleOps.Compute` | shmem/examples/kv_shuffle/kv_shuffle_kernel.cpp:138-158 | Call number c launches with count c, counting from 1. |
| `KvShuffleKernel.EmitBlocks` | shmem/examples/kv_shuffle/kv_shuffle_kernel.cpp:61-116 | The block loop puts one slice per listed block, in the key cache for cores 0 to 7 and in the value cache for the others. |
| `KvShuffleKernel.TilesExactly` | shmem/examples/kv_shuffle/kv_shuffle_kernel.cpp:61-113 | Slices stay in their block and every byte of both caches has exactly one core, if and only if there are 16 cores and 8 divides the block size. |
| `KvShuffleKernel.WholeBlocks` | shmem/examples/kv_shuffle/kv_shuffle_kernel.cpp:67-113 | With 16 cores all puts together write exactly the target blocks, each byte from the same place of its source block. |
| `KvShuffleKernel.EightCoresOverrun` | shmem/examples/kv_shuffle/kv_shuffle_kernel.cpp:61-113 | With 8 cores a key slice ends beyond its block and the value cache is not copied. |
| `MegaMoe.CountReceived` | shmem/examples/shmem_mega_moe/main.cpp:147-157 | The triple loop counts, per local expert and source rank, exactly the routes that go there. |
| `MegaMoe.BuildExpectedExpertTokens` | shmem/examples/shmem_mega_moe/main.cpp:141-167 | Each count is the difference of clipped running totals, stored as a signed 32-bit integer: experts are served in order until the capacity is used up. |
| `MegaMoe.DefaultMaxReceivedTokens` | shmem/examples/shmem_mega_moe/include/shmem_mega_moe_host.h:71-79 | The 64-bit product of the default capacity never wraps on the program's 32-bit values, and gives the configured capacity, the required one, or 0 if that exceeds 32 bits. |
| `MegaMoe.AcceptedTotal` | shmem/examples/shmem_mega_moe/main.cpp:159-166 | On every configuration and with any capacity, the numbers a rank accepts, before they are stored, add up to the smaller of what it receives and its capacity. |
| `MegaMoeShape.StartedAnyCapacity` | shmem/examples/shmem_mega_moe/main.cpp:159-166 | On every started shape, with any capacity at all, a rank's stored counts add up to the smaller of what it receives and the capacity. |
| `MegaMoe.Conserved` | shmem/examples/shmem_mega_moe/main.cpp:148-157 | Received totals over all ranks are ranks times tokens times routes per token, even if the 32-bit sums wrap. |
| `MegaMoe.RequiredIsEnough` | shmem/examples/shmem_mega_moe/main.cpp:358-359 | No rank receives more than the required capacity, for any number of ranks and experts, if no route sum wraps. |
| `MegaMoe.RequiredIsReached` | shmem/examples/shmem_mega_moe/main.cpp:358-359 | With one rank the required capacity is exactly what it receives, so no smaller one would do. |
| `MegaMoeShape.CalculateSymmetricMemorySize` | shmem/examples/shmem_mega_moe/main.cpp:318-352 | The size calculation fails exactly if the size does not fit 64 bits, on every shape the first check resolves, and else returns it. |
| `MegaMoeShape.ResolveAndValidateShape` | shmem/examples/shmem_mega_moe/main.cpp:354-390 | With the 64-bit products of the source the shape check decides as on unbounded integers, since a product can only wrap on shapes it rejects. |
| `MegaMoeShape.CalculateBufferSizes` | shmem/examples/shmem_mega_moe/main.cpp:405-425 | The buffer check succeeds exactly if each of its products goes through. |
| `MegaMoeShape.StartedFacts` | shmem/examples/shmem_mega_moe/main.cpp:591-603 | A shape that passes the parser, the shape check, the buffer check and the 1 GiB heap limit has at most 2^29 routes, enough capacity and no route sum that wraps. |
| `MegaMoeShape.StartedCounts` | shmem/examples/shmem_mega_moe/main.cpp:141-167 | On every started shape each stored count is the full number the expert receives, at most 2^29, and the counts of all ranks add up to ranks times tokens times routes. |
| `MegaMoeShape.DefaultStarts` | shmem/examples/shmem_mega_moe/include/shmem_mega_moe_host.h:36-49 | The default configuration is started; it needs 67,174,400 of the 1,073,741,824 bytes of the heap. |
| `CheckedSize.CheckedProduct` | shmem/examples/shmem_mega_moe/main.cpp:278-288 | Succeeds if and only if no prefix product exceeds 64 bits, and then returns the product. |
| `CheckedSize.SucceedsExactly` | shmem/examples/shmem_mega_moe/main.cpp:278-288 | That is so exactly if the factors before the first zero have a product that fits. |
| `CheckedSize.ProductExactly` | shmem/examples/shmem_mega_moe/main.cpp:278-288 | Success means that the whole product fits, and nothing else, if and only if no zero comes behind an overflow. |
| `CheckedSize.LateZero` | shmem/examples/shmem_mega_moe/main.cpp:278-288 | The failing example of that condition, which no call of the program passes: two factors of 2^32 before a zero are refused although the product is 0. |
| `CheckedSize.CallsExact` | shmem/examples/shmem_mega_moe/main.cpp:380-419 | On the two or three factors of every call of the program, the first two of 32 bits, success is exactly that the product fits. |
| `CheckedSize.CheckedAdd` | shmem/examples/shmem_mega_moe/main.cpp:290-297 | Succeeds if and only if the sum fits 64 bits, and then returns it. |
| `CheckedSize.CheckedMultiply` | shmem/examples/shmem_mega_moe/main.cpp:299-306 | Succeeds if and only if the product fits 64 bits, and then returns it. |
| `CheckedSize.CheckedAlignUp` | shmem/examples/shmem_mega_moe/main.cpp:308-316 | Returns the least multiple of the alignment that is not below the value, and fails exactly for alignment 0 or overflow. |
| `TcpAllGather.SendAll` | shmem/examples/one_multi_path/main.cpp:86-101 | It succeeds if and only if the calls can move the whole buffer before one fails or moves nothing, interruptions skipped; success sends the buffer exactly once, failure a proper prefix. |
| `TcpAllGather.RecvAll` | shmem/examples/one_multi_path/main.cpp:103-118 | It succeeds if and only if the calls can move that many bytes and the stream holds them; then exactly the next bytes are in the buffer and consumed, and nothing else in the buffer changes. |
| `TcpAllGather.MovingIsHealthy` | shmem/examples/one_multi_path/main.cpp:86-118 | Calls that are never refused and never cut short make any number of transfers, so the conditions for success are met on sound connections. |
| `TcpAllGather.HeaderRoundTrip` | shmem/examples/one_multi_path/main.cpp:213-243 | A rank is written with its highest byte first and read back as the same positive int. |
| `TcpAllGather.NegativeClaim` | shmem/examples/one_multi_path/main.cpp:239-243 | A header claims a negative rank exactly if its first byte has the highest bit set. |
| `TcpAllGather.AcceptPeer` | shmem/examples/one_multi_path/main.cpp:237-251 | A connection is accepted if and only if its calls can move header and data, it brings them, and it claims a free rank in range; then that rank's slot, and no other, holds its data. |
| `TcpAllGather.Pigeonhole` | shmem/examples/one_multi_path/main.cpp:237-251 | As many distinct claims as peers leave no rank out. |
| `TcpAllGather.Root` | shmem/examples/one_multi_path/main.cpp:227-254 | The root gathers if and only if the first n - 1 connections bring claim and data, can move them, and claim different ranks in range, and it succeeds if and only if each can then also take the whole array. Gathered, every slot holds its claimant's data; successful, every peer was sent the whole array; whatever the outcome, a peer is sent nothing but the beginning of a completely gathered array. |
| `TcpAllGather.Peer` | shmem/examples/one_multi_path/main.cpp:211-225 | A peer succeeds if and only if its calls can move claim, data and the answer and its stream holds an array of bytes; then all of its message was sent and the array holds those bytes. In every outcome it sends a beginning of its message. |
| `TcpAllGather.GatherComplete` | shmem/examples/one_multi_path/main.cpp:211-254 | If every connection carries a peer's message as far as it was sent, a gathered array holds rank p's data in slot p for every p and every order of arrival. |
| `TcpAllGather.PeerHoldsAll` | shmem/examples/one_multi_path/main.cpp:211-254 | Each successful peer ends with the root's full array, with every rank's data in its slot, even if the root fails on a later peer. |
| `Layout.StrideBytes` | shmem/examples/dispatch/dispatch_classic/dispatch_kernel.cpp:97-99 | For element sizes dividing 32 the stride in elements loses nothing of the padded row. |
| `Layout.DispatchLayout` | shmem/examples/dispatch/dispatch_classic/main.cpp:96-122 | Kernel and host place the count region alike, the host's -1 fill covers exactly the count slots, the window ends one count-sized block behind them, and no two slots of any region share a byte or leave the window. |
| `Layout.CombineLayout` | shmem/examples/combine/combine_classic/main.cpp:99-103 | The same for the data and status regions of combine, whose window is used to the last byte. |
| `Layout.WindowSizes` | shmem/examples/dispatch/dispatch_classic/main.cpp:96-108 | The window and slot sizes in plain numbers: 64 bytes beside every padded row and per segment in dispatch, 32 beside every padded row in combine. |
| `Layout.LayoutsAgree` | shmem/examples/dispatch/dispatch_classic/dispatch_kernel.cpp:97-106 | Host and kernel agree if and only if there are no slots or a padded row is a whole number of elements. |

## Left out

- Expert ids outside the valid range, `block_num` other than the number of ranks, and the kernels' early returns for impossible shapes: taken as preconditions of dispatch and combine.
- 32-bit overflow of all-gather flags and offsets and of the KV-shuffle counter: the source relies on it not happening, and the models use unbounded integers there.
- AllGatherRounds.SeriesCorrect: speaks of unbounded flags; `FlagFitsExactly` gives the launches for which the source's 32-bit flags agree.
- The 16 progress cells a consumer of the streaming all-gather keeps: the models take any number of groups.
- KvShuffleRuns.ShuffleCorrect: requires agreeing blocks; without that the claim is false, and `KvShuffleOrders.ReferenceExactly` gives the exact condition.
- KvShuffleOrders.ReferenceExactly: speaks of orderly tables, since a run that has lost a flag never finishes.
- Back-to-back launches of the small-data all-gather without a barrier, and the host's allocation size for the all-gather window: one launch with flags unequal to its magic and a large enough window are assumed.
- The tile split of `add_custom` and `FillExpertIds`: they would only add easy members.
- The checks of mega-MoE that come after the heap limit, on device cores and runtime calls: they only reject more shapes.
- `dispatch_doubleplane` (two channels for dispatch, as modelled for combine) and the copies of the all-gather in other examples.
- Hardware pipes, ping-pong buffers, cache maintenance, profiling, device set-up and file handling: not part of the protocols.
- Rounding of floats: combine is compared as folds over uninterpreted operations.
- Argument validation, connection set-up, timeouts and closing of sockets in the TCP exchange.
- The barrier algorithm, signal and quiet primitives themselves: they are assumptions of the model.

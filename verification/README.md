# Verified models of the state machines in vLLM

Most of vLLM wraps kernels, networks and builds. A few places hold real state machines, and a mistake
there corrupts memory, loses a request or deadlocks a worker. This project models those places in Dafny
and proves what they are for.

* **Selective scan with prefix-cache checkpoints** (`ScanKernel`, `ScanGrid`, `ScanLayout`,
  `ScanSchedule`, `ScanCache`, `ScanRuns`, `ScanSplits`, `ScanLaunch`, `ScanShared`, `ScanUncached`, `ScanTurns`). The
  kernel is imperative Dafny over the arrays it overwrites. Its token, chunk and grid loops are proved equal to a plain
  recurrence; the grid is order-free although it writes over its own inputs; every program reads its own elements of
  the tensors; the metadata builder's chunks put every checkpoint into the column of the block it completes; however a
  request is split over calls, resuming from the cache gives the outputs of one uninterrupted scan; and a whole launch
  over real arrays does so for every row and dimension of its batch. The same is proved without prefix caching, where a
  request keeps one state in one slot. `Quantizer` says exactly when the int8 quantiser keeps its error bound, and that
  its scale is the finest one that covers the row.
* **Virtual-memory allocator** (`Chunking`, `Driver`, `Mapping`, `Allocator`, `AllocatorRuns`,
  `AllocatorLimits`, `AllocatorErrors`). The driver is an abstract device whose every call may fail, by an arbitrary
  status for each call. The entry points are methods that change the allocator's state, proved equal to functions; about these the rollback
  is characterised exactly, and so are the runs that are safe and the sticky error code at every point of every run.
* **Graph partition signatures** (`GraphPartition`, `PartitionMarks`). The backward liveness pass against a forward run
  that consumes inputs and gives back only what signatures return, and against one that drops exactly the inputs the
  signatures mark as deallocated.
* **Build-time report** (`BuildTime`, `BuildSweep`, `NinjaLog`). The event sweep against an independent
  millisecond-by-millisecond definition of each target's share, and the log reader.
* **Bad-word processor** (`BadWords`). Exact masking with infinite logits, and whole generations.
* **Concurrent protocols as step systems**: benchmark clients (`ClientQueue`), the monitor/wait spin loop
  (`SpinLoop`) and the shared-memory broadcast ring (`ShmRing`, `ShmProgress`). Every theorem is over every
  interleaving; the ring's include that from every reachable state every further message can still be delivered.
* **Rank split** (`RankSplit`).

`Sums` and `Wrappers` hold what several modules share.

Places where the code does something its comments or callers may not expect are stated as lemmas, with
the exact condition:

* `Quantizer.ErrorBoundIff`: the error bound holds if and only if the zero point survives its cast to
  int32 and the ends of the row survive the cast to 8 bits.
* `Mapping.AtomicIff`: a failed `create_and_map` restores the device if and only if all rollback calls
  succeed; their statuses are ignored. `Mapping.StaleErrorLeaks`: a sticky error code on entry leaks the
  first handle.
* `AllocatorLimits.RunSafeIff`: whatever the driver does, a run is safe if and only if only awake blocks
  are put to sleep or freed (with their rounded size), only sleeping ones are woken, no wake-up starts on
  top of an old error, the host side does not fail after a reservation, and no call fails that rolls back,
  tears down, frees an address range or sets the access (`AllocatorLimits.AccessFailureLeaks`). The entry
  points check none of this, and
  `CuMemAllocator.sleep` (vllm/vllm/device_allocator/cumem.py, lines 189 to 216) collects garbage right
  after putting every block to sleep; `AllocatorLimits.FailingRunExists` is such a run.
* `Chunking.PlanTilesIff`: the plan of an allocation is right if and only if none of its three sums wraps;
  `Chunking.GuardDoesNotCoverRounding`.
* `GraphPartition.SafeRenamingIff`: renamings are safe if and only if they are settled in one step.
  `GraphPartition.NoneInputIff`: the docstring says that buffers without a layout are never partition
  inputs; they are exactly when they are freed in a partition that did not produce them.
* `NinjaLog.LongestIff` and `NinjaLog.StaysLongestIff`: when the log reader keeps the longest suffix that
  is one build. `BadWords.InfiniteLogitBecomesNaN`, `ScanLayout.InnermostStrideMustBeOne`.

## Model

| member | source | states |
|---|---|---|
| `ScanKernel.DeltaAt` | vllm/vllm/_xpu_ops.py:624-676 | after n tokens written in place, each position of `delta` holds the recurrence's output if it is one of those n and its original value otherwise, so no input still to be read is lost |
| `ScanKernel.ZAt` | vllm/vllm/_xpu_ops.py:670-676 | the same for the gated output written over `z` |
| `ScanKernel.TokensWithin` | vllm/vllm/_xpu_ops.py:590-622 | the chunks of a row begin at its first token, stay inside it and together cover it |
| `ScanKernel.LoadToken` | vllm/vllm/_xpu_ops.py:626-657 | a token is loaded as it was before the launch, though earlier positions have been overwritten |
| `ScanKernel.GateToken` | vllm/vllm/_xpu_ops.py:670-676 | the gated output of one token is written over `z`, from the original `z` |
| `ScanKernel.ScanToken` | vllm/vllm/_xpu_ops.py:624-676 | one token reads its inputs before overwriting them and moves state, `delta` and `z` on by one step of the recurrence |
| `ScanKernel.ScanChunk` | vllm/vllm/_xpu_ops.py:613-678 | the token loop carries state and buffers from any prefix to any longer prefix of the recurrence |
| `ScanKernel.ScanTokens` | vllm/vllm/_xpu_ops.py:613-678 | the tokens of one chunk, found through the chunk offsets |
| `ScanKernel.ColumnIs` | vllm/vllm/_xpu_ops.py:680-694 | the kernel's position arithmetic gives the column the chunk stores through |
| `ScanKernel.ColumnOf` | vllm/vllm/_xpu_ops.py:680-694 | computes the column the chunk stores through |
| `ScanKernel.StoreState` | vllm/vllm/_xpu_ops.py:680-703 | the store at the end of a chunk adds exactly that chunk's checkpoint |
| `ScanKernel.RunChunk` | vllm/vllm/_xpu_ops.py:590-704 | a chunk scans its tokens and stores the running state through the block table |
| `ScanKernel.RunCached` | vllm/vllm/_xpu_ops.py:590-704 | the chunk loop gives the same memory as the unchunked recurrence plus the checkpoints |
| `ScanKernel.RunProgram` | vllm/vllm/_xpu_ops.py:417-715 | one (batch, dim) program, with skipped rows, optional initial state and both cache modes, changes memory as the recurrence says and in no other way; `ScanLaunch` and `ScanUncached` say what that recurrence is, with and without prefix caching |
| `ScanGrid.EffectFrame` | vllm/vllm/_xpu_ops.py:560-588 | a program changes only its own output cells and the state slots it stores to |
| `ScanGrid.EffectLocal` | vllm/vllm/_xpu_ops.py:560-588 | what a program writes depends only on the cells it reads |
| `ScanGrid.StepOutOfPlace` | vllm/vllm/_xpu_ops.py:905-967 | running one more program in place keeps memory equal to the out-of-place meaning of all programs run so far |
| `ScanGrid.LaunchIsOutOfPlace` | vllm/vllm/_xpu_ops.py:905-967 | any duplicate-free order of programs, with `out` aliasing `delta` and `out_z` aliasing `z`, gives the out-of-place result |
| `ScanGrid.OutOfPlaceUnique` | vllm/vllm/_xpu_ops.py:905-967 | the out-of-place meaning determines memory completely |
| `ScanGrid.OrderFree` | vllm/vllm/_xpu_ops.py:905-967 | two orders of the same programs leave the same memory |
| `ScanGrid.OutputsOf` | vllm/vllm/_xpu_ops.py:624-676 | every output position holds the recurrence over the original inputs |
| `ScanGrid.GatedOutputsOf` | vllm/vllm/_xpu_ops.py:670-676 | every gated position holds the gate of that output and the original `z` |
| `ScanGrid.Launch` | vllm/vllm/_xpu_ops.py:905-967 | the launched grid, over real arrays, ends in the out-of-place result |
| `ScanLayout.CellsApart` | vllm/vllm/_xpu_ops.py:560-588 | with contiguous tensors two programs never share a token cell, for fixed and variable lengths |
| `ScanLayout.SameAddress` | vllm/vllm/_xpu_ops.py:680-715 | state addresses coincide only for the same slot and dimension |
| `ScanLayout.StatesApart` | vllm/vllm/_xpu_ops.py:680-715 | a slot a program stores to is neither read nor stored to by another, if rows do not share stored slots |
| `ScanLayout.LauncherSeparates` | vllm/vllm/_xpu_ops.py:905-967 | strides of non-overlapping tensors with unit innermost stride meet the condition for an order-free grid; only private slots are then left to the caller |
| `ScanLayout.InnermostStrideMustBeOne` | vllm/vllm/_xpu_ops.py:560-588 | in variable-length mode the kernel finds the first token of a row by the stride it was passed, and reads the row's own tokens after that exactly when the stride is 1, since it steps by 1 whatever it was passed |
| `ScanLayout.ReadsTensors` | vllm/vllm/_xpu_ops.py:560-657 | for fixed and variable lengths, the program of row b and dimension d reads at token pos the elements of `u` and `delta` at (b, d, pos), and those of B and C in the one group whose run of dimensions holds d |
| `ScanSchedule.FullChunksShape` | vllm/vllm/v1/attention/backends/mamba_attn.py:274-282 | the full chunks add up to the tokens left, only the last may be short, none is empty |
| `ScanSchedule.RowFromShape` | vllm/vllm/v1/attention/backends/mamba_attn.py:227-287 | a request's chunks first fill the block in use, then take whole blocks, then the rest |
| `ScanSchedule.HeadBound` | vllm/vllm/v1/attention/backends/mamba_attn.py:260-272 | the partial first chunk is the room left in the current block |
| `ScanSchedule.PrefixBoundary` | vllm/vllm/v1/attention/backends/mamba_attn.py:227-287 | every chunk but the last ends where a block ends, block after block |
| `ScanSchedule.LastBoundary` | vllm/vllm/v1/attention/backends/mamba_attn.py:227-287 | the last chunk ends inside the next block |
| `ScanSchedule.ChunkRequest` | vllm/vllm/v1/attention/backends/mamba_attn.py:253-283 | the two-part loop appends exactly the offsets of the request's chunks |
| `ScanSchedule.ComputeChunkMetadata` | vllm/vllm/v1/attention/backends/mamba_attn.py:227-287 | the builder's offsets and last-chunk indices describe the chunks of every request of the batch |
| `ScanSchedule.RowOffsets` | vllm/vllm/v1/attention/backends/mamba_attn.py:227-287 | each request finds its own chunk lengths between its first and last chunk index |
| `ScanSchedule.OffsetsIncrease` | vllm/vllm/v1/attention/backends/mamba_attn.py:227-287 | chunk offsets strictly increase, so chunks do not overlap |
| `ScanCache.BuiltIsWellFormed` | vllm/vllm/v1/attention/backends/mamba_attn.py:337-366 | whatever the builder produces meets the kernel's preconditions |
| `ScanCache.CheckpointColumn` | vllm/vllm/_xpu_ops.py:678-704 | every chunk c but the last stores through column block_idx_first + c |
| `ScanCache.BlockIndices` | vllm/vllm/v1/attention/backends/mamba_attn.py:337-366 | the builder's first and last block indices are the block with room and the block of the last chunk |
| `ScanCache.BuiltIsReady` | vllm/vllm/_xpu_ops.py:590-704 | checkpoint placement for every schedule: the columns are distinct, and each is written when exactly the tokens up to the end of its block have been scanned |
| `ScanRuns.Resume` | vllm/vllm/_xpu_ops.py:546-558 | the state loaded through `has_initial_state` is that of the uninterrupted scan |
| `ScanRuns.StatesAgree` | vllm/vllm/_xpu_ops.py:590-676 | the recurrence resumed at a checkpoint follows the uninterrupted scan |
| `ScanRuns.StoredCells` | vllm/vllm/_xpu_ops.py:678-704 | after c chunks the first c columns hold the states at the ends of those chunks, the others what they held before |
| `ScanRuns.CallOutputs` | vllm/vllm/_xpu_ops.py:546-715 | one call on a right cache gives the uninterrupted scan's outputs |
| `ScanRuns.CallLeaves` | vllm/vllm/_xpu_ops.py:546-715 | and leaves the cache right for everything scanned so far |
| `ScanRuns.RunHolds` | vllm/vllm/_xpu_ops.py:546-715 | however a history is split over calls, the cache is right before and after every call |
| `ScanRuns.RunAgrees` | vllm/vllm/_xpu_ops.py:546-715 | token for token, the outputs of all calls are those of one uninterrupted scan |
| `ScanRuns.PrefixHit` | vllm/vllm/_xpu_ops.py:546-558 | a request may start from any complete block cached by a request with the same prefix |
| `ScanRuns.FreshRequest` | vllm/vllm/_xpu_ops.py:546-558 | any cache content is right for a request nothing was computed for |
| `ScanSplits.AloneIsBuilt` | vllm/vllm/v1/attention/backends/mamba_attn.py:227-287 | the metadata of a launch with one request, for any tokens computed and scheduled, is what the builder produces |
| `ScanSplits.CallExists` | vllm/vllm/_xpu_ops.py:546-715 | for any history, position and cache contents there is a launch that meets all the preconditions above |
| `ScanSplits.RunExists` | vllm/vllm/_xpu_ops.py:546-715 | every split of every history into calls can be run |
| `ScanSplits.EverySplitAgrees` | vllm/vllm/_xpu_ops.py:546-715 | for every step function, history, block size and split there is a run whose outputs are, token for token, those of one uninterrupted scan, and which leaves that scan's final state in the last block |
| `ScanLaunch.CellsAfterLaunch` | vllm/vllm/_xpu_ops.py:680-715 | what a whole launch leaves in a request's slots is what its own program leaves there, if no other row stores to them |
| `ScanLaunch.BuiltIsValid` | vllm/vllm/v1/attention/backends/mamba_attn.py:227-287 | a row of any batch the builder makes can be run, if its tokens are in place and it owns its blocks |
| `ScanLaunch.ReadySeparates` | vllm/vllm/_xpu_ops.py:905-967 | rows that keep off each other's slots, shared cached prefixes included, make the grid order-free |
| `ScanLaunch.SkippedIsLeftAlone` | vllm/vllm/_xpu_ops.py:508-522 | the tokens of a row whose load block is the null block are left as they were, with and without prefix caching |
| `ScanLaunch.ReadyIsServed` | vllm/vllm/_xpu_ops.py:546-715 | a launch that ends in the out-of-place result serves every row that is not skipped, in every dimension, and leaves skipped rows alone |
| `ScanLaunch.LaunchBatch` | vllm/vllm/_xpu_ops.py:905-967 | after the grid has run in place over real arrays, in any order, every row of the batch that is not skipped has, in every dimension, in `delta` the outputs of its uninterrupted scan and in the state cache a right cache again; null-block rows are left alone |
| `ScanLaunch.LaunchExists` | vllm/vllm/_xpu_ops.py:905-967 | such a launch exists, with one row, for every history, position and right cache |
| `ScanShared.SharedIsBuilt` | vllm/vllm/v1/attention/backends/mamba_attn.py:227-287 | the metadata of three requests, two of which share their first block, is what the builder produces |
| `ScanShared.SharedIsReady` | vllm/vllm/_xpu_ops.py:905-967 | such a launch exists with several rows: for every history of one block and a token, two rows that resume from the same cached block, and a third that is skipped |
| `ScanUncached.SlotIs` | vllm/vllm/_xpu_ops.py:508-524 | without prefix caching a row loads from and stores to the first cache index it is given, or its own number if there are none, and is skipped exactly when that index is the null block |
| `ScanUncached.StartsFrom` | vllm/vllm/_xpu_ops.py:546-558 | the kernel starts from the state in the row's slot if the metadata says there is one, else from zero: in both cases from the state of the uninterrupted scan |
| `ScanUncached.Follows` | vllm/vllm/_xpu_ops.py:613-678 | from there its recurrence follows the uninterrupted scan token by token |
| `ScanUncached.StateLeft` | vllm/vllm/_xpu_ops.py:706-715 | the state after the last token is left in the same slot |
| `ScanUncached.RowDone` | vllm/vllm/_xpu_ops.py:417-715 | one row of one launch without prefix caching: if its slot holds the uninterrupted scan's state after the tokens computed so far, then every scheduled token's element of `delta` gets that scan's output, its element of `z` the gate of that output and the old `z`, and the slot holds that scan's state after these tokens; for fixed and variable lengths, with and without cache indices |
| `ScanUncached.NullUntouched` | vllm/vllm/_xpu_ops.py:516-522 | the tokens of a null-block row are in no program's cells and stay as they were |
| `ScanUncached.OtherSlotKept` | vllm/vllm/_xpu_ops.py:706-715 | a slot that no running row owns keeps its state |
| `ScanUncached.LaunchPlain` | vllm/vllm/_xpu_ops.py:905-967 | the whole grid over real arrays, in any order, without prefix caching: every row that is not null is served in every dimension, null rows and all other slots are left alone, if no two rows share a slot |
| `ScanUncached.TurnsDone` | vllm/vllm/_xpu_ops.py:546-715 | however a history is split over launches, with other launches in between, each launch that finds in its slot what the one before left there gives the outputs of one uninterrupted scan and leaves its state |
| `ScanTurns.TurnsExist` | vllm/vllm/_xpu_ops.py:417-715 | such a run exists for every history, split, slot and cache contents, with fixed or variable length, with or without cache indices |
| `ScanTurns.EverySplitDone` | vllm/vllm/_xpu_ops.py:417-715 | hence for every step function, history and split there is a run without prefix caching in which every launch gives the outputs of one uninterrupted scan and leaves its state |
| `ScanTurns.PlainLaunchExists` | vllm/vllm/_xpu_ops.py:905-967 | a launch as the theorem on whole grids takes it exists for every part of every history |
| `Quantizer.Round` | vllm/vllm/_xpu_ops.py:725-755 | rounding moves a value by at most one half |
| `Quantizer.RoundIff` | vllm/vllm/_xpu_ops.py:744-749 | the rounded value is the nearest integer, and the even one of two that are equally near |
| `Quantizer.ClampReach` | vllm/vllm/_xpu_ops.py:743-749 | before any cast: the final clamp never acts in symmetric mode; in asymmetric mode only from above and by one step |
| `Quantizer.StoredReach` | vllm/vllm/_xpu_ops.py:743-749 | the same with the zero point as stored, when it fits 32 bits |
| `Quantizer.ReachBound` | vllm/vllm/_xpu_ops.py:725-755 | a value in reach is quantised into range and comes back within half a step |
| `Quantizer.ErrorBound` | vllm/vllm/_xpu_ops.py:733-749 | before any cast: for every row, both modes and at least 2 bits, values lie in [qmin, qmax] and the error is at most scale / 2, also where the clamp acts |
| `Quantizer.ErrorBoundIff` | vllm/vllm/_xpu_ops.py:725-755 | with both casts: in range and within half of the returned scale, whatever a cast makes of a number it has no room for, if and only if the rounded zero point lies strictly within 32 bits and the ends of the row fit 8 bits, which they always do for at most 8 bits; that the scale is no coarser than it must be is `Quantizer.ScaleIsFinest` |
| `Quantizer.Ranges` | vllm/vllm/_xpu_ops.py:733-736 | the ranges have 2^bits numbers, symmetric ones one more below zero than above: -128 to 127 and 0 to 255 for 8 bits |
| `Quantizer.ScaleIsFinest` | vllm/vllm/_xpu_ops.py:737-744 | the returned scale is the least one that is not below 1e-5 and covers the row: the largest number reaches every value from zero, or in asymmetric mode the largest value from the smallest |
| `Quantizer.SymmetricFills` | vllm/vllm/_xpu_ops.py:737-750 | in symmetric mode, unless the scale is 1e-5, some value of the row is stored as qmax or -qmax, and none beyond |
| `Quantizer.AsymmetricFills` | vllm/vllm/_xpu_ops.py:737-750 | in asymmetric mode the smallest value is stored as 0 and, unless the scale is 1e-5, the largest as one of the two largest numbers |
| `Quantizer.SymmetricIff` | vllm/vllm/_xpu_ops.py:733-750 | in symmetric mode every row is served exactly when at most 8 bits are asked for |
| `Quantizer.LargeRowFails` | vllm/vllm/_xpu_ops.py:744 | the row [30000.0] loses its zero point, -3000000000, in the cast to int32 |
| `Quantizer.NineBitsFail` | vllm/vllm/_xpu_ops.py:750 | the row [0.0, 511.0] quantised to 9 bits loses 511 in the cast to uint8 |
| `Quantizer.ClampActs` | vllm/vllm/_xpu_ops.py:725-755 | the clamp does act for some row |
| `Chunking.BaseChunk` | vllm/csrc/cumem_allocator.cpp:25-43 | the configured chunk size is a positive whole number of megabytes within 64 bits, for every setting, valid or not |
| `Chunking.BaseChunkIs` | vllm/csrc/cumem_allocator.cpp:25-43 | a number of megabytes is taken as it is if it is not 0 and its bytes fit 64 bits; every other setting gives 256 megabytes |
| `Chunking.AlignUpExact` | vllm/csrc/cumem_allocator.cpp:343 | with 64-bit wrap-around, rounding up is right exactly when its sum does not wrap |
| `Chunking.GuardDoesNotCoverRounding` | vllm/csrc/cumem_allocator.cpp:36-43 | the largest setting the guard lets through rounds to 0 |
| `Chunking.ChunksTile` | vllm/csrc/cumem_allocator.cpp:366-393 | the chunk sizes are positive multiples of the granularity, sum to the aligned size and tile it without gap or overlap |
| `Chunking.TilesIff` | vllm/csrc/cumem_allocator.cpp:371-393 | with 64-bit wrap-around the chunks tile the rounded size exactly when the sum behind their number does not wrap |
| `Chunking.ChunkSizes` | vllm/csrc/cumem_allocator.cpp:366-393 | the filling loop computes those chunk sizes |
| `Chunking.PlanTiles` | vllm/csrc/cumem_allocator.cpp:343-393 | for every size, granularity and setting without wrap-around the plan tiles the rounded size |
| `Chunking.PlanTilesIff` | vllm/csrc/cumem_allocator.cpp:343-393 | for every size, granularity and setting, wherever the sums wrap: there is a chunk size to divide by, the rounded size covers the request and the chunks tile it exactly when none of the three sums wraps |
| `Driver.CreateAllAdds` | vllm/csrc/cumem_allocator.cpp:174-182 | creation adds exactly the returned handles, all new and different |
| `Driver.MapAllAdds` | vllm/csrc/cumem_allocator.cpp:184-202 | mapping adds exactly the chunks before the first failure, and the driver refuses no call |
| `Driver.UnmapAllRemoves` | vllm/csrc/cumem_allocator.cpp:240-247 | for every failure pattern, unmapping removes exactly the chunks whose call succeeded, at the offsets they were mapped at |
| `Driver.UnmapsAll` | vllm/csrc/cumem_allocator.cpp:240-247 | if no unmap fails the whole block is unmapped |
| `Driver.ReleaseAllRemoves` | vllm/csrc/cumem_allocator.cpp:249-254 | for every failure pattern, release removes exactly the handles whose call succeeded, none twice |
| `Driver.ReleasesAll` | vllm/csrc/cumem_allocator.cpp:249-254 | if no release fails all handles are released |
| `Driver.FirstErrorIs` | vllm/csrc/cumem_allocator.cpp:237-258 | the reported error is the first failure, and none if all succeed |
| `Mapping.CreateResidue` | vllm/csrc/cumem_allocator.cpp:174-182 | a failed creation leaves exactly the handles whose release failed |
| `Mapping.MapResidue` | vllm/csrc/cumem_allocator.cpp:184-202 | a failed mapping leaves exactly the chunks and handles whose rollback calls failed |
| `Mapping.AtomicIff` | vllm/csrc/cumem_allocator.cpp:174-203 | a failing `create_and_map`, at any index, restores live handles and mappings if and only if every rollback call succeeds |
| `Mapping.AllOrNothing` | vllm/csrc/cumem_allocator.cpp:119-216 | if no rollback call fails and the access can be set, `create_and_map` maps the whole block or changes nothing, and fails exactly when a creation or mapping fails |
| `Mapping.TeardownIsBestEffort` | vllm/csrc/cumem_allocator.cpp:219-262 | for every failure pattern each chunk and handle is tried once, only failed ones stay, and the error is the first in unmap-then-release order |
| `Mapping.TeardownRemoves` | vllm/csrc/cumem_allocator.cpp:219-262 | if no unmap and no release fails, exactly the block is removed |
| `Mapping.StaleErrorLeaks` | vllm/csrc/cumem_allocator.cpp:174-182 | with an error code left over from an earlier call one live handle is leaked, unless that creation fails |
| `Mapping.AccessFailureKeepsMapping` | vllm/csrc/cumem_allocator.cpp:206-214 | a failure to set access is reported and nothing is undone |
| `Allocator.State.constructor` | vllm/csrc/cumem_allocator.cpp:83-96 | the globals start with no error and an empty device |
| `Allocator.State.Check` | vllm/csrc/cumem_allocator.cpp:83-96 | a failing status is recorded, a good one keeps the old error |
| `Allocator.State.CreateChunks` | vllm/csrc/cumem_allocator.cpp:174-182 | the creation loop with its rollback, also with a stale error code |
| `Allocator.State.MapChunks` | vllm/csrc/cumem_allocator.cpp:183-203 | the mapping loop with its rollback |
| `Allocator.State.UndoMapping` | vllm/csrc/cumem_allocator.cpp:188-200 | the rollback unmaps the chunks mapped so far and releases all handles |
| `Allocator.State.CreateAndMapBlock` | vllm/csrc/cumem_allocator.cpp:119-216 | the method computes the specified outcome for device, error code and handle cells |
| `Allocator.State.UnmapAndReleaseBlock` | vllm/csrc/cumem_allocator.cpp:219-262 | likewise for best-effort teardown |
| `Allocator.State.MyMalloc` | vllm/csrc/cumem_allocator.cpp:323-450 | likewise for allocation, with host failure after reserving as an input |
| `Allocator.State.MyFree` | vllm/csrc/cumem_allocator.cpp:454-562 | likewise for freeing |
| `Allocator.State.PythonUnmapAndRelease` | vllm/csrc/cumem_allocator.cpp:590-686 | likewise for sleep, and whether it raises; what that means for the error code is `AllocatorErrors.StepErr` |
| `Allocator.State.PythonCreateAndMap` | vllm/csrc/cumem_allocator.cpp:688-753 | likewise for wake-up, and whether it raises; what that means for the error code is `AllocatorErrors.StepErr` |
| `AllocatorRuns.ReserveRocmAdds` | vllm/csrc/cumem_allocator.cpp:50-71 | a reservation is aligned and lands where nothing is reserved; a failed one leaves nothing exactly when a misaligned one could be given back |
| `AllocatorRuns.MallocKeeps` | vllm/csrc/cumem_allocator.cpp:323-450 | a safe allocation keeps the invariant on success and on every failure path |
| `AllocatorRuns.MallocReturns` | vllm/csrc/cumem_allocator.cpp:323-450 | whatever the driver does, a returned block is awake, fresh and large enough, and null is returned exactly when no block becomes awake |
| `AllocatorRuns.SleepKeeps` | vllm/csrc/cumem_allocator.cpp:590-686 | sleep of an awake block in which no unmap and no release fails keeps the invariant and raises exactly on a stale error |
| `AllocatorRuns.WakeKeeps` | vllm/csrc/cumem_allocator.cpp:688-753 | a safe wake-up keeps the invariant whether it succeeds or fails |
| `AllocatorRuns.FreeKeeps` | vllm/csrc/cumem_allocator.cpp:454-562 | a safe free keeps the invariant and the block is no longer live |
| `AllocatorRuns.StepKeeps` | vllm/csrc/cumem_allocator.cpp:323-753 | every safe step keeps the invariant: the call is allowed, and no rollback, teardown, address-free or set-access call in it fails |
| `AllocatorRuns.RunSafe` | vllm/csrc/cumem_allocator.cpp:323-753 | at every point of every run of safe steps: reservations are the live blocks and disjoint, awake blocks are wholly mapped to live handles of their own, nothing else is live or mapped, and no driver call was illegal, so no handle is released twice |
| `AllocatorRuns.WhollyMapped` | vllm/csrc/cumem_allocator.cpp:174-262 | address for address, a live reservation is mapped exactly when its block is awake |
| `AllocatorRuns.MappedApart` | vllm/csrc/cumem_allocator.cpp:174-262 | mapped ranges are disjoint |
| `AllocatorRuns.RunMapsWhole` | vllm/csrc/cumem_allocator.cpp:323-753 | both of these at every point of every run of safe steps |
| `AllocatorRuns.NothingLeft` | vllm/csrc/cumem_allocator.cpp:454-562 | with no live block, the device holds no reservation, handle or mapping |
| `AllocatorRuns.RunLeavesNothing` | vllm/csrc/cumem_allocator.cpp:323-753 | after all frees of a run of safe steps nothing remains and the driver refused nothing |
| `AllocatorLimits.Determined` | vllm/csrc/cumem_allocator.cpp:174-262 | what the invariant says is mapped and live depends on the awake blocks alone |
| `AllocatorLimits.TeardownResidue` | vllm/csrc/cumem_allocator.cpp:219-262 | for every driver: a teardown removes exactly the block's mappings if and only if no unmap fails, and exactly its mappings and handles if and only if no call fails |
| `AllocatorLimits.SleepIff` | vllm/csrc/cumem_allocator.cpp:590-686 | for every driver: putting any live block to sleep is free of refused calls exactly when it is awake, and keeps the invariant exactly when moreover no unmap and no release fails |
| `AllocatorLimits.FreeRefusedIff` | vllm/csrc/cumem_allocator.cpp:454-562 | for every driver: freeing any live block with any size is free of refused calls exactly when it is awake, the size is the rounded one and no unmap fails |
| `AllocatorLimits.RangeLeaksIff` | vllm/csrc/cumem_allocator.cpp:538-562 | for every driver: an awake block's range stays reserved exactly when `my_free` is handed another size, an unmap fails or the address-free call does |
| `AllocatorLimits.FreeIff` | vllm/csrc/cumem_allocator.cpp:454-562 | for every driver: freeing any live block keeps the invariant exactly when it is awake, the size is the rounded one and no unmap, release or address-free call fails |
| `AllocatorLimits.WakeAwake` | vllm/csrc/cumem_allocator.cpp:688-753 | waking an awake block always raises, and the driver refuses a call unless no handle can be created |
| `AllocatorLimits.WakeIff` | vllm/csrc/cumem_allocator.cpp:688-753 | for every driver: waking any live block, with any error left over, keeps the invariant exactly when it sleeps and, without an old error, no rollback or set-access call fails, or, with one, nothing can be created |
| `AllocatorLimits.RolledBackRange` | vllm/csrc/cumem_allocator.cpp:184-202 | after a failed `create_and_map` the block's range holds no mapping exactly when no rollback unmap failed |
| `AllocatorLimits.MallocIff` | vllm/csrc/cumem_allocator.cpp:323-450 | for every driver: allocation keeps the invariant exactly when the host side does not fail after an address range was reserved and no rollback, set-access or address-free call fails |
| `AllocatorLimits.NullLeaksIff` | vllm/csrc/cumem_allocator.cpp:343-450 | for every driver: an allocation that returns null changes the reservations exactly when a misaligned range could not be given back, or a range was reserved and the host side failed, the access could not be set, a rollback unmap failed or the range could not be given back |
| `AllocatorLimits.AccessFailureLeaks` | vllm/csrc/cumem_allocator.cpp:206-214 | if only the access can not be set, `my_malloc` returns null with its range reserved, its chunks mapped and its handles live, and the driver refuses to free the range |
| `AllocatorLimits.DeadHandlesRefused` | vllm/csrc/cumem_allocator.cpp:240-254 | putting an entry with a dead handle to sleep makes the driver refuse its release |
| `AllocatorLimits.FailedEntryRefused` | vllm/csrc/cumem_allocator.cpp:412-448 | an allocation that fails after it was registered and is rolled back leaves an entry whose sleep is refused |
| `AllocatorLimits.StepKeepsIff` | vllm/csrc/cumem_allocator.cpp:323-753 | for every driver, of all calls the entry points accept on live blocks: a step keeps the invariant if and only if the call is allowed and no rollback, teardown, address-free or set-access call in it fails |
| `AllocatorLimits.RunSafeIff` | vllm/csrc/cumem_allocator.cpp:323-753 | for every driver: the invariant holds throughout a run of any such calls if and only if every step is safe |
| `AllocatorLimits.SleepThenFree` | vllm/csrc/cumem_allocator.cpp:454-562 | allocate, sleep, free: once the block is asleep, for every size freed with, unmapping and a second release are refused |
| `AllocatorLimits.FailingRunExists` | vllm/csrc/cumem_allocator.cpp:454-562 | such a run, with a driver that fails no call |
| `AllocatorErrors.LastErrorIs` | vllm/csrc/cumem_allocator.cpp:85-98 | folding the check over statuses keeps the code if all are OK and else leaves the last one that failed |
| `AllocatorErrors.MapErr` | vllm/csrc/cumem_allocator.cpp:174-214 | `create_and_map` leaves the last failing status of its checked calls, also on top of an old error |
| `AllocatorErrors.StepErr` | vllm/csrc/cumem_allocator.cpp:323-753 | the code after every entry point: sleep and wake-up raise exactly if the code is set at their end and clear it; `my_malloc` and `my_free` leave the last failing status of their checked calls, or the code they found |
| `AllocatorErrors.RunErr` | vllm/csrc/cumem_allocator.cpp:323-753 | at every point of every run the code is the last failing status of the checked calls since the last sleep or wake-up, or OK |
| `AllocatorErrors.StuckIff` | vllm/csrc/cumem_allocator.cpp:323-753 | it is set exactly when some allocation or free failed a checked call and neither a sleep nor a wake-up came after |
| `AllocatorErrors.NullIff` | vllm/csrc/cumem_allocator.cpp:323-450 | `my_malloc` returns null exactly when the host fails, a checked call of it fails or the code was set before, and then it leaves code and table alone |
| `AllocatorErrors.WakeRetry` | vllm/csrc/cumem_allocator.cpp:688-753 | a safe wake-up that raised can be repeated: the code is clear and the block still asleep, and if no call fails this time the block is awake and nothing raised |
| `AllocatorErrors.RetriesSucceed` | vllm/csrc/cumem_allocator.cpp:688-753 | however many safe wake-ups raised, the next one raises exactly if one of its checked calls fails, and else leaves the block awake |
| `AllocatorErrors.CreateAllStatus` | vllm/csrc/cumem_allocator.cpp:174-183 | creation ends at its first failing call and reports that status |
| `AllocatorErrors.MapAllStatus` | vllm/csrc/cumem_allocator.cpp:185-203 | so does mapping, where it is legal |
| `AllocatorErrors.ReserveRocmIff` | vllm/csrc/cumem_allocator.cpp:50-71 | a reservation succeeds exactly if the aligned attempt does or, with an alignment, the second one lands aligned; otherwise it reports the second refusal, or that alignment is not supported |
| `AllocatorErrors.MallocSize` | vllm/csrc/cumem_allocator.cpp:343-450 | a returned block is aligned to the granularity, has the size asked for rounded up to the next multiple and no farther, and the planned chunks |
| `AllocatorErrors.WakeCells` | vllm/csrc/cumem_allocator.cpp:688-753 | a wake-up leaves in each cell the handle it created for it, also when it failed and released that handle again; on top of an old error only in the first |
| `AllocatorErrors.TableFrame` | vllm/csrc/cumem_allocator.cpp:323-753 | entries of other live blocks are left alone; sleeping and waking keep sizes, and sleeping the cells |
| `GraphPartition.PartitionSignatures` | vllm/vllm/env_override.py:198-336 | the reverse loop gives the signature of every partition, with its own skip flag, and fails exactly when a returned name has no node; `PartitionMarks.FieldsAre` says what the fields are |
| `GraphPartition.HeldBySignatures` | vllm/vllm/env_override.py:282-330 | the forward run is the signatures at work: inputs are consumed, outputs given back |
| `PartitionMarks.FieldsAre` | vllm/vllm/env_override.py:232-326 | field by field: the inputs are the named buffers some node uses or is the last to use and none here produces, under their real names; constants are the inputs that are constants; an input is marked deallocated exactly if a node here is the last to use it; the skip flag is that of the partition |
| `PartitionMarks.ReturnedIsNeeded` | vllm/vllm/env_override.py:240-313 | a partition returns nothing but inputs it keeps and buffers it produces that the graph returns or a later partition takes |
| `PartitionMarks.MarkedIff` | vllm/vllm/env_override.py:282-313 | an input is deallocated if and only if it is not returned |
| `PartitionMarks.MarksAgree` | vllm/vllm/env_override.py:282-330 | a forward run that drops exactly the inputs marked as deallocated and keeps the others holds, at every point, what a run holds that consumes every input and gets back what is returned |
| `PartitionMarks.MarkedRunServes` | vllm/vllm/env_override.py:212-336 | in that run every allocated input is held when its partition runs |
| `PartitionMarks.MarkedRunReturns` | vllm/vllm/env_override.py:212-336 | and every allocated graph output at the end |
| `PartitionMarks.MarkedIsDone` | vllm/vllm/env_override.py:268-291 | no later partition takes a deallocated buffer, and no graph output is in it |
| `PartitionMarks.FreedIsMarkedOnce` | vllm/vllm/env_override.py:268-291 | a buffer that is freed outside the partition that produced it is marked deallocated there and nowhere else |
| `PartitionMarks.SignaturesServe` | vllm/vllm/env_override.py:198-336 | for well-formed graphs the function returns, and a run by the marks is served |
| `PartitionMarks.IsNoneIff` | vllm/vllm/env_override.py:215-233 | where renamings do not go round in circles the layout test is the recursion of the code: an unallocated mutation output is what the buffer it mutates is |
| `GraphPartition.InputsAreReal` | vllm/vllm/env_override.py:252-280 | partition inputs carry real names |
| `GraphPartition.FreedIsNotNeeded` | vllm/vllm/env_override.py:268-280 | a buffer a partition frees is not needed after it |
| `GraphPartition.NeedsAlwaysHeld` | vllm/vllm/env_override.py:212-336 | before every partition, everything still unmet that exists by then is held |
| `GraphPartition.InputsPresent` | vllm/vllm/env_override.py:212-336 | every allocated input of a partition is held when it runs |
| `GraphPartition.ReadsPresent` | vllm/vllm/env_override.py:212-336 | every allocated buffer a partition reads or writes is produced in it or held when it runs |
| `GraphPartition.OutputsPresent` | vllm/vllm/env_override.py:212-336 | every allocated graph output is held at the end |
| `GraphPartition.WellFormedServed` | vllm/vllm/env_override.py:212-336 | with settled renamings a forward run lacks no input and no graph output |
| `GraphPartition.ReturnsAreHeld` | vllm/vllm/env_override.py:293-313 | a partition returns only what it was given or produced and did not free |
| `GraphPartition.NothingMissing` | vllm/vllm/env_override.py:305-313 | the node lookup of a returned name never fails |
| `GraphPartition.NoneInputIff` | vllm/vllm/env_override.py:215-280 | a partition takes a buffer without a layout exactly when it frees one it did not produce |
| `GraphPartition.NoneBecomesInput` | vllm/vllm/env_override.py:215-280 | a graph where that happens, against the docstring |
| `GraphPartition.SafeRenamingIff` | vllm/vllm/env_override.py:264-307 | a map of renamings is safe for every otherwise well-formed graph if and only if it is settled in one step |
| `GraphPartition.ChainLosesBuffer` | vllm/vllm/env_override.py:264-307 | for every renaming that is not, a well-formed graph whose second partition takes a buffer nobody holds |
| `GraphPartition.ChainedRenamingLosesBuffer` | vllm/vllm/env_override.py:264-307 | that graph for two mutations in a row |
| `BuildTime.SharesAreConserved` | vllm/tools/report_build_time_ninja.py:207-256 | the shares of all targets add up to the time in which any ran |
| `BuildTime.BusyIsLengthIff` | vllm/tools/report_build_time_ninja.py:207-256 | that time is the whole length exactly when there is no idle gap |
| `BuildTime.ShareBounds` | vllm/tools/report_build_time_ninja.py:74-92 | a share lies between an n-th of the duration and the duration |
| `BuildSweep.RunningBetween` | vllm/tools/report_build_time_ninja.py:230-255 | between two events the sweep's running tasks are those whose interval covers the time |
| `BuildSweep.StopFindsTask` | vllm/tools/report_build_time_ninja.py:248-254 | a stop event finds its target running exactly when that target does not end before it starts |
| `BuildSweep.Advance` | vllm/tools/report_build_time_ninja.py:240-244 | the accumulated weighted time is the share of the time so far |
| `BuildSweep.SweepEvent` | vllm/tools/report_build_time_ninja.py:238-255 | one event keeps clock, running tasks and totals right, or fails |
| `BuildSweep.Sweep` | vllm/tools/report_build_time_ninja.py:223-256 | for any order of simultaneous events: fails exactly on no events or a task that ends before it starts, else gives every target its share and their sum, with no task left running |
| `BuildSweep.Extent` | vllm/tools/report_build_time_ninja.py:209-219 | the first loop finds the latest end and, for non-negative starts, the earliest start, and adds up the durations |
| `BuildSweep.DurationsAreLoad` | vllm/tools/report_build_time_ninja.py:209-219 | the CPU time adds up, millisecond by millisecond, the targets that run; it is less exactly when a target ends before it starts |
| `BuildSweep.TotalIsLengthIff` | vllm/tools/report_build_time_ninja.py:220-256 | the weighted total is the length of the build exactly when it has no idle gap, and never more |
| `NinjaLog.ReadTargets` | vllm/tools/report_build_time_ninja.py:104-148 | fails exactly on another header, else reports the kept records (all of them with show_all) grouped by hash |
| `NinjaLog.RecordsAreSelected` | vllm/tools/report_build_time_ninja.py:113-119 | only malformed lines are passed over, and the records keep their order |
| `NinjaLog.GroupsAreFounded` | vllm/tools/report_build_time_ninja.py:132-147 | in every log, groups come in the order of their first records and have the times of these |
| `NinjaLog.ReadLine` | vllm/tools/report_build_time_ninja.py:114-147 | one line of the log, malformed or not, keeps that relation |
| `NinjaLog.GroupsAreExact` | vllm/tools/report_build_time_ninja.py:132-147 | groups have distinct hashes, every record has a group, and a group's names are exactly those of its records in order |
| `NinjaLog.NamesAreConserved` | vllm/tools/report_build_time_ninja.py:144-147 | as many names as records |
| `NinjaLog.GroupTimes` | vllm/tools/report_build_time_ninja.py:132-145 | in one build a group carries the times of all its records |
| `NinjaLog.KeptIsSuffix` | vllm/tools/report_build_time_ninja.py:112-148 | what is kept is a contiguous suffix of the well-formed lines |
| `NinjaLog.KeptIsOneBuild` | vllm/tools/report_build_time_ninja.py:124-146 | in it end times never decrease and equal hashes have equal times |
| `NinjaLog.KeptIff` | vllm/tools/report_build_time_ninja.py:124-146 | records are thrown away exactly when they and the new one are not one build |
| `NinjaLog.AllKeptIff` | vllm/tools/report_build_time_ninja.py:124-146 | nothing is thrown away exactly when the whole log is one build |
| `NinjaLog.DropsAll` | vllm/tools/report_build_time_ninja.py:124-146 | one kept record the new one does not follow costs everything kept |
| `NinjaLog.LongestIff` | vllm/tools/report_build_time_ninja.py:124-146 | what is kept is the longest suffix that is one build exactly when nothing was thrown away or the last record thrown away is not followed by all that is kept |
| `NinjaLog.StaysLongestIff` | vllm/tools/report_build_time_ninja.py:124-146 | if the longest one-build suffix is kept, one record more keeps it so exactly when it costs nothing or does not follow the record before it: a reset by end time loses nothing, a reset by a clash does unless it is with the last record |
| `NinjaLog.KeptIsNotLongest` | vllm/tools/report_build_time_ninja.py:133-143 | a log whose clash throws away a record that could be kept |
| `BadWords.NoBadWords.constructor` | vllm/vllm/logits_process.py:52-54 | a processor starts without a table |
| `BadWords.NoBadWords.CheckTokenIdsBounds` | vllm/vllm/logits_process.py:106-121 | collects exactly the ids outside the vocabulary, in order |
| `BadWords.InvalidIff` | vllm/vllm/logits_process.py:106-121 | none is collected exactly when all ids are inside |
| `BadWords.InvalidPicks` | vllm/vllm/logits_process.py:106-121 | the ids collected are those outside the vocabulary, all of them, in the order of the words and each as often as the words have it |
| `BadWords.NoBadWords.InitWordBias` | vllm/vllm/logits_process.py:89-104 | builds the table of one-token words, or reports the ids and builds nothing |
| `BadWords.NoBadWords.LastTokenBias` | vllm/vllm/logits_process.py:64-83 | the loop over longer words marks exactly the tokens that complete one |
| `BadWords.MatchCompletes` | vllm/vllm/logits_process.py:73-83 | the prefix comparison decides which token makes the word a suffix |
| `BadWords.NoBadWords.Call` | vllm/vllm/logits_process.py:56-87 | the table is built by the first call that passes the check and never changes; with its vocabulary size the reply is the masked logits, with another size an error or the stretched sum |
| `BadWords.OnlyEmptyWordsFail` | vllm/vllm/logits_process.py:64-79 | within the vocabulary a call fails exactly when some word is empty |
| `BadWords.MaskingIsExact` | vllm/vllm/logits_process.py:61-87 | a finite logit becomes minus infinity exactly when the token completes a banned word, else is unchanged |
| `BadWords.PickableIff` | vllm/vllm/logits_process.py:61-87 | for any logits, a token stays pickable exactly when it was and completes no banned word |
| `BadWords.InfiniteLogitBecomesNaN` | vllm/vllm/logits_process.py:85 | a banned logit becomes minus infinity exactly when it was neither plus infinity nor not a number |
| `BadWords.CleanExtends` | vllm/vllm/logits_process.py:64-83 | appending a token keeps a history clean exactly when it completes no banned word |
| `BadWords.NeverAppear` | vllm/vllm/logits_process.py:56-87 | no banned word ever appears in a generation from a clean history, whatever the logits |
| `BadWords.CleanIsReachable` | vllm/vllm/logits_process.py:56-87 | every clean continuation the model could produce is still produced |
| `BadWords.Generate` | vllm/vllm/logits_process.py:56-87 | generation through one processor object, whose first call builds the table: the history stays clean, and each pick is accepted exactly when its processed logit is above minus infinity |
| `ClientQueue.Extraction.constructor` | vllm/benchmarks/benchmark_hidden_state_extraction.py:238-246 | fills the queue with every prompt and its index, then one sentinel for each client |
| `ClientQueue.Extraction.TakeStep` | vllm/benchmarks/benchmark_hidden_state_extraction.py:142-147 | taking an item starts a job or stops the client |
| `ClientQueue.Extraction.FinishStep` | vllm/benchmarks/benchmark_hidden_state_extraction.py:169-176 | finishing a job appends its result |
| `ClientQueue.Launch` | vllm/benchmarks/benchmark_hidden_state_extraction.py:238-256 | with no clients nothing starts, else the run starts with all prompts queued |
| `ClientQueue.StepKeeps` | vllm/benchmarks/benchmark_hidden_state_extraction.py:142-176 | every step of any client keeps the invariant and uses up exactly one unit of the work left |
| `ClientQueue.Conserved` | vllm/benchmarks/benchmark_hidden_state_extraction.py:142-176 | in every interleaving running clients equal sentinels left, each prompt is exactly one of queued, in flight and in results, and the unfinished count is right |
| `ClientQueue.NeverWaits` | vllm/benchmarks/benchmark_hidden_state_extraction.py:143 | no client ever waits on an empty queue |
| `ClientQueue.NoDeadlock` | vllm/benchmarks/benchmark_hidden_state_extraction.py:142-176 | some step is possible exactly while some client has not stopped |
| `ClientQueue.StopsAfter` | vllm/benchmarks/benchmark_hidden_state_extraction.py:248-256 | every interleaving stops after exactly two steps for each prompt and one for each client |
| `ClientQueue.DeliversExactlyOnce` | vllm/benchmarks/benchmark_hidden_state_extraction.py:238-256 | then every prompt is in the results once, the queue is empty and all items are marked done |
| `ClientQueue.ResultsDistinct` | vllm/benchmarks/benchmark_hidden_state_extraction.py:169-175 | no two results are for the same prompt |
| `SpinLoop.NoLostWakeUp` | vllm/csrc/spinloop.cpp:126-151 | in every interleaving with a writer: if the loop waits and the condition is true, the monitor has been triggered and the wait can end |
| `SpinLoop.StopsAtFirstDecision` | vllm/csrc/spinloop.cpp:93-168 | the loop stops at the first observation that decides: true after a true callback, false after a clock reading that reached the timeout, an exception after a failed call; with a timeout of at most 1e-9 it never returns false |
| `SpinLoop.ClockEverySixteenPasses` | vllm/csrc/spinloop.cpp:107-124 | with a timeout above 1e-9 the clock is read in every sixteenth pass, also across the counter's wrap-around, and otherwise never |
| `SpinLoop.MonitorDecides` | vllm/csrc/spinloop.cpp:93-168 | the loop arms, checks again and sleeps only with a monitor, and pauses only without; back at the start of a pass it has slept on every monitor it armed, and has called back twice per pass with a monitor, once without |
| `SpinLoop.Wraps` | vllm/csrc/spinloop.cpp:109-124 | the 32-bit wrap-around does not shift the passes that read the clock |
| `SpinLoop.StopsSoon` | vllm/csrc/spinloop.cpp:93-168 | once the condition stays true, the loop takes at most three more steps |
| `SpinLoop.NeverStuck` | vllm/csrc/spinloop.cpp:93-168 | the loop has a next step exactly while it has not returned |
| `ShmRing.StepKeeps` | vllm/vllm/distributed/device_communicators/shm_broadcast.py:549-725 | every read or write of one flag or block by the writer or a reader keeps the ring's invariant |
| `ShmRing.ReceivesInOrder` | vllm/vllm/distributed/device_communicators/shm_broadcast.py:549-725 | in every interleaving each reader receives the messages in the order sent, each once and none skipped, and everything it looked at was that message |
| `ShmRing.NoTornRead` | vllm/vllm/distributed/device_communicators/shm_broadcast.py:549-725 | while a reader is in a block the writer is not, and the block holds the whole message |
| `ShmRing.ChecksAreExact` | vllm/vllm/distributed/device_communicators/shm_broadcast.py:556-560 | the writer's check would pass exactly when all readers have finished the message one lap back, a reader's exactly when it has an unread message |
| `ShmRing.NoDeadlock` | vllm/vllm/distributed/device_communicators/shm_broadcast.py:549-725 | in every interleaving, at every point, the writer's check would pass or some reader's would; that a check that would pass lets its side proceed is `ShmProgress.ScanSucceeds` and `ShmProgress.ReadSucceeds` |
| `ShmProgress.ScanSucceeds` | vllm/vllm/distributed/device_communicators/shm_broadcast.py:549-618 | if all readers have passed when the writer starts to look, the check it then finishes lets it take the block, whatever the readers do meanwhile; so a check that sends it back was begun with a reader behind |
| `ShmProgress.ClearIsPassed` | vllm/vllm/distributed/device_communicators/shm_broadcast.py:556-560 | a writer past its check has no reader behind it |
| `ShmProgress.ScanAloneIff` | vllm/vllm/distributed/device_communicators/shm_broadcast.py:549-618 | looking on its own, the writer may take the block exactly if all readers have passed, and else is back where it started |
| `ShmProgress.ReadSucceeds` | vllm/vllm/distributed/device_communicators/shm_broadcast.py:665-725 | if a message is unread when a reader starts to look, its check lets it read, whatever the others do meanwhile |
| `ShmProgress.LookIff` | vllm/vllm/distributed/device_communicators/shm_broadcast.py:665-725 | reading its flag and then the written flag on its own, a reader gets into the block exactly if a message is unread |
| `ShmProgress.AlwaysDelivers` | vllm/vllm/distributed/device_communicators/shm_broadcast.py:549-725 | from every reachable state and for every further sequence of messages there is a run that sends them, after a block just being published, and in which every reader receives all that was sent and sees each of these messages once |
| `ShmProgress.EverySequence` | vllm/vllm/distributed/device_communicators/shm_broadcast.py:549-725 | every sequence of messages can be sent and received by everyone from the start, each message seen once by each reader |
| `ShmRing.ReadableIff` | vllm/vllm/distributed/device_communicators/shm_broadcast.py:677-681 | the reader's half of that |
| `ShmRing.UnreadIsLive` | vllm/vllm/distributed/device_communicators/shm_broadcast.py:549-618 | a message some reader has not finished is still in its block, whole |
| `ShmRing.SlotNext` | vllm/vllm/distributed/device_communicators/shm_broadcast.py:617 | advancing the index modulo the number of blocks follows the message number |
| `RankSplit.RunningSums` | vllm/vllm/forward_context.py:118-125 | `cu_tokens_across_sp` is the running sum of the list `sp_local_sizes` publishes |
| `RankSplit.RankShare` | vllm/vllm/forward_context.py:61-69 | each rank gets the least equal share that covers its group's tokens |
| `RankSplit.SizesCover` | vllm/vllm/forward_context.py:61-69 | the sizes cover all tokens with at most sp_size - 1 spare for each group, and none exactly when all counts divide evenly |
| `RankSplit.LastCovers` | vllm/vllm/forward_context.py:118-125 | the same bounds for the last entry of the cumulative counts |

## Left out

- Scan arithmetic: the step, the gate and softplus are uninterpreted functions and the cast on store is taken as lossless.
- Scan columns past a token count that is not a block end are overwritten by later calls; the cache is promised right only for complete blocks and the running state.
- Scan programs run one after another in any order; interleaving of single loads and stores inside two programs is not modelled, though their cells are proved disjoint.
- ScanLayout.LauncherSeparates: takes the strides to be those of non-overlapping tensors with unit innermost stride; the launcher passes on whatever strides its tensors have and checks none of them.
- ScanUncached.LaunchPlain: takes unit innermost strides, non-overlapping tensors and rows that do not share a slot from the caller; the launcher checks none of these.
- Quantizer works over the reals, without floating-point rounding; the cast of the scale to the input's type is lossless. What a cast to an integer type gives for a number outside it is arbitrary within that type.
- Allocator: the ROCm chunked path is modelled, not the single-handle CUDA path; device contexts, reference counts, tuple packing and the Python callbacks are not. A handle cell is modelled by its contents rather than through a pointer.
- AllocatorLimits.RunSafeIff: is about calls on live blocks. The handle cells of an entry whose allocation failed are host memory that `my_malloc` has freed; the model keeps their last contents, and `AllocatorLimits.FailedEntryRefused` is about those.
- Allocator.State.MyMalloc: sizes whose rounding wraps are excluded; `Chunking.PlanTilesIff` says which these are.
- Chunking.ChunkSizes: a sequence stands for the heap array of sizes.
- Allocator.State.MyFree: failures of host memory or of the Python callback inside `my_free` are not modelled.
- GraphPartition: sets stand for insertion-ordered sets, so the order of inputs and outputs is not modelled; symbol inputs are not. Well-formed graphs have buffers that exist before they are taken, right last usages, mutating nodes that read what they mutate, and settled renamings.
- The planning-state stack of `memory_plan_reuse_patched` and the installation of the patches.
- BuildSweep: targets are identified by their index and their weighted durations are returned in a sequence instead of being set on shared objects; sorting is represented by any sorted list of the events; times are whole milliseconds and weights reals. Grouping by extension and printing are not modelled.
- NinjaLog: splitting a line and parsing its integers; a line is malformed or a record.
- BadWords: tokenisation of the words; logits of one dimension only; signed zeros.
- ClientQueue: exceptions from the engine, timing, warm-up and the consumption of hidden states; a job in flight finishes at an arbitrary later step.
- SpinLoop: the loop is a step system because it need not end; reference counts and the lock handling are not modelled. The callback is taken to return the condition of the monitored line at the moment it is called, and a store to the line after arming triggers the monitor.
- ShmRing: accesses are sequentially consistent, as the code's fences intend; timeouts only return a waiting side to its start; sockets, overflow messages and the idle-wait condition are not modelled.
- RankSplit: the context managers that publish and withdraw the sizes and the forward context are easy and left out.
- MoE alignment, block pools, HTTP clients, logging, environment tables and set-up scripts.

# scilpy: chunked voxel-wise processing, reproducible seeding, version strings

This project models three parts of scilpy, a diffusion-MRI toolbox written in
Python, and proves properties of the model.

1. **The chunked map/reassemble engine of `scilpy/reconst/multi_processes.py`.**
   The six entry points work the same way:
   - they derive an active-voxel mask and resolve a worker count;
   - they compact the masked voxels in row-major order and cut the list with
     numpy's `array_split`;
   - they compute the `chunk_len` offsets, run a per-row worker on every chunk
     and write each chunk's output back by chunk id;
   - they scatter the result into a zero-filled volume.

   The engine is written once (`ChunkEngine`), generic in the per-row worker.
   The process pool becomes a sequential loop that runs the chunks in an
   arbitrary completion order. The main theorem (`ChunkEngine.RunVoxelwise`)
   is that the result depends neither on the number of chunks nor on the
   completion order. The j-th masked voxel gets the worker's output for the
   j-th compact row, and every other voxel holds the fill value. The per-chunk
   maximum reduction of `maps_from_sh` is an associative fold (`MaxReduction`).
2. **Reproducible seed streaming** (`scilpy/tracking/seed.py` and `Seed` in
   `scilpy/tracking/trackable_dataset.py`). The random generator is a class
   holding an abstract stream of draws and the number of draws consumed.
   Three things are proved:
   - a process whose chunk starts at seed `k` places seeds `k`, `k + 1`, ...
     exactly where a single process that has already placed seeds
     `0..k-1` places them;
   - the shuffled seed order is a permutation;
   - the batched skip loop discards exactly `3 * k` draws.
3. **Small pure helpers.** These are the bounds check and nearest-voxel clamp of
   `Dataset`, its 3-D to 4-D expansion, the dimensionality check of
   `BinaryMask`, and the construction of `__version__` and `PYTHON_VERSION` in
   `scilpy/version.py`. The first line of `.python-version` is passed in as a
   string.

Layout:
- `common.dfy`: `Option`, `Result`, and the error kinds for the exceptions the
  code raises.
- `partition.dfy`: array_split sizes, offsets, chunks and their concatenation.
- `voxel_index.dfy`: C-order storage, masks, compaction and scatter.
- `chunk_engine.dfy`: the generic engine.
- `max_reduction.dfy`: the running maxima.
- `workers.dfy`: the per-row bodies of the `*_parallel` workers.
- `multi_processes.dfy`: the six entry points.
- `random_stream.dfy`: the generator, shuffle and skip-ahead.
- `seed.dfy`: `SeedGenerator`.
- `trackable_dataset.dfy`: `Dataset`, `Seed` and `BinaryMask`.
- `version.dfy`: `version.py`.

The model follows the code as written:
- The default mask is "the sum of the channels is nonzero"
  (`np.sum(data, axis=3).astype(bool)`), not "some channel is nonzero". A voxel
  whose channels cancel out is dropped (`VoxelIndex.SumMaskDropsCancellingRow`).
- Only `fit_from_model` ANDs a given mask with the default mask. The other
  entry points use a given mask as it is (`MultiProcesses.GivenMaskKeepsEmptyVoxels`).
- The worker count is not clamped to the number of voxels. `array_split` makes
  empty chunks when there are more chunks than voxels.
- A given mask must have the data's spatial shape. In `fit_from_model` the
  in-place `mask *= mask_any` runs first: it raises when the shapes do not
  broadcast, and otherwise updates the caller's mask before the mismatch
  raises at `data[mask]`.
- A count of 0 reaches `array_split` and raises in `peaks_from_sh`,
  `maps_from_sh`, `convert_sh_basis` and `convert_sh_to_sf`, because their
  defaulting differs from the others.

## Model

| member | source | states |
|---|---|---|
| ChunkPartition.SplitSizes | scilpy/reconst/multi_processes.py:70 | array_split raises exactly for a non-positive section count; otherwise there are k sizes and they add up to the row count |
| ChunkPartition.SplitSizesShape | scilpy/reconst/multi_processes.py:342-345 | the first m mod k chunks have m div k + 1 rows and the rest m div k; sizes never increase, differ by at most one, and sum to m |
| ChunkPartition.OffsetsShape | scilpy/reconst/multi_processes.py:72 | chunk_len starts at 0, ends at the total, never decreases, and consecutive entries differ by the chunk size |
| ChunkPartition.SplitOffsetsClosedForm | scilpy/reconst/multi_processes.py:203 | for array_split sizes, chunk_len[i] = i * (m div k) + min(i, m mod k) |
| ChunkPartition.SplitSizeAt | scilpy/reconst/multi_processes.py:665 | the size of chunk i is m div k + 1 when i < m mod k, else m div k |
| ChunkPartition.ChunkUnique | scilpy/reconst/multi_processes.py:346 | the slices chunk_len[c]..chunk_len[c+1] are disjoint: a position lies in at most one |
| ChunkPartition.ChunkIndexOf | scilpy/reconst/multi_processes.py:486 | every position below the total lies in some chunk's slice (the slices cover 0..M) |
| ChunkPartition.Split | scilpy/reconst/multi_processes.py:572-573 | there is one chunk per size and chunk i has sizes[i] rows |
| ChunkPartition.FlattenLength | scilpy/reconst/multi_processes.py:83 | the concatenated chunks are as long as the chunk lengths add up to |
| ChunkPartition.FlattenAt | scilpy/reconst/multi_processes.py:85 | row j of chunk c sits at position chunk_len[c] + j of the concatenation |
| ChunkPartition.FlattenSplit | scilpy/reconst/multi_processes.py:664-665 | concatenating the chunks gives back the compact rows, whatever the sizes |
| VoxelIndex.RowMajorOrder | scilpy/reconst/multi_processes.py:69 | storage order is (x, y, z) lexicographic order, and distinct voxels have distinct positions |
| VoxelIndex.VoxelAt | scilpy/tracking/seed.py:34 | the voxel reported for a storage position is in the volume and is stored there |
| VoxelIndex.MaskedPositions | scilpy/reconst/multi_processes.py:200-201 | the compact index lists every true mask position exactly once, in increasing order |
| VoxelIndex.MaskedPositionsPrefix | scilpy/reconst/multi_processes.py:337-341 | the compact index of a prefix of the mask is a prefix of the compact index |
| VoxelIndex.RankPosition | scilpy/reconst/multi_processes.py:87 | a masked voxel at position p is entry Rank(p) of the compact index |
| VoxelIndex.RankOfMaskedPosition | scilpy/reconst/multi_processes.py:235 | the j-th masked position has rank j |
| VoxelIndex.Compact | scilpy/reconst/multi_processes.py:69 | data[mask] has count_nonzero(mask) rows |
| VoxelIndex.Scatter | scilpy/reconst/multi_processes.py:87 | the scattered volume has the mask's shape |
| VoxelIndex.ScatterCompact | scilpy/reconst/multi_processes.py:503 | scattering the compaction restores every masked voxel and fills every other one |
| VoxelIndex.CompactScatter | scilpy/reconst/multi_processes.py:592 | compacting a scatter gives back the scattered rows |
| VoxelIndex.DefaultMask | scilpy/reconst/multi_processes.py:58 | a voxel is active iff the sum of its channels is nonzero |
| VoxelIndex.AndMask | scilpy/reconst/multi_processes.py:60-61 | mask *= mask_any keeps a voxel iff both masks keep it |
| VoxelIndex.BroadcastAndAt | scilpy/reconst/multi_processes.py:60-61 | after mask *= mask_any with a broadcastable mask_any, a mask voxel is set iff it was set and the mask_any voxel broadcast onto it (index 0 on its unit axes) is set |
| VoxelIndex.BroadcastSameShape | scilpy/reconst/multi_processes.py:60-61 | with equal shapes the in-place update is exactly the voxelwise AND |
| VoxelIndex.DefaultMaskSkipsZeroRows | scilpy/reconst/multi_processes.py:193 | an all-zero voxel is never in the default mask |
| VoxelIndex.SumMaskDropsCancellingRow | scilpy/reconst/multi_processes.py:328 | a voxel whose channels cancel is not all zero and is still dropped by the default mask |
| ChunkEngine.RowMap | scilpy/reconst/multi_processes.py:607 | a worker returns one output per row of its chunk |
| ChunkEngine.RowMapFlatten | scilpy/reconst/multi_processes.py:84-85 | concatenating the per-chunk outputs equals mapping the whole compact list |
| ChunkEngine.RunChunk | scilpy/reconst/multi_processes.py:607-614 | the worker loop over a preallocated array leaves every skipped row at its preset and sets every other row to its computed value |
| ChunkEngine.RunChunkInPlace | scilpy/reconst/multi_processes.py:418-423 | the in-place worker loop replaces every row that is not all zero by its conversion and keeps the others |
| ChunkEngine.Dispatch | scilpy/reconst/multi_processes.py:74-77 | each result is the pair (chunk id, worker output of that chunk), in completion order |
| ChunkEngine.SameElements | scilpy/reconst/multi_processes.py:380-381 | results reordered by a completion order hold the same elements as those in chunk-id order |
| ChunkEngine.Reassemble | scilpy/reconst/multi_processes.py:84-85 | whatever the arrival order, tmp ends as the chunk outputs concatenated in chunk-id order |
| ChunkEngine.ReassembleStep | scilpy/reconst/multi_processes.py:231-233 | writing one chunk's slice makes that chunk right and keeps the chunks already written |
| ChunkEngine.ReassembleAt | scilpy/reconst/multi_processes.py:385-390 | after a slice write, each position holds its chunk's output |
| ChunkEngine.ScatterInto | scilpy/reconst/multi_processes.py:87 | out[mask] = tmp gives the j-th masked voxel tmp[j] and every other voxel the fill |
| ChunkEngine.Partition | scilpy/reconst/multi_processes.py:69-72 | compact, split and offsets; a non-positive section count raises |
| ChunkEngine.Collect | scilpy/reconst/multi_processes.py:82-87 | reassembly and scatter give the scatter of the row map of the concatenated chunks |
| ChunkEngine.Range | scilpy/reconst/multi_processes.py:77 | np.arange(k) is a completion order listing every chunk id once |
| ChunkEngine.RunVoxelwise | scilpy/reconst/multi_processes.py:69-87 | a non-positive count raises; otherwise the output is independent of the chunk count and the completion order: the worker's output at each masked voxel, the fill elsewhere |
| ChunkEngine.RunVoxelwiseInPlace | scilpy/reconst/multi_processes.py:483-503 | the same for a worker that updates its chunk in place |
| ChunkEngine.DispatchInPlace | scilpy/reconst/multi_processes.py:488-493 | each chunk handed to the in-place worker comes back updated, tagged with its id |
| ChunkEngine.PartitionFacts | scilpy/reconst/multi_processes.py:200-203 | array_split gives k chunks with the computed lengths that concatenate back to data[mask] |
| ChunkEngine.CompletionHasIds | scilpy/reconst/multi_processes.py:230 | results produced in a completion order carry every chunk id |
| ChunkEngine.VoxelwiseAt | scilpy/reconst/multi_processes.py:235-237 | voxel by voxel, a masked voxel holds its own row's output and any other voxel the fill |
| MaxReduction.Max | scilpy/reconst/multi_processes.py:274 | max(a, b) is one of a and b and at least both |
| MaxReduction.FoldMaxSnoc | scilpy/reconst/multi_processes.py:267 | each loop step folds one more value into the running maximum |
| MaxReduction.FoldMaxIsMaximum | scilpy/reconst/multi_processes.py:267 | the running maximum is at least the start and every value, and is one of them |
| MaxReduction.FoldMaxOrderFree | scilpy/reconst/multi_processes.py:383 | folds over the same values in any order or multiplicity agree |
| MaxReduction.FoldMaxAppend | scilpy/reconst/multi_processes.py:380-383 | folding a concatenation folds the second part from the first's result |
| MaxReduction.MaxAssociative | scilpy/reconst/multi_processes.py:383 | max is associative and commutative |
| MaxReduction.FoldMaxFrom | scilpy/reconst/multi_processes.py:383 | folding from max(init, x) is the fold from init, maxed with x |
| MaxReduction.FoldMaxFromNegInf | scilpy/reconst/multi_processes.py:261 | folding from any start is max(start, fold from -inf) |
| MaxReduction.FoldOfChunkMaxima | scilpy/reconst/multi_processes.py:379-383 | combining per-chunk maxima started at -inf gives the maximum over all rows |
| MaxReduction.FoldOfZeroStartedChunkMaxima | scilpy/reconst/multi_processes.py:260 | per-chunk maxima started at 0, combined from -inf, give the maximum of 0 and every row value |
| MaxReduction.OdfMaxima | scilpy/reconst/multi_processes.py:380-381 | the max_odf values handed back, one per result |
| MaxReduction.GlobalMaxima | scilpy/reconst/multi_processes.py:380-381 | the global_max values handed back, one per result |
| MaxReduction.CombineMaxima | scilpy/reconst/multi_processes.py:378-383 | as intended, each running maximum ends as the maximum of -inf and its own per-chunk values |
| MaxReduction.CombineAsWritten | scilpy/reconst/multi_processes.py:382 | as written, all_time_max_odf only combines the last chunk's max_odf with the earlier global maxima |
| MaxReduction.AsWrittenLosesMaxOdf | scilpy/reconst/multi_processes.py:382 | two chunks with max_odf 5 then 1 and no global maximum: as written 1, intended 5 |
| MaxReduction.CombineMaximaOrderFree | scilpy/reconst/multi_processes.py:380-383 | the intended combination does not depend on the arrival order of the chunks |
| MaxReduction.CombineChunkMaxima | scilpy/reconst/multi_processes.py:378-383 | per-chunk maxima in any completion order combine to the maxima over all rows: from 0 for max_odf, from -inf for global_max |
| MaxReduction.CombineResults | scilpy/reconst/multi_processes.py:378-383 | the corrected loop computes the intended combination |
| Workers.FitKernelCases | scilpy/reconst/multi_processes.py:24-30 | a row stays 0 iff it is all zero; a solver error gives the NaN fallback fit; a success gives its fit |
| Workers.SolverErrorIsolated | scilpy/reconst/multi_processes.py:26-30 | a solver error on one row changes that row only and the loop goes on |
| Workers.Threshold | scilpy/reconst/multi_processes.py:114 | odf[odf < t] = 0 zeroes exactly the values below t and keeps the rest |
| Workers.ClipNonNegative | scilpy/reconst/multi_processes.py:265 | clip(min=0) leaves nothing negative and keeps nonnegative values |
| Workers.EmptyPeakRows | scilpy/reconst/multi_processes.py:106-109 | the preallocation has npeaks zero directions and values, and every index set to the fill (-1 in a worker) |
| Workers.PeaksKernelShape | scilpy/reconst/multi_processes.py:111-126 | the first min(npeaks, #peaks) entries are the detected peaks in order; the rest, and any all-zero row, are 0, 0 and -1 |
| Workers.PeakCount | scilpy/reconst/multi_processes.py:275-276 | the number of indices above -1 is at most npeaks, and 0 iff none is above -1 |
| Workers.MaxValue | scilpy/reconst/multi_processes.py:277 | peak_values[idx].max() is at least every value and is one of them |
| Workers.MapsOfCases | scilpy/reconst/multi_processes.py:262-280 | peak maps are filled iff the GFA is not below the threshold and there is a peak; nufo counts peaks, afd_max bounds them; GFA always set; rgb zero for a zero ODF |
| Workers.RunChunkWithMaxima | scilpy/reconst/multi_processes.py:260-280 | the maps loop gives every row's maps, max_odf as the fold from 0 and global_max as the fold from -inf |
| Workers.MapsChunk | scilpy/reconst/multi_processes.py:242-283 | maps_from_sh_parallel on one chunk: its maps and its two maxima |
| Workers.RowMapSnoc | scilpy/reconst/multi_processes.py:262 | one more loop step extends the map by that row's output |
| Workers.ZeroRow | scilpy/reconst/multi_processes.py:513 | np.zeros(n) has n entries, all zero |
| Workers.ConvertInPlaceCases | scilpy/reconst/multi_processes.py:418-421 | an all-zero row is kept as it is, any other row is converted |
| MultiProcesses.WorkersFit | scilpy/reconst/multi_processes.py:63-65 | None or a non-positive count becomes the CPU count; the result is always positive |
| MultiProcesses.WorkersSh | scilpy/reconst/multi_processes.py:195-196 | None or a negative count becomes the CPU count; the result is 0 exactly for an explicit 0 |
| MultiProcesses.FitMask | scilpy/reconst/multi_processes.py:55-69 | the default mask, ANDed with a given mask; fails iff a given mask's shape differs from the data's: in the update when mask_any does not broadcast to it, otherwise when it indexes the data |
| MultiProcesses.GivenMask | scilpy/reconst/multi_processes.py:191-201 | a given mask as it is, else the default mask; fails iff a given mask's shape differs from the data's |
| MultiProcesses.GivenMaskKeepsEmptyVoxels | scilpy/reconst/multi_processes.py:327-328 | a given mask selects an all-zero voxel in the other entry points, but not in fit_from_model |
| MultiProcesses.FitFromModel | scilpy/reconst/multi_processes.py:35-90 | a non-broadcastable mask raises and is left as it was; otherwise the caller's mask is updated in place by the broadcast AND, and a mask of another shape then raises; with matching shapes each active voxel holds its fit or the NaN fallback, others 0 |
| MultiProcesses.PeaksFromSh | scilpy/reconst/multi_processes.py:135-239 | explicit 0 processes raise; otherwise the peaks of each active voxel, and zeros with index 0 elsewhere |
| MultiProcesses.PeakIndicesAt | scilpy/reconst/multi_processes.py:221-237 | every voxel has npeaks entries; inactive voxels have index 0, active all-zero voxels index -1 |
| MultiProcesses.DispatchMaps | scilpy/reconst/multi_processes.py:348-357 | each result is (chunk id, maps of the chunk, maxima of the chunk) |
| MultiProcesses.RunMaps | scilpy/reconst/multi_processes.py:337-397 | with line 382 corrected (see Findings): the maps and both maxima are independent of the chunk count and the completion order |
| MultiProcesses.MaximaOfActiveRows | scilpy/reconst/multi_processes.py:378-383 | the per-chunk maxima combine to the maxima over the active rows themselves |
| MultiProcesses.MapsMaxima | scilpy/reconst/multi_processes.py:378-383 | per-chunk maxima in a completion order combine to the maxima over all chunk rows |
| MultiProcesses.MapsFromSh | scilpy/reconst/multi_processes.py:286-397 | a mask, peak_dirs, peak_values or peak_indices whose spatial shape differs from the coefficients' raises, and so do 0 processes; otherwise the maps of every active voxel, zeros elsewhere, and, with line 382 corrected (see Findings), the two maxima over the active voxels |
| MultiProcesses.Zip | scilpy/reconst/multi_processes.py:337-341 | coefficient and peak volumes paired voxel by voxel |
| MultiProcesses.ConvertShBasis | scilpy/reconst/multi_processes.py:426-505 | a mask of another shape or 0 processes raise; each active nonzero voxel converted, active zero voxels kept, others zero rows as wide as the input's |
| MultiProcesses.ConvertShToSf | scilpy/reconst/multi_processes.py:522-594 | a dtype other than float32/float64 fails first, then a mask of another shape; a count of None or a non-positive count raises; otherwise SF of each active nonzero voxel, zeros elsewhere |
| MultiProcesses.FitGamma | scilpy/reconst/multi_processes.py:617-689 | a mask of another shape raises; otherwise the gamma fit of each active nonzero voxel, zeros elsewhere; never fails on the count |
| RandomStream.UniformInRange | scilpy/tracking/seed.py:68-70 | uniform(lo, hi) of a unit sample lies in [lo, hi) |
| RandomStream.Arange | scilpy/tracking/seed.py:97 | np.arange(n) is 0..n-1 |
| RandomStream.SwapPermutes | scilpy/tracking/seed.py:98 | one shuffle swap keeps the multiset of entries |
| RandomStream.ShuffleStepsPermutes | scilpy/tracking/seed.py:98 | every prefix of the Fisher-Yates pass keeps the multiset of entries |
| RandomStream.ShuffledArangeIsPermutation | scilpy/tracking/seed.py:97-98 | the shuffled indices are a permutation of 0..n-1: in range, all present, none twice |
| RandomStream.SkipRequests | scilpy/tracking/seed.py:109-112 | the skip loop makes at least one request |
| RandomStream.SkipRequestsShape | scilpy/tracking/seed.py:109-112 | the requests add up to the total: full batches of 100000, then one final request of at most 100000 that is positive iff the total is |
| RandomStream.SkipRequestsExamples | scilpy/tracking/seed.py:109-112 | 250000 gives two batches and 50000; 200000 gives one batch and a final 100000 |
| RandomStream.Generator.constructor | scilpy/tracking/seed.py:94 | a fresh RandomState has consumed no draws |
| RandomStream.Generator.Uniform | scilpy/tracking/seed.py:68 | uniform takes the next draw and advances by one |
| RandomStream.Generator.Discard | scilpy/tracking/seed.py:110 | random_sample(n) advances by n |
| RandomStream.Generator.Shuffle | scilpy/tracking/seed.py:98 | shuffle rearranges the array by the Fisher-Yates pass and advances by one draw per swap |
| RandomStream.ShufflePass | scilpy/tracking/trackable_dataset.py:162 | the in-place pass computes the shuffled array and consumes one draw per swap |
| RandomStream.SwapEntries | scilpy/tracking/seed.py:98 | exchanges two entries in place |
| RandomStream.SkipAhead | scilpy/tracking/seed.py:106-112 | the skip loop makes exactly the requests above and advances by the total |
| RandomStream.ShuffledIndices | scilpy/tracking/seed.py:97-98 | the seed order of a prepared generator has n entries, each below n |
| SeedGeneration.PositiveMask | scilpy/tracking/seed.py:34 | data > 0 voxel by voxel |
| SeedGeneration.SeedVoxels | scilpy/tracking/seed.py:34 | one seed voxel per positive voxel, all in the volume |
| SeedGeneration.SeedCentres | scilpy/tracking/seed.py:34-35 | one centre per positive voxel |
| SeedGeneration.SeedVoxelsExact | scilpy/tracking/seed.py:34 | a voxel is a seed voxel iff the mask is positive there |
| SeedGeneration.SeedVoxelsInRowMajorOrder | scilpy/tracking/seed.py:34 | np.where lists the seed voxels in strictly increasing row-major order |
| SeedGeneration.SeedCentresExact | scilpy/tracking/seed.py:31-35 | a voxel's centre (+0.5 on each axis) is a seed iff the mask is positive there |
| SeedGeneration.InitGenerator | scilpy/tracking/seed.py:94-114 | shuffled arange as the order, generator past the shuffle and 3 * first draws; a negative first seed raises |
| SeedGeneration.PrepareChunk | scilpy/tracking/seed.py:94-112 | the shared preparation: shuffle, then skip three draws per earlier seed |
| SeedGeneration.ChosenSeed | scilpy/tracking/seed.py:64-65 | seeds[indices[w % n]] is always a seed voxel |
| SeedGeneration.ChosenSeedCycles | scilpy/tracking/seed.py:64 | seed numbers w and w + n choose the same voxel |
| SeedGeneration.ChosenSeedsCoverAll | scilpy/tracking/seed.py:64-65 | any n consecutive seed numbers visit every seed voxel |
| SeedGeneration.ModUnique | scilpy/tracking/seed.py:64 | Python's % on a positive divisor is the unique remainder in [0, n) |
| SeedGeneration.JitterInsideVoxel | scilpy/tracking/seed.py:11-17 | a seed placed from voxel i's centre lies in [i * res, (i + 1) * res) |
| SeedGeneration.GetNextPos | scilpy/tracking/seed.py:57-73 | no seed voxels gives nothing and no draw; otherwise the chosen centre in voxmm, moved by exactly three draws |
| SeedGeneration.PlacedInsideVoxel | scilpy/tracking/seed.py:72-73 | with positive voxel sizes, the returned position lies inside its seed voxel on every axis |
| SeedGeneration.PlaceSeeds | scilpy/tracking/seed.py:57-73 | k calls of get_next_pos from seed first: the i-th places seed first + i from draws 3i on, and the generator advances by 3k; with no seed voxels, nothing is placed or drawn |
| SeedGeneration.SequentialRun | scilpy/tracking/seed.py:94-114 | prepared at seed 0 and k seeds placed, a process holds the shuffled order and stands where init_generator(k) puts it, whenever there are seed voxels |
| SeedGeneration.ChunkStartMatchesSequentialRun | scilpy/tracking/seed.py:100-105 | a chunk prepared from seed k places seeds k, k+1, ... exactly as a single process that has already placed seeds 0..k-1; with no seed voxels both place nothing |
| TrackableDataset.NewDataset | scilpy/tracking/trackable_dataset.py:13-22 | 3-D data gets a trailing axis of length 1; other data keeps its shape |
| TrackableDataset.DimHasFourEntries | scilpy/tracking/trackable_dataset.py:19-22 | dim has four entries, the fourth being 1 for 3-D input |
| TrackableDataset.IsVoxelInBound | scilpy/tracking/trackable_dataset.py:38-44 | true iff 0 <= x < dim0, 0 <= y < dim1 and 0 <= z < dim2 |
| TrackableDataset.ClampedIsNearest | scilpy/tracking/trackable_dataset.py:31-34 | with no empty axis the clamp picks the nearest voxel, which is in bound |
| TrackableDataset.ClampInBoundIdempotent | scilpy/tracking/trackable_dataset.py:31-34 | in-bound requests are unchanged, and clamping is idempotent |
| TrackableDataset.GetVoxelValue | scilpy/tracking/trackable_dataset.py:25-36 | the nearest voxel's row; an empty axis makes the access raise |
| TrackableDataset.ExpandDimsKeepsValues | scilpy/tracking/trackable_dataset.py:19-20 | expansion keeps every voxel value as a one-value row |
| TrackableDataset.NewSeed | scilpy/tracking/trackable_dataset.py:107-109 | the seeds are the positive voxels of the mask, not centred |
| TrackableDataset.InitPos | scilpy/tracking/trackable_dataset.py:144-173 | the same preparation as init_generator: three draws skipped per earlier seed; a negative first seed raises |
| TrackableDataset.GetNextPos | scilpy/tracking/trackable_dataset.py:111-142 | no seeds gives [] and no draw; otherwise seeds[indices[w % n]] scaled by the voxel size, moved by exactly three draws |
| TrackableDataset.JitterAroundCorner | scilpy/tracking/trackable_dataset.py:141-142 | a seed of voxel i lies within half a voxel of i * size |
| TrackableDataset.PlaceSeeds | scilpy/tracking/trackable_dataset.py:111-142 | k calls of get_next_pos from seed first: the i-th places seed first + i from draws 3i on, and the generator advances by 3k; with no seeds, nothing is placed or drawn |
| TrackableDataset.SequentialRun | scilpy/tracking/trackable_dataset.py:144-173 | prepared at seed 0 and k seeds placed, a process holds the shuffled order and stands where init_pos(k) puts it, whenever there are seeds |
| TrackableDataset.ChunkStartMatchesSequentialRun | scilpy/tracking/trackable_dataset.py:164-171 | a chunk prepared from seed k places seeds k, k+1, ... exactly as a single process that has already placed seeds 0..k-1; with no seeds both place nothing |
| TrackableDataset.NewBinaryMask | scilpy/tracking/trackable_dataset.py:182-188 | accepted iff the data has 3 axes, or 4 axes with a last axis of 1; anything else raises |
| TrackableDataset.BinaryMaskOfImage | scilpy/tracking/trackable_dataset.py:186-188 | on a dataset the 3-axis case never occurs; the mask is accepted for 3-D images and 4-D images with one value per voxel |
| TrackableDataset.IsStreamlineIncluded | scilpy/tracking/trackable_dataset.py:205-218 | always true |
| VersionInfo.NatToString | scilpy/version.py:18 | str(n) is a nonempty string of decimal digits |
| VersionInfo.SplitOn | scilpy/version.py:30 | split gives at least one piece and no piece holds the separator |
| VersionInfo.SplitJoin | scilpy/version.py:30 | splitting a join of separator-free pieces gives the pieces back |
| VersionInfo.JoinSplit | scilpy/version.py:40 | joining the pieces of a split gives the string back |
| VersionInfo.VersionIsOneSix | scilpy/version.py:6-18 | with the file's values __version__ is "1.6" |
| VersionInfo.VersionComponents | scilpy/version.py:12-18 | __version__ has 2 to 4 components: major, minor, micro iff nonzero, extra iff nonempty |
| VersionInfo.LStrip | scilpy/version.py:30 | the result is a suffix, only newlines were removed, and it does not start with one |
| VersionInfo.RStrip | scilpy/version.py:30 | the result is a prefix, only newlines were removed, and it does not end with one |
| VersionInfo.StripShape | scilpy/version.py:30 | strip("\n") removes newlines at both ends and nothing else |
| VersionInfo.StripLine | scilpy/version.py:30 | a newline-free line followed by its newline strips back to itself |
| VersionInfo.PythonVersion | scilpy/version.py:28-44 | fails with IndexError iff the stripped line has no dot; otherwise starts with "==" |
| VersionInfo.SplitJoinCount | scilpy/version.py:31-32 | a line has at least two pieces iff it holds a dot |
| VersionInfo.PythonVersionComponents | scilpy/version.py:30-44 | "==" then major, minor, micro (or "*") and a nonempty fourth piece; 3 or 4 components |
| VersionInfo.JoinAppend | scilpy/version.py:41-42 | joining a join with one more piece equals joining all pieces |
| VersionInfo.PythonVersionOfLine | scilpy/version.py:29-44 | a dotted line with its newline gives "==" and the kept pieces |
| VersionInfo.PythonVersionStarMicro | scilpy/version.py:33-36 | a major.minor line gets micro "*" |
| VersionInfo.PythonVersionDropsTail | scilpy/version.py:37-42 | pieces after the fourth are ignored |
| VersionInfo.PythonVersionNeedsDot | scilpy/version.py:31-32 | a line without a dot raises IndexError |

## Left out

- Per-voxel numerics are parameters of the model: `model.fit`, `peak_directions`, `gfa`, `sh_to_sf_matrix`, `gamma_data2fit`, `np.dot` and the colour maps. Floating point is modelled as exact reals.
- Peak normalisation in `peaks_from_sh_parallel` (multi_processes.py:128-130) is not modelled. It is float post-processing of the values already placed.
- The `qa_map` of `maps_from_sh_parallel` is not modelled. Line 279 overwrites the whole chunk array instead of row `idx`; that line is float post-processing.
- The final normalisation in `maps_from_sh` (lines 399-401) and the `np.unique` warning (403-406) are not modelled. They are float post-processing and logging; the maxima they divide by are.
- MultiProcesses.MapsFromSh: `peak_dirs` are compacted and split but never read by the worker, so only their spatial shape is an input. The trailing axes of the three peak volumes (`npeaks` peaks, 3 coordinates) are assumed to agree; a `reshape` that fails on them is not modelled.
- MultiProcesses.MapsFromSh: the two maxima are those of line 382 corrected (see Findings); the code as written is `MaxReduction.CombineAsWritten`.
- MultiProcesses.RunMaps: the combined maxima are those of line 382 corrected (see Findings).
- A given mask is a boolean volume; integer or float masks and their numpy casting rules are not modelled.
- MultiProcesses.MapsFromSh: a voxel's ODF without values (`odf.max()` on an empty array raises in numpy) gives max -inf in the model.
- MultiProcesses.ConvertShToSf: float32 rounding is not modelled. The `dtype` assert is modelled as the `UnsupportedDtype` error.
- Process pools, `close` and `join` are not modelled. They are a sequential loop over an arbitrary completion order of the chunk ids.
- `multiprocessing.cpu_count()` is the parameter `cpu`. In `convert_sh_to_sf` it is only the default of the count, so the count is a plain parameter there; an explicit `None` is modelled as the `NotAnInteger` error that `array_split` raises.
- Workers.FitRow: only the `SolverError` that `fit_from_model_parallel` catches is modelled. Any other exception from a numerical routine propagates through `pool.map` and aborts the whole call; the numerical routines are total functions in the model.
- The Mersenne Twister inside `RandomState` is abstracted as the `Draws` stream: one unit sample per `uniform` and one bounded integer per shuffle swap. Real numpy may draw more than once per swap when rejecting; the model counts one draw per swap.
- RandomStream.Generator.Discard: `random_sample` and `rand` values are discarded, so only the position they advance to is modelled.
- The integer seed passed to `RandomState` is not modelled; the stream it selects is the parameter `draws`.
- SeedGeneration.InitGenerator: a negative `first_seed_of_chunk` is modelled as `NegativeSampleCount`, numpy's error for a negative size.
- File and image I/O is not modelled: nibabel loading, header zooms and `pixdim` are inputs. Reading `.python-version` is the input line.
- The logging warning for an empty seeding mask (seed.py:36-37) is not modelled.
- `np.squeeze` of unit axes other than the added fourth one is not modelled: seeding masks are 3-D.
- Voxel reads of `Dataset` data with more than four axes are not modelled. Only its shape is kept.
- SeedGeneration.GetNextPos: `indices` must be a valid index list, as `init_generator` produces; the source leaves other lists to raise.
- TrackableDataset.GetNextPos: `indices` must be a valid index list, as `init_pos` produces; the source leaves other lists to raise.
- TrackableDataset.GetNextPos: `np.asscalar(ind)` (trackable_dataset.py:131) is modelled as the identity on the seed number. `np.asscalar` calls `.item()`, which a plain Python `int` lacks; and numpy 1.23 removed the function. With a plain `int` seed number, or on a current numpy, the call raises, which is not modelled.
- TrackableDataset.InitPos: `np.asscalar(first_seed_of_chunk)` (trackable_dataset.py:167) is modelled as the identity, like the call above; the `AttributeError` it raises for a plain `int` or on a current numpy is not modelled.
- SeedGeneration.SequentialRun: with no seed voxels the sequential process stays just past the shuffle, while a chunk prepared at seed k has skipped 3k draws. The two generators then differ, but neither places a seed.
- TrackableDataset.SequentialRun: as for `SeedGeneration.SequentialRun`, the generator positions differ when there are no seeds, and neither places one.
- `getVoxelAtPosition`, `getVoxelCoordinate`, `getVoxelValueAtPosition`, `getPositionValue` (trilinear and nearest-neighbour interpolation), `isPositionInBound` and `BinaryMask.isPropagationContinues` are not modelled. They are float positioning and interpolation.
- `BinaryMask.__init__` turns a memory map into an array (trackable_dataset.py:185), which has no effect on values.
- The version metadata constants (`CLASSIFIERS`, description, URLs) are not modelled; they are static text.

## Findings

| source | as written | input that shows it | evidently intended | confidence | as-written member | corrected member |
|---|---|---|---|---|---|---|
| scilpy/reconst/multi_processes.py:382 | `all_time_max_odf = max(all_time_global_max, max_odf)` | two chunks returning `max_odf` 5, then 1, and `global_max` -inf (every voxel above the GFA threshold without peaks): the result is 1, not 5 | `all_time_max_odf = max(all_time_max_odf, max_odf)`, the maximum over all chunks, independent of their order | not executed | MaxReduction.CombineAsWritten, MaxReduction.AsWrittenLosesMaxOdf | MaxReduction.CombineMaxima, MaxReduction.CombineResults |

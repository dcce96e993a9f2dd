# Voxel example: a verified model of the world builder, the instance extractor, the height-map loader and the timing statistics

This project models, in Dafny, the logic of a voxel renderer written in Rust on Bevy.
It covers four parts of that program and proves what each part promises.

- **Instance extraction** (`prepare_instance_buffers`, module `VoxelRender`):
  - the brickmap traversal's visits are filtered to brick nodes (value above `BRICK_OFFSET`);
  - each brick node becomes a `BrickInstance` with a centred position, a power-of-two scale and a brick index;
  - the instances are optionally sorted by distance, reversed by negating the key;
  - they are stored with their count.
  - The `repr(C)` record layout is checked against the two vertex attributes that read it.
- **World building** (`setup_voxels` and `load_palette`, module `WorldBuilder`):
  - the palette is the parsed file with eleven fixed colours written over it;
  - eight nested loops cut the world into chunks, bricks and voxels;
  - each brick gets the voxels at or below the height-map surface (grass on the surface, dirt below);
  - each brick is placed at its brick-grid position, and the mipmaps are rebuilt once at the end.
- **Height-map loading** (`load_and_process_heightmap` and `run_setup`, module `HeightMapper`):
  - the image is sampled with a stride into a grid of grey levels;
  - the builder runs only when both the height map and the setup marker exist.
- **Timing statistics** (`timeit.rs`, module `Timeit`):
  - `timeit`/`timeitmut` record durations in a pending map;
  - `update_timing_aggregator` drains that map into per-description statistics (count, total, max, min, samples);
  - `log_timings` reports average, max, min and median once a second and then clears them.

Support modules:
- `Wrappers` holds `Option` and `Result`.
- `Math` holds powers of two, ceiling division, mixed-radix digits and the integer vectors.
- `Sorting` holds a stable sort by an integer key, standing in for `radsort::sort_by_cached_key` and `slice::sort`.

What each module takes as parameters:
- The brickmap tree (`CpuBrickmap`, `GpuVoxelWorld`, `recursive_search`) lives in files that are not part of this model.
  - The builder's brickmap is a class that records the calls it receives and checks each placement against its capacity.
  - The extractor's traversal is the sequence of visits it makes.
- `BRICK_SIZE` and `BRICK_OFFSET` are defined in a file that is not part of this model. They are parameters: `BRICK_SIZE == 2^brickLog` with `brickLog <= 4`, and `brickOffset`.
- File and image I/O, clocks, the floating-point distance and logging are parameters or are left out (see below).

In four places the code as written does not do what it evidently intends, or fails where the model returns a result. Each bullet says which behaviour each member follows.

- **Deep nodes in the extractor.** The log-and-skip guard at voxel_render.rs:104-109 shows that a brick node deeper than the tree is meant to be skipped.
  - In builds with overflow checks, the `u32` subtraction at line 103 panics before that guard is reached (Finding 1).
  - In release builds the subtraction wraps, the shift amount is masked, and the guard logs and skips the node.
  - `VoxelRender.CollectAsWritten` models the build that panics.
  - `VoxelRender.CollectInstances`, and `VoxelRender.PrepareInstanceBuffers` which calls it, skip the node, as the guard intends and as release builds do.
- **The column guard of the world builder.** The guard at world_builder.rs:63-75 tests the two axes against the wrong lengths of the height map (Finding 2).
  - `WorldBuilder.ReadAsWritten` models the guard as written.
  - `WorldBuilder.SetupVoxels` fills its bricks through `WorldBuilder.Colour`, which uses the corrected guard `WorldBuilder.Read`.
  - On a height map that is not square, the model therefore fills columns the source skips. It also leaves empty a column where the source panics (`WorldBuilder.ColourOffSquareMaps`).
  - On a square height map the two guards agree (`WorldBuilder.GuardAgreesOnSquareMaps`).
- **A missing dirt colour.** The palette lookup at world_builder.rs:45 panics when the palette has no dirt entry. The model returns `Err(MissingColour)` for that case.
- **A failed placement.** `.expect` at world_builder.rs:100 aborts when a placement fails. The model proves that no placement of `setup_voxels` can fail, so the abort is never reached.

## Model

| member | source | states |
|---|---|---|
| VoxelRender.InstanceOf | src/render_pipeline/voxel_render.rs:102-116 | the brick index is at least 1 and adds back to the node value; the scale times `2^depth` is `2^brickmap_depth`, so a brick at full depth has scale 1 |
| VoxelRender.CollectInstances | src/render_pipeline/voxel_render.rs:93-117 | the visitor loop pushes exactly the instances of the emitting visits (brick node, depth within the tree), in visit order |
| VoxelRender.CollectedOrigins | src/render_pipeline/voxel_render.rs:96-117 | every collected instance comes from its own emitting visit, in strictly increasing visit order, and every emitting visit contributes one |
| VoxelRender.CollectedMembers | src/render_pipeline/voxel_render.rs:98-116 | an instance is collected if and only if some visit emits it |
| VoxelRender.CollectedLength | src/render_pipeline/voxel_render.rs:96-117 | there are no more instances than visits |
| VoxelRender.VisitAsWritten | src/render_pipeline/voxel_render.rs:96-117 | one visit as written: it panics exactly on a brick node when the tree depth is 0 or the node lies deeper than the tree. Otherwise it emits exactly for brick nodes, and what it emits is the corrected visitor's instance |
| VoxelRender.CollectAsWritten | src/render_pipeline/voxel_render.rs:93-117 | the traversal as written: when it does not panic it collects exactly what the corrected visitor collects, and nothing at depth 0. When it panics, some visit panicked |
| VoxelRender.AsWrittenPanicsOnDeepBrick | src/render_pipeline/voxel_render.rs:102-110 | as written, a brick node reported deeper than the tree makes the whole collection panic, while the corrected visitor skips it |
| VoxelRender.AsWrittenWithoutBricks | src/render_pipeline/voxel_render.rs:96-117 | as written, a traversal that visits no brick node collects nothing and never panics, whatever the tree depth, because lines 98-100 return before the shifts |
| VoxelRender.AsWrittenCounterexample | src/render_pipeline/voxel_render.rs:103-104 | a one-node tree of depth 1 whose brick is visited at depth 2 panics as written and yields no instance when corrected |
| VoxelRender.AsWrittenAgrees | src/render_pipeline/voxel_render.rs:96-117 | when no brick node lies deeper than the tree, the visitor as written and the corrected one give the same instances |
| VoxelRender.PrepareInstanceBuffers | src/render_pipeline/voxel_render.rs:87-142 | the stored length is the instance count; the instances are a permutation of the collected ones; unsorted they are exactly those, in order; sorted they are non-decreasing in distance, or non-increasing when reversed, and stable among equal keys |
| VoxelRender.DrawnInstances | src/render_pipeline/voxel_render.rs:323-326 | the drawn instance range is the stored length whenever it fits in a `u32` |
| VoxelRender.InstanceLayoutRoundTrip | src/render_pipeline/voxel_render.rs:255-270 | the fields of `BrickInstance` sit at offsets 0, 12 and 16 of a 20-byte record; the `Float32x4` attribute covers position and scale and the `Uint32` the brick; reading a record back through them gives the instance written |
| Sorting.SortByKey | src/render_pipeline/voxel_render.rs:121-130 | the result is ordered by the key and is a permutation of the input |
| Sorting.SortByKeyStable | src/render_pipeline/voxel_render.rs:122-129 | for every key, the elements with that key keep their input order |
| Sorting.InsertPermutes | src/render_pipeline/voxel_render.rs:121-130 | helper of `Sorting.SortByKey`, the stand-in for the library sorts: one step of the stand-in insertion sort adds exactly the inserted element |
| Sorting.InsertSorted | src/render_pipeline/voxel_render.rs:121-130 | helper of `Sorting.SortByKey`: one step of the stand-in insertion sort keeps an ordered sequence ordered |
| Sorting.InsertStable | src/render_pipeline/voxel_render.rs:122-129 | helper of `Sorting.SortByKeyStable`: one step of the stand-in insertion sort places the element ahead of the elements of its key class that follow it, and after none that came before it |
| Timeit.MaxOfIsMax | src/ultilities/timeit.rs:47 | the maximum is one of the samples and no sample exceeds it |
| Timeit.MinOfIsMin | src/ultilities/timeit.rs:48 | the minimum is one of the samples and no sample is below it |
| Timeit.Record | src/ultilities/timeit.rs:45-49 | one sample recorded into an entry: the count grows by one, the total by the sample and the sample is appended. The max becomes the larger and the min the smaller of the old value and the sample. `Timeit.RecordConsistent` proves the entry stays consistent |
| Timeit.RecordConsistent | src/ultilities/timeit.rs:35-49 | recording a sample into a consistent entry, or into the fresh entry with max 0 and min `Duration::MAX`, gives an entry whose count, total, max and min are the length, sum, largest and smallest of its samples |
| Timeit.AddTimingConsistent | src/ultilities/timeit.rs:34-50 | `add_timing` keeps every entry of the statistics consistent |
| Timeit.RecordAllValues | src/ultilities/timeit.rs:89-91 | recording several samples appends them in order and adds their number to the count |
| Timeit.RecordAllFacts | src/ultilities/timeit.rs:89-91 | recording at least one sample leaves the entry consistent |
| Timeit.FeedStep | src/ultilities/timeit.rs:89-91 | one more `add_timing` extends the fed samples by that one |
| Timeit.DrainedStep | src/ultilities/timeit.rs:88-92 | feeding one more drained description moves the statistics one description further towards the fully drained state |
| Timeit.DrainedNone | src/ultilities/timeit.rs:86-93 | before any description is drained the statistics are unchanged |
| Timeit.DrainedEntry | src/ultilities/timeit.rs:86-93 | after a drain each entry is consistent and holds its old samples followed by the pending ones |
| Timeit.SortedSamples | src/ultilities/timeit.rs:103-104 | the sorted copy is ascending and a permutation of the samples |
| Timeit.SumBounds | src/ultilities/timeit.rs:99 | the total lies between count times min and count times max |
| Timeit.Median | src/ultilities/timeit.rs:100-106 | the median is 0 without samples and otherwise one of the samples. `Timeit.MedianIsMiddle` proves it is the middle of the sorted samples |
| Timeit.Summarize | src/ultilities/timeit.rs:99-106 | a reported line carries the entry's max and min, the average rounded down (`avg * count <= total < (avg + 1) * count`) and a sample as median. `Timeit.SummaryBetween` proves average and median lie between min and max |
| Timeit.SummaryBetween | src/ultilities/timeit.rs:99-106 | the reported average and median lie between the entry's min and max |
| Timeit.MedianIsMiddle | src/ultilities/timeit.rs:100-106 | the median is a sample, no smaller than the lower half of the sorted samples and no larger than the upper half |
| Timeit.SummaryOf | src/ultilities/timeit.rs:98-106 | the printed line's average is `total / count` and its median element `len / 2` of the sorted copy, both between min and max for a consistent entry |
| Timeit.TimingAggregator.constructor | src/ultilities/timeit.rs:24-31 | the default aggregator has no statistics and logs from the current time |
| Timeit.TimingAggregator.AddTiming | src/ultilities/timeit.rs:34-50 | only the description's entry changes: created if absent, then count +1, total +d, max and min updated, d appended |
| Timeit.TimingAggregator.LogTimings | src/ultilities/timeit.rs:95-122 | after at least one second it reports every entry, clears the statistics and restarts the interval; otherwise it changes nothing |
| Timeit.PendingTimings.constructor | src/ultilities/timeit.rs:7-8 | the pending map starts empty |
| Timeit.PendingTimings.Push | src/ultilities/timeit.rs:58-63 | the duration is appended to the description's pending samples, creating them if absent |
| Timeit.Timeit | src/ultilities/timeit.rs:53-66 | returns `f()` unchanged and appends exactly one duration under the description |
| Timeit.TimeitMut | src/ultilities/timeit.rs:68-84 | returns `f()` unchanged and appends exactly one duration under the description |
| Timeit.FeedAll | src/ultilities/timeit.rs:89-91 | the inner loop feeds every sample of one description to `add_timing`, in order |
| Timeit.UpdateTimingAggregator | src/ultilities/timeit.rs:86-93 | the pending map ends empty and every pending sample is recorded under its description, in order, keeping every entry consistent |
| Math.CeilDivBound | src/render_pipeline/height_mapper.rs:20-21 | a sample index is below the ceiling quotient exactly when its strided pixel lies inside the image |
| HeightMapper.Zeros | src/render_pipeline/height_mapper.rs:23 | the grid has `height` rows of `width` zeros |
| HeightMapper.SampleRow | src/render_pipeline/height_mapper.rs:26-34 | the row holds one grey level per strided column, each read inside the image |
| HeightMapper.SampleHeightmap | src/render_pipeline/height_mapper.rs:20-35 | the grid has `ceil(height / step)` rows of `ceil(width / step)` cells, and cell `[sy][sx]` is the grey level of pixel `(sx * step, sy * step)` |
| HeightMapper.LoadAndProcessHeightmap | src/render_pipeline/height_mapper.rs:12-48 | no height map exactly when the image cannot be opened; otherwise cell `[z][x]` is the grey level of pixel `(x, z)`, below 256, for every pixel |
| HeightMapper.RunSetup | src/render_pipeline/height_mapper.rs:49-56 | true exactly when both the height map and the setup marker are present |
| WorldBuilder.LoadPalette | src/render_pipeline/world_builder.rs:17-36 | the keys are the file's plus the eleven fixed ones; the fixed colours win; other file entries are kept; grass always has its fixed colour; dirt is present exactly when the file has it |
| WorldBuilder.ChunkSideDivides | src/render_pipeline/world_builder.rs:47 | `16 / BRICK_SIZE` bricks fill a chunk side exactly |
| WorldBuilder.ReadAsWritten | src/render_pipeline/world_builder.rs:63-75 | the guard and read as written: a read height is the column's, and an out-of-range read happens only for a column that does not exist |
| WorldBuilder.Read | src/render_pipeline/world_builder.rs:63-75 | the corrected guard never reads out of range and reads a column exactly when it exists |
| WorldBuilder.GuardAsWrittenCounterexample | src/render_pipeline/world_builder.rs:63-75 | on a height map of one row and two columns, column (0, 1) passes the guard as written and is read out of range, and the existing column (1, 0) is skipped |
| WorldBuilder.GuardAgreesOnSquareMaps | src/render_pipeline/world_builder.rs:63-75 | on a square height map the guard as written and the corrected one read the same columns |
| WorldBuilder.Colour | src/render_pipeline/world_builder.rs:63-86 | a voxel is solid exactly when its column exists and the voxel is at or below the surface `h * 200`: grass on the surface, dirt below. Columns are read through the corrected guard |
| WorldBuilder.ColourOffSquareMaps | src/render_pipeline/world_builder.rs:63-75 | on the height map `[[0, 0]]` the voxel rule fills column (1, 0), which the guard as written skips. It leaves column (0, 1) empty, where the guard as written panics |
| WorldBuilder.ColumnProfile | src/render_pipeline/world_builder.rs:73-86 | within the 16 voxels of world height, a column of height at least 1 is dirt throughout, and a column of height 0 is grass at the bottom and empty above |
| WorldBuilder.FillZLookup | src/render_pipeline/world_builder.rs:58-87 | after the `z` loop, each voxel of its line holds the world's voxel if that one is solid and keeps its old content otherwise; all other voxels are unchanged |
| WorldBuilder.FillYLookup | src/render_pipeline/world_builder.rs:57-88 | the same for the `y` loop and its layer |
| WorldBuilder.FillXLookup | src/render_pipeline/world_builder.rs:56-89 | the same for the `x` loop and the whole brick |
| WorldBuilder.BrickContentLookup | src/render_pipeline/world_builder.rs:55-89 | a filled brick holds, at each local position inside it, exactly the world's voxel there: grass on the surface, dirt below, empty above or outside the height map; it holds nothing outside the brick |
| WorldBuilder.FillRow | src/render_pipeline/world_builder.rs:58-87 | the `z` loop, with its skip and its writes, builds the brick the fill specification gives |
| WorldBuilder.FillBrick | src/render_pipeline/world_builder.rs:55-90 | the three voxel loops build the brick the fill specification gives |
| WorldBuilder.CpuBrickmap.constructor | src/render_pipeline/world_builder.rs:41 | the brickmap is created with the given depth and no calls |
| WorldBuilder.CpuBrickmap.PlaceBrick | src/render_pipeline/world_builder.rs:98-100 | placement succeeds exactly when every coordinate fits in `depth` bits, and only a successful one is recorded |
| WorldBuilder.CpuBrickmap.RecreateMipmaps | src/render_pipeline/world_builder.rs:107 | one mipmap rebuild is recorded after the existing calls |
| WorldBuilder.BzRunSound | src/render_pipeline/world_builder.rs:54-100 | every call of the `brick_z` loop places the brick holding the world region of its position |
| WorldBuilder.BxRunSound | src/render_pipeline/world_builder.rs:53-101 | the same for the `brick_x` loop |
| WorldBuilder.ByRunSound | src/render_pipeline/world_builder.rs:52-102 | the same for the `brick_y` loop |
| WorldBuilder.CzRunSound | src/render_pipeline/world_builder.rs:51-103 | the same for the `chunk_z` loop |
| WorldBuilder.CxRunSound | src/render_pipeline/world_builder.rs:50-104 | the same for the `chunk_x` loop |
| WorldBuilder.PlacedBrickContent | src/render_pipeline/world_builder.rs:50-104 | every call of `setup_voxels` places a brick, holding at local position `p` the world's voxel at `pos * BRICK_SIZE + p` |
| WorldBuilder.IndexOf | src/render_pipeline/world_builder.rs:92-96 | the loop indices it gives reach the brick position it was given |
| WorldBuilder.PositionsDistinct | src/render_pipeline/world_builder.rs:92-96 | distinct loop indices give distinct brick positions, all inside the box of `chunks * 16 / BRICK_SIZE` bricks per horizontal side and `16 / BRICK_SIZE` high |
| WorldBuilder.PositionsCovered | src/render_pipeline/world_builder.rs:92-96 | every position of that box is reached by loop indices within the loop bounds |
| WorldBuilder.BzRunAt | src/render_pipeline/world_builder.rs:54-100 | the `brick_z` loop makes `n` calls, the `j`-th placing brick `brick_z = j` |
| WorldBuilder.BxRunAt | src/render_pipeline/world_builder.rs:53-101 | the `brick_x` loop makes `n * side` calls, the call of `(brick_x, brick_z)` sitting at `brick_x * side + brick_z` |
| WorldBuilder.ByRunAt | src/render_pipeline/world_builder.rs:52-102 | the `brick_y` loop's calls, and where the call of each index triple sits |
| WorldBuilder.CzRunAt | src/render_pipeline/world_builder.rs:51-103 | the `chunk_z` loop's calls, and where the call of each index quadruple sits |
| WorldBuilder.CxRunAt | src/render_pipeline/world_builder.rs:50-104 | the `chunk_x` loop's calls, and where the call of each loop index sits |
| WorldBuilder.IndexAt | src/render_pipeline/world_builder.rs:50-54 | every position of the call sequence is the place of loop indices within the loop bounds |
| WorldBuilder.PlacementsAt | src/render_pipeline/world_builder.rs:50-104 | `setup_voxels` makes `chunks² · side³` placements, and the call of loop indices `i` places the brick at their brick position |
| WorldBuilder.PlacedOnce | src/render_pipeline/world_builder.rs:92-100 | two placements put bricks at the same position only if they are the same call, and every placement lies inside the box |
| WorldBuilder.EveryPositionPlaced | src/render_pipeline/world_builder.rs:92-100 | every position of the box is placed |
| WorldBuilder.BrickmapFilled | src/render_pipeline/world_builder.rs:41-100 | for a world at least one chunk wide, every brick of the brickmap's capacity in x and z, up to `16 / BRICK_SIZE` bricks high, is placed |
| WorldBuilder.VoxelCoordinateUnique | src/render_pipeline/world_builder.rs:59-61 | a global voxel coordinate determines its chunk, brick and local index, so each voxel of a column is visited by one choice of loop indices |
| WorldBuilder.SetupGeometry | src/render_pipeline/world_builder.rs:41-50 | `2^world_depth / 16` chunks of `16 / BRICK_SIZE` bricks make exactly `2^(world_depth - log2 BRICK_SIZE)` bricks per side, the capacity of the brickmap; a world narrower than a chunk has no chunks |
| WorldBuilder.OriginOfPosition | src/render_pipeline/world_builder.rs:59-61 | the voxel coordinates the loops compute for a brick are its brick-grid position scaled by `BRICK_SIZE` |
| WorldBuilder.PlaceOneBrick | src/render_pipeline/world_builder.rs:55-100 | one round of the brick loops fills the brick and places it; the placement never fails |
| WorldBuilder.PlaceBrickRow | src/render_pipeline/world_builder.rs:54-101 | the `brick_z` loop records exactly the calls of its run specification |
| WorldBuilder.PlaceBrickLayer | src/render_pipeline/world_builder.rs:53-102 | the `brick_x` loop records exactly the calls of its run specification |
| WorldBuilder.PlaceChunk | src/render_pipeline/world_builder.rs:52-103 | the `brick_y` loop records exactly the calls of its run specification |
| WorldBuilder.PlaceChunkColumn | src/render_pipeline/world_builder.rs:51-104 | the `chunk_z` loop records exactly the calls of its run specification |
| WorldBuilder.PlaceChunks | src/render_pipeline/world_builder.rs:50-105 | the `chunk_x` loop records exactly the placements of `setup_voxels`, in loop order |
| WorldBuilder.SetupVoxels | src/render_pipeline/world_builder.rs:37-109 | fails exactly when the palette has no dirt colour; otherwise it returns a new brickmap of depth `world_depth - log2 BRICK_SIZE` that received every placement, in loop order, followed by exactly one mipmap rebuild; voxels are filled through the corrected column guard |

## Left out

- I/O is not modelled. Opening and parsing the palette JSON becomes a parameter, the parsed map. Opening and decoding the image becomes a parameter, `Result<Image, string>`. The image's `to_luma` becomes the image's `luma` function.
- Logging (`println!`, `error!`) and `format_duration` are left out. `LogTimings` returns the report it would print.
- Clocks are parameters: the elapsed time of a timed call, and the current time of a log, in nanoseconds.
- The process-wide `Mutex`/`Lazy` around the pending timings is a plain object (`PendingTimings`). There is no concurrency to model.
- Floating point is not modelled:
  - the sort key is an abstract integer distance function;
  - `position` and `scale` are exact integers. The `f32` fields hold them exactly only while their magnitude is at most 2^24 (`pos.as_vec3()` and the cast of the shift results round beyond that);
  - the surface height `h * 200` is exact integer arithmetic, which is exact in `f32` for the 8-bit grey levels the height map holds.
- The brickmap internals are not modelled: tree allocation, octant choice, mipmap aggregation and `recursive_search`. Only their interfaces are.
- The render plumbing is not modelled: plugin wiring, mesh handles, pipeline specialisation, GPU buffer creation and bind groups. The vertex layout and the drawn range are modelled.
- The unused constants `REGION_SIZE` and `WORLD_ORIGIN_OFFSET` are not modelled.
- The algorithms of `radsort::sort_by_cached_key` and `slice::sort` are library code and are not modelled. `Sorting.SortByKey` has the same three properties: ordered, a permutation, and stable.
- Timeit.TimingData: `count` is `nat`, and `total` is unbounded, so the `u32` count overflow and the `Duration` addition overflow are not modelled.
- Timeit.TimeitMut: the timed closure is modelled as a pure `() -> T`, as for `Timeit.Timeit`. The effects of an `FnMut` closure on the state it captures are not modelled; only the result and the recorded duration are.
- Timeit.TimingAggregator.LogTimings: it requires `lastLog <= now`. The source's `duration_since(...).unwrap()` panics when the clock goes backwards.
- WorldBuilder.SetupVoxels: it requires `brickLog <= worldDepth < 32` and `brickLog <= 4`.
  - The source panics, in debug builds, on the `u32` subtraction `world_depth - trailing_zeros` and on the `1 << world_depth` shift outside those bounds.
  - `BRICK_SIZE` is a power of two no larger than a chunk in the configuration this models.
  - It fills voxels with the corrected column guard `WorldBuilder.Read`, not the guard as written at world_builder.rs:63-75.
    - On a height map that is not square it fills columns the source skips, and it does not panic where the source reads out of range (`WorldBuilder.ColourOffSquareMaps`).
    - On square height maps it agrees with the source (`WorldBuilder.GuardAgreesOnSquareMaps`).
- VoxelRender.InstanceOf: the shifts `1 << (brickmap_depth - 1)` and `1 << (brickmap_depth - depth)` shift an `i32` literal, but `Pow2` is exact for every depth. A shift by 31 gives `i32::MIN`, a negative centring offset or scale. A shift by 32 or more panics in builds with overflow checks and is masked otherwise. The model's offsets and scales are therefore faithful only for shift amounts of at most 30.
- VoxelRender.PrepareInstanceBuffers: it requires `brickmapDepth >= 1`. With depth 0, the centring shift `1 << (brickmap_depth - 1)` at voxel_render.rs:102 panics in builds with overflow checks, but only once a brick node is visited. Nodes with a value at most `BRICK_OFFSET` return at lines 98-100, before the shift. A traversal with no brick node therefore succeeds in the source at depth 0, but the model does not cover it. `VoxelRender.VisitAsWritten` models both outcomes, and `VoxelRender.AsWrittenWithoutBricks` proves that such a traversal collects nothing as written.
- `recursive_search`'s own guarantees are not modelled, since it is not part of this model: which nodes it visits, and in what order. The extractor's properties hold for any sequence of visits whose indices lie inside the node array (`VoxelRender.Indexable`). The source panics on `brickmap[index]` for any other visit.

## Findings

| source | as written | input that shows it | evidently intended | confidence | as-written member | corrected member |
|---|---|---|---|---|---|---|
| src/render_pipeline/voxel_render.rs:102-110 | the scale `1 << (brickmap_depth - depth)` is computed with a `u32` subtraction before the guard `depth > brickmap_depth` that was meant to log and skip such nodes; in builds with overflow checks the subtraction panics first (release builds wrap and reach the guard) | a tree of depth 1 with node values `[11]`, `BRICK_OFFSET` 10, and one visit of node 0 at depth 2 | the deep node is logged and skipped, and no instance is emitted | not executed | VoxelRender.AsWrittenCounterexample | VoxelRender.CollectInstances |
| src/render_pipeline/world_builder.rs:63-75 | the guard compares `global_x` with the number of rows and `global_z` with the length of the first row, but the height is read at `[global_z][global_x]` | a height map of one row and two columns, `[[0, 0]]`: column x 0, z 1 passes the guard and is read out of range (a panic); column x 1, z 0 exists but is skipped | skip exactly the columns outside the height map, and read every other one | not executed | WorldBuilder.GuardAsWrittenCounterexample | WorldBuilder.Read |

# RLpbr Vulkan backend bookkeeping, in Dafny

This project models the integer and sequence bookkeeping that RLpbr's Vulkan
backend (`VulkanBackend`, `src/vulkan/render.cpp`) does around its Vulkan calls,
and the move-only owning handles of the public API (`src/rlpbr_core/common.cpp`).
The GPU work itself is not modelled.

- **`Align`** holds the allocator's round-up helpers. `alignStorageBufferOffset`
  and `divideRoundUp` are not part of this model; they are taken to round up to
  a multiple and to divide rounding up, both with a positive divisor.
- **`ParamLayout`** is the per-batch parameter blob. It has four sections
  (instance transforms, material indices, lights, packed environments), and
  each starts on the storage-buffer alignment.
- **`FramebufferLayout`** covers how `batchSize` images are tiled into one
  framebuffer. It includes the divisor search for the images per row, the
  minibatch grid, plane sizes and tile counts, the probe framebuffer and the
  launch size. Frame sides, pixel count and plane sizes are `uint32_t`
  fields, so each is reduced modulo 2^32; a large batch wraps them.
- **`FramebufferSlots`** is `makeFramebuffer`: the output-buffer slot numbers
  and the buffers allocated, in allocation order.
- **`DescriptorWiring`** is `makePerBatchState`: the resource every descriptor
  binding of the two ray-tracing sets, the exposure set and the tonemap set
  points at. This includes the reservoir ping-pong between the two sets.
- **`Queues`** covers the sharing flags of the transfer and compute queues and
  the queues `makeLoader` hands to each loader.
- **`GridIndex`** holds row-major linear indices over three-dimensional grids
  and their inverse. They serve the adaptive tile readback and the probe grid.
- **`RenderPacking`** is the start of `render`. The TLAS pass rebuilds dirty
  environments. Then the packing loop appends each environment's transforms,
  material indices and lights to flat arrays and records prefix-sum offsets.
- **`AdaptiveTiles`** is the adaptive-sampling work list in
  batch / tile-row / tile-column / sample order, plus the readback index of a
  tile.
- **`RenderEngine`** is the state `VulkanBackend` keeps between calls, as the
  class `Backend`. Its fields are the loader counter, `cur_queue_`,
  `frame_counter_`, `probes_` and the probe generator. The class's methods
  model:
  - `makeLoader`;
  - `render`, with its `curBuffer` / `cur_queue_` toggles;
  - `bakeProbe`, which forces `curBuffer` to 0 and restores it;
  - `bake`, which loads the probe file, lists the remaining grid cells, bakes
    them and appends them to the file.

  What the GPU is asked to do is recorded as a list of dispatches.
- **`ByteCodec`**, **`ProbeFile`** and **`ProbeBake`** cover the probe cache
  file and the bake bookkeeping. The file is a 12-byte `ivec3` dims header,
  then records of an 8-byte size and that many bytes. The code writes an
  8-byte `VkDeviceSize`, although the comment above the writer says 4 bytes;
  the model follows the code. These modules state both what `bake` does as
  written and what it is evidently meant to do (see Findings).
- **`Handles`** covers `EnvironmentImpl`, `BakerImpl`, `LoaderImpl` and
  `RendererImpl`. They are modelled as classes whose constructors, move
  operations and destructors update fields in place and log destroy-hook calls.
  An ownership model over any number of handles proves two things: no backend
  state is destroyed twice, and nothing leaks once every handle is gone.

`Backend` follows the code as written, including the extra probe the load loop
pushes and the probe-file layout that `bake` produces. `ProbeBake` proves the
corrected bake next to it.

## Model

| member | source | states |
|---|---|---|
| Align.AlignUp | src/vulkan/render.cpp:54-72 | the offset `alignStorageBufferOffset` returns is a multiple of the alignment, not below the offset asked for and less than one alignment above it |
| Align.AlignUpIsLeast | src/vulkan/render.cpp:54-72 | no multiple of the alignment at or after the offset lies below the aligned offset, so the rounding is to the nearest aligned offset |
| Align.DivideRoundUp | src/vulkan/render.cpp:152-155 | `divideRoundUp(n, d)` is the least count of `d`-wide groups covering `n` |
| ParamLayout.GetParamBufferConfig | src/vulkan/render.cpp:44-75 | section sizes are the transform, material-index, light and environment capacities; each section starts at the first aligned offset after the previous one ends, and the total is the first aligned offset after the last section |
| ParamLayout.SectionsDisjointAndAligned | src/vulkan/render.cpp:44-75 | the four sections start aligned, appear in order without overlap, all fit inside `totalParamBytes`, which is aligned and at least the sum of the four sizes |
| ParamLayout.LayoutIsTight | src/vulkan/render.cpp:54-72 | every other aligned, in-order, non-overlapping placement of the four sections puts each section start and the total at or after the computed one |
| FramebufferLayout.CeilSqrt | src/vulkan/render.cpp:118 | `ceil(sqrt(n))` is the least `r` with `r * r >= n` |
| FramebufferLayout.SmallestDivisorFrom | src/vulkan/render.cpp:118-121 | the width search stops at the least divisor of the batch size at or after its start, and it does stop because the batch size divides itself |
| FramebufferLayout.ImagesWideIsNearSquare | src/vulkan/render.cpp:118-121 | the images per row divide the batch size, their square covers it, and no smaller divisor has a square that covers it |
| FramebufferLayout.BatchGridSound | src/vulkan/render.cpp:112-138 | the minibatch size `max(batch / divisor, batch)` always equals the batch size, it divides the batch, a row at least a minibatch wide is a whole number of minibatches, the batch grid multiplies out to the batch size and the minibatch grid to the minibatch size (the assertions at 116, 126, 134-135 and 138 hold) |
| FramebufferLayout.GetFramebufferConfig | src/vulkan/render.cpp:110-183 | the `while` search and the branches on the minibatch compute the configuration defined by `FramebufferConfigOf`: its grid multiplies out, its frame sides are the image grid and its pixel count and plane sizes are the per-pixel or per-tile sizes times the counts, each reduced modulo 2^32 as the `uint32_t` holding it |
| FramebufferLayout.FramebufferConfigSound | src/vulkan/render.cpp:110-183 | every configuration getFramebufferConfig returns satisfies the grid assertions and the frame and plane sizes, each product reduced modulo 2^32 as the `uint32_t` holding it |
| FramebufferLayout.SizesExactWhileTheyFit | src/vulkan/render.cpp:139-161 | while 16 bytes for every pixel of the batch fit in 32 bits nothing wraps: the frame holds exactly the batch's pixels, and the output, HDR, normal, albedo and illuminance planes have their exact sizes (the reservoir and adaptive planes too when their own products fit) |
| FramebufferLayout.HdrPlaneWrapsExample | src/vulkan/render.cpp:139-145 | 4096 images of 256x256 form a 64x64 grid of 16384x16384 pixels: the output plane is 2^31 bytes and the HDR plane wraps to 0 bytes |
| FramebufferLayout.CeilSqrtIs | src/vulkan/render.cpp:118 | `ceil(sqrt(n))` is the only `r` with `r * r >= n > (r - 1) * (r - 1)` |
| FramebufferLayout.ProbeFramebufferConfig | src/vulkan/render.cpp:77-108 | the probe framebuffer is one image of the probe size, its frame that size, on a one-by-one grid with a single tile, its illuminance and adaptive planes one element each |
| FramebufferLayout.ProbeConfigIsSingleImageBatch | src/vulkan/render.cpp:77-183 | for 32-bit sizes, the probe layout equals the general layout of a one-image batch except that it counts one tile regardless of size |
| FramebufferLayout.GetLaunchSize | src/vulkan/render.cpp:1291-1298 | each workgroup count is the least one whose workgroups cover the image width, image height and batch size |
| FramebufferLayout.LaunchMatchesTiles | src/vulkan/render.cpp:152-155 | the launch grid in x and y equals the framebuffer's tile grid |
| FramebufferLayout.TilingExamples | src/vulkan/render.cpp:118-141 | four 64x64 images form a 2x2 grid of 128x128 pixels and six form a 3x2 grid of 192x128 pixels |
| FramebufferSlots.MakeFramebuffer | src/vulkan/render.cpp:641-765 | output is slot 0 and HDR slot 1, normal and albedo are 2 and 3 only with auxiliary outputs, illuminance and adaptive take the next free slots when enabled and are -1 otherwise; every slot names the buffer allocated for its plane with the layout's size, buffers follow the allocation order, and the exported buffers and two reservoirs are the ones allocated; the adaptive and exposure readbacks exist only with adaptive sampling, sized as the adaptive and illuminance planes |
| FramebufferSlots.AllocationMatchesSlots | src/vulkan/render.cpp:653-728 | the slot numbers handed out by counting `num_buffers` name the buffers the allocation later places for those planes |
| FramebufferSlots.AllocationInOrder | src/vulkan/render.cpp:680-728 | the allocation holds only enabled planes, each once, in allocation order, one buffer per slot counted |
| FramebufferSlots.SlotsDistinct | src/vulkan/render.cpp:653-678 | two distinct enabled planes never share a slot and every slot is below the buffer count |
| DescriptorWiring.Bound | src/vulkan/render.cpp:1014 | after `update` a binding holds the resource of its last write, which is one of the writes; an unwritten binding holds nothing |
| DescriptorWiring.BoundIsTable | src/vulkan/render.cpp:893-1014 | when the writes realise the binding table, each binding holds exactly the table's resource and a binding outside the table holds nothing |
| DescriptorWiring.MakePerBatchWrites | src/vulkan/render.cpp:824-1014 | the writes makePerBatchState queues realise the binding table: each agrees with it, no binding is written twice and every binding the enabled features need is written |
| DescriptorWiring.BindSceneAndLuts | src/vulkan/render.cpp:893-913 | the loop over both ray-tracing sets writes bindings 0-3, 6-10 and 13 of each set, as the table says |
| DescriptorWiring.BindSceneAndLutsOf | src/vulkan/render.cpp:894-912 | one iteration writes the parameter ranges, lookup textures and HDR plane of one set |
| DescriptorWiring.BindReservoirs | src/vulkan/render.cpp:915-935 | reservoir 0 goes to binding 11 of set 0 and binding 12 of set 1, reservoir 1 the other way round |
| DescriptorWiring.BindAuxiliary | src/vulkan/render.cpp:940-959 | with auxiliary outputs both sets get the normal and albedo planes at 14 and 15; without them nothing is written |
| DescriptorWiring.BindAuxiliaryOf | src/vulkan/render.cpp:954-957 | one iteration writes bindings 14 and 15 of one set |
| DescriptorWiring.BindTonemap | src/vulkan/render.cpp:963-989 | with tonemapping both sets get the illuminance plane at 16, then the exposure and tonemap sets are wired; without it nothing is written |
| DescriptorWiring.BindExposureAndTonemap | src/vulkan/render.cpp:975-988 | the exposure set reads illuminance and HDR, the tonemap set illuminance, HDR and the output plane |
| DescriptorWiring.BindAdaptive | src/vulkan/render.cpp:993-1012 | with adaptive sampling both sets get the tile list at 17, sized for two tile lists, and the adaptive plane at 18; without it nothing is written |
| DescriptorWiring.BindAdaptiveOf | src/vulkan/render.cpp:1007-1010 | one iteration writes bindings 17 and 18 of one set |
| DescriptorWiring.ReservoirsCrossBound | src/vulkan/render.cpp:915-935 | what set 0 sees as the current reservoir set 1 sees as the previous one and the other way round, so the two sets ping-pong |
| DescriptorWiring.ReservoirBound | src/vulkan/render.cpp:915-935 | binding 11 of set 0 and binding 12 of set 1 hold reservoir 0; the other two reservoir bindings hold reservoir 1 |
| DescriptorWiring.SetsAgreeOutsideReservoirs | src/vulkan/render.cpp:893-1012 | every binding other than 11 and 12 holds the same resource in both ray-tracing sets |
| DescriptorWiring.BoundOutputsHoldTheirPlanes | src/vulkan/render.cpp:880-1012 | with the slots makeFramebuffer assigns, every binding that points at an output buffer points at an allocated buffer holding the plane it is meant for, over that buffer's whole size |
| DescriptorWiring.TableOutputSlot | src/vulkan/render.cpp:880-1004 | every output-buffer binding names the slot and size of an enabled plane |
| DescriptorWiring.ParamBindingsDisjoint | src/vulkan/render.cpp:826-848 | the four parameter bindings of a set cover aligned, disjoint ranges in layout order inside the parameter buffer |
| DescriptorWiring.DescriptorUpdates.constructor | src/vulkan/render.cpp:825 | the update batch starts with no queued writes |
| DescriptorWiring.DescriptorUpdates.Buffer | src/vulkan/render.cpp:894-905 | a buffer write queues exactly one write for that set and binding, after those already queued |
| DescriptorWiring.DescriptorUpdates.Textures | src/vulkan/render.cpp:906-910 | a texture write queues exactly one write for that set and binding, after those already queued |
| Queues.NumTransferComputeQueues | src/vulkan/render.cpp:1277 | the compute queues left for loaders are all but the renderer's two, and none when the device has fewer than two |
| Queues.InitTransferQueues | src/vulkan/render.cpp:1257-1270 | one transfer queue per device queue, index `i` at position `i`, each flagged shared exactly when there are more loaders than transfer queues |
| Queues.InitComputeQueues | src/vulkan/render.cpp:1272-1289 | one compute queue per device queue, index `i` at position `i`; a queue is shared when no queue is left for loaders, or when it is a loader queue (index 2 and up) and loaders outnumber loader queues |
| Queues.PickLoaderQueues | src/vulkan/render.cpp:1385-1396 | the compute and transfer queues a loader is handed exist, and a loader is kept off the renderer's queues 0 and 1 whenever a loader queue exists |
| Queues.ComputeSharingIsFlagged | src/vulkan/render.cpp:1272-1396 | two loaders created within the loader count that land on the same compute queue find it flagged shared |
| Queues.TransferSharingIsFlagged | src/vulkan/render.cpp:1257-1396 | two loaders created within the loader count that land on the same transfer queue find the transfer queues flagged shared |
| Queues.RenderQueuesProtected | src/vulkan/render.cpp:1280-1393 | a loader only lands on one of the renderer's queues when no loader queue exists, and that queue is then flagged shared |
| Queues.LoaderBeyondCountMeetsUnflaggedQueue | src/vulkan/render.cpp:1387-1393 | without the loader-count assertion, loader 1 of one configured loader on three compute queues would meet loader 0 on queue 2, which is not flagged shared |
| GridIndex.Delinear | src/vulkan/render.cpp:2511-2516 | `x = idx % dx`, `y = (idx / dx) % dy`, `z = idx / (dx * dy) % dz` always names a cell inside the grid |
| GridIndex.LinearInRange | src/vulkan/render.cpp:1911-1913 | the index `x + dx * (y + dy * z)` of a cell inside the grid lies inside the grid |
| GridIndex.DelinearOfLinear | src/vulkan/render.cpp:2511-2516 | decomposing a cell's linear index gives the cell back |
| GridIndex.LinearOfDelinear | src/vulkan/render.cpp:2511-2516 | the linear index of the decomposed cell is the index, for every index inside the grid |
| GridIndex.LinearInjective | src/vulkan/render.cpp:1911-1913 | distinct cells of the grid have distinct linear indices |
| AdaptiveTiles.LaunchesPerTile | src/vulkan/render.cpp:1849-1854 | the sample loop starts one launch per `adaptive_samples_per_thread` samples: the least count of launches covering `spp` samples |
| AdaptiveTiles.LaunchCountUnique | src/vulkan/render.cpp:1849-1854 | any count of launches that covers `spp` and stops before passing it is that launch count |
| AdaptiveTiles.EntryAtPosition | src/vulkan/render.cpp:1832-1857 | the launch of image `b`, tile row `y`, tile column `x` and sample launch `k` sits at its mixed-radix position in batch / row / column / sample order |
| AdaptiveTiles.WriteTileLaunches | src/vulkan/render.cpp:1849-1855 | the sample loop of one tile appends exactly that tile's launches, with sample offsets 0, step, 2 step, ... below spp, right after the tiles before it |
| AdaptiveTiles.BuildWorkList | src/vulkan/render.cpp:1830-1861 | the initial work list has batchSize x tilesTall x tilesWide x ceil(spp / step) entries, and entry `p` is the launch whose batch / row / column / sample position is `p` |
| AdaptiveTiles.EntryInRange | src/vulkan/render.cpp:1830-1861 | every entry of the work list names an image of the batch, a tile of the tile grid and a sample offset below spp on a launch boundary |
| AdaptiveTiles.EveryLaunchListed | src/vulkan/render.cpp:1830-1861 | every launch of every tile appears on the work list, at a position inside it, so each tile's samples are all queued |
| AdaptiveTiles.ProcessAdaptiveTile | src/vulkan/render.cpp:1910-1934 | processAdaptiveTile returns before its variance test, so it never queues the tile again |
| AdaptiveTiles.ReadbackIndexSound | src/vulkan/render.cpp:1911-1916 | the readback index `batch * tall * wide + y * wide + x` is the tile's row-major index and lies inside the readback buffer of one record per tile of the batch |
| AdaptiveTiles.ReadbackIndexInjective | src/vulkan/render.cpp:1911-1916 | two tiles of the batch never read the same readback record |
| AdaptiveTiles.ProcessAllTiles | src/vulkan/render.cpp:1941-1950 | one refine pass visits every tile's readback record once, in order, and queues nothing |
| RenderPacking.OffsetStep | src/vulkan/render.cpp:1698-1722 | each environment's running offset is the previous offset plus the previous environment's count, starting from 0 |
| RenderPacking.ConcatSlice | src/vulkan/render.cpp:1698-1722 | environment `i`'s slice sits at its running offset inside the flat array of any prefix of the batch that contains it |
| RenderPacking.AfterTlasPass | src/vulkan/render.cpp:1640-1656 | after the TLAS loop an environment is clean; its TLAS was rebuilt once exactly when it was dirty, and nothing else about it changed |
| RenderPacking.BuildTlases | src/vulkan/render.cpp:1640-1656 | the TLAS loop rebuilds only the dirty environments of the batch and clears each one's dirty flag, leaving the others as they were |
| RenderPacking.TlasPassIdempotent | src/vulkan/render.cpp:1640-1656 | a second TLAS pass right after the first rebuilds nothing |
| RenderPacking.Settled | src/vulkan/render.cpp:1640-1700 | after a frame an environment is clean and its previous camera is the camera just rendered; nothing else changed apart from the rebuild count |
| RenderPacking.PackStep | src/vulkan/render.cpp:1674-1733 | one iteration of the packing loop appends environment `n`'s record and its transforms, material indices and lights to what the first `n` environments packed |
| RenderPacking.PackEnvironments | src/vulkan/render.cpp:1670-1733 | the packing loop writes, for every environment, the record whose material and light offsets are running sums, and the three flat arrays as the concatenation of every environment's data; each environment's prevCam becomes its camera and nothing else changes |
| RenderPacking.PackedOffsetsArePrefixSums | src/vulkan/render.cpp:1670-1722 | `data.y` and `data.z` start at 0 and each environment's offset is the previous one's plus its material and light count; `data.w` is the environment's own light count |
| RenderPacking.PackedSlicesAreTheEnvironments | src/vulkan/render.cpp:1674-1722 | at the offsets recorded for environment `i` the shader finds exactly that environment's materials, lights and transforms |
| RenderPacking.PackingFitsSections | src/vulkan/render.cpp:1696-1720 | when the batch holds no more instances and lights than the blob was sized for, every copy of the packing loop stays inside its section of the parameter layout |
| RenderPacking.PackIgnoresTlasPass | src/vulkan/render.cpp:1640-1733 | the TLAS pass changes nothing the packing reads: the records and arrays are the same before and after it |
| RenderPacking.SettledIdempotent | src/vulkan/render.cpp:1640-1700 | a second frame over a settled environment leaves it as it is |
| RenderPacking.SettleAll | src/vulkan/render.cpp:1640-1700 | a frame settles every environment of the batch |
| RenderPacking.SettleAllIdempotent | src/vulkan/render.cpp:1640-1700 | settling a batch twice is settling it once |
| RenderPacking.NextFrameSeesThisCamera | src/vulkan/render.cpp:1686-1692 | the next frame rebuilds no TLAS and packs the camera of this frame as each environment's previous camera |
| RenderPacking.Pack | src/vulkan/render.cpp:1670-1733 | the packing writes one packed record per environment of the batch |
| RenderEngine.Toggle | src/vulkan/render.cpp:2069-2070 | `(x + 1) & 1` is always 0 or 1, and on 0 or 1 it gives the other one |
| RenderEngine.ToggledAlternates | src/vulkan/render.cpp:2069-2070 | after `k` frames the descriptor-set and queue indices are the start index shifted by `k` modulo 2, so consecutive frames alternate |
| RenderEngine.ParityStep | src/vulkan/render.cpp:2069-2070 | toggling the parity of `n` gives the parity of `n + 1` |
| RenderEngine.BurstDispatches | src/vulkan/render.cpp:2324-2348 | bakeProbe records one dispatch per 64 samples of spp |
| RenderEngine.BurstCoversSamples | src/vulkan/render.cpp:2324-2325 | every sample offset below spp on a multiple of 64 gets a dispatch whose push constant is that offset times 64, and no other dispatch is recorded |
| RenderEngine.BatchBackend.constructor | src/vulkan/render.cpp:1434-1479 | a new batch starts on descriptor set 0 |
| RenderEngine.Backend.constructor | src/vulkan/render.cpp:1334-1378 | the backend starts with its framebuffer layout and launch size computed from the configuration, no loader, queue 0, frame counter 0 and no probes |
| RenderEngine.Backend.MakeLoader | src/vulkan/render.cpp:1385-1401 | the loader counter moves on every call; a loader within the configured count gets the queues PickLoaderQueues names, and one beyond it fails the assertion, modelled as an error |
| RenderEngine.Backend.RefineAdaptive | src/vulkan/render.cpp:1936-1978 | the refine loop advances the frame counter once per pass and stops as soon as no tile is queued; since processAdaptiveTile queues nothing, exactly one pass runs and nothing more is dispatched or submitted |
| RenderEngine.Backend.RenderPasses | src/vulkan/render.cpp:1814-2008 | given that the planes it reads exist, with adaptive sampling the frame dispatches the whole initial work list, runs the refine loop and submits once; without it the frame is one full-frame launch; either way the frame counter moves by the batch size |
| RenderEngine.Backend.Render | src/vulkan/render.cpp:1580-2071 | given that the planes it reads exist, a frame uses the batch's current descriptor set and the current queue, settles every environment, writes the packing of the environments as they were, dispatches in order the frame, the denoiser when enabled and the exposure and tonemap passes when enabled, submits once more, advances the frame counter by the batch size and toggles both ping-pong indices |
| RenderEngine.Backend.BurstLoop | src/vulkan/render.cpp:2324-2348 | the `for (i = 0; i < spp; i += 64)` loop records exactly BurstDispatches |
| RenderEngine.Backend.BakeProbe | src/vulkan/render.cpp:2073-2456 | bakeProbe binds descriptor set 0 whatever the batch's index, packs every environment with the probe camera, records the burst dispatches, advances the frame counter by the batch size, restores the batch's index and leaves the queue index alone |
| RenderEngine.Backend.LoadLoop | src/vulkan/render.cpp:2480-2482 | the load loop appends to probes_ every complete record of the body in file order, then one more probe for the read that hits the end of the file |
| RenderEngine.Backend.LoadFile | src/vulkan/render.cpp:2468-2483 | an existing file whose dims header is short or differs from PROBE_DIM fails the assertion; otherwise its records are loaded as the load loop reads them |
| RenderEngine.Backend.ProbePositions | src/vulkan/render.cpp:2509-2519 | the positions loop lists the grid cells of indices `start .. start + left - 1` in ascending order |
| RenderEngine.Backend.BakeStep | src/vulkan/render.cpp:2549-2555 | one pass of the bake loop pushes the new probe and appends the record of `probes_[i]` to the file |
| RenderEngine.Backend.BakeEach | src/vulkan/render.cpp:2549-2555 | the bake loop pushes one baked probe per position, in order; the file gains the records of `probes_[0 .. n - 1]`; the frame counter moves by the batch size per probe |
| RenderEngine.Backend.BakeRemaining | src/vulkan/render.cpp:2485-2557 | the baking half of bake creates a fresh probe generator, bakes `left` probes from `start` and appends a dims header and their records to the file, as AppendAsWritten defines |
| RenderEngine.Backend.Bake | src/vulkan/render.cpp:2460-2560 | bake fails exactly when the load branch's assertion fails; otherwise the probes and the file are those BakeAsWritten defines and the frame counter moves by the batch size per baked probe |
| ByteCodec.EncodeLE | src/vulkan/render.cpp:2794 | an n-byte little-endian encoding is exactly n bytes long |
| ByteCodec.DecodeLE | src/vulkan/render.cpp:2564-2565 | the value read from n bytes is below 256^n |
| ByteCodec.DecodeEncodeLE | src/vulkan/render.cpp:2564-2565 | reading back the bytes written for any value that fits returns that value |
| ByteCodec.EncodeDecodeLE | src/vulkan/render.cpp:2564-2565 | any n bytes are the encoding of the value they decode to, so every byte string is a valid field |
| ByteCodec.EncodeLEInjective | src/vulkan/render.cpp:2794 | two values that fit and share an encoding are equal |
| ByteCodec.EncodeU64 | src/vulkan/render.cpp:2794 | the `VkDeviceSize` size field takes 8 bytes |
| ByteCodec.DecodeU64 | src/vulkan/render.cpp:2564-2565 | the size read back is a 64-bit unsigned value |
| ByteCodec.U64RoundTrip | src/vulkan/render.cpp:2564-2565 | a size written and read back is the same size |
| ByteCodec.U64BytesRoundTrip | src/vulkan/render.cpp:2564-2565 | 8 bytes read as a size and written again are the same bytes |
| ByteCodec.EncodeI32 | src/vulkan/render.cpp:2545 | one dims component takes 4 bytes |
| ByteCodec.DecodeI32 | src/vulkan/render.cpp:2473-2474 | a dims component read back is a signed 32-bit value |
| ByteCodec.I32RoundTrip | src/vulkan/render.cpp:2473-2474 | a signed 32-bit component, negative ones included, survives write and read |
| ByteCodec.I32BytesRoundTrip | src/vulkan/render.cpp:2473-2474 | 4 bytes read as a component and written again are the same bytes |
| ProbeFile.EncodeHeader | src/vulkan/render.cpp:2545 | the dims header is 12 bytes |
| ProbeFile.DecodeHeader | src/vulkan/render.cpp:2473-2474 | the dims read from a header are three 32-bit ints |
| ProbeFile.HeaderRoundTrip | src/vulkan/render.cpp:2473-2474 | a header written for any dims reads back as those dims |
| ProbeFile.EncodeRecord | src/vulkan/render.cpp:2794-2795 | a record is the 8-byte size field followed by the probe's bytes |
| ProbeFile.EncodeRecordsAppend | src/vulkan/render.cpp:2549-2555 | the records of two probe lists written one after the other are the records of the joined list |
| ProbeFile.EncodeRecordsSnoc | src/vulkan/render.cpp:2553 | writing one more record extends the file by exactly that record |
| ProbeFile.AppendRecord | src/vulkan/render.cpp:2553-2554 | appending a record after a prefix and records gives the prefix and the records of the extended list |
| ProbeFile.ReadProbe | src/vulkan/render.cpp:2562-2568 | a successful read of size field and body consumes at least one byte |
| ProbeFile.ReadProbeExact | src/vulkan/render.cpp:2562-2568 | what one read accepts is exactly one record followed by the unread bytes |
| ProbeFile.ReadProbeOfRecord | src/vulkan/render.cpp:2562-2568 | a record written in front of any bytes reads back as that probe, leaving those bytes |
| ProbeFile.LoadLoopAsWritten | src/vulkan/render.cpp:2480-2482 | the eof-tested loop always ends with a probe from a failed read, and every earlier probe is a complete record |
| ProbeFile.LoadLoopAddsTruncatedProbe | src/vulkan/render.cpp:2480-2482 | loading a well-formed list of records yields those probes plus one extra probe from the read at end of file |
| ProbeFile.LoadProbeFileAsWritten | src/vulkan/render.cpp:2468-2483 | the load succeeds only on a file whose 12-byte header holds PROBE_DIM |
| ProbeFile.ReadRecordStep | src/vulkan/render.cpp:2480-2482 | reading records after a written record yields that record in front of what the rest yields, or fails with it |
| ProbeFile.ShortRecordRefused | src/vulkan/render.cpp:2564-2568 | a size field larger than the bytes that follow makes the intended reader fail |
| ProbeFile.ReadRecordsRoundTrip | src/vulkan/render.cpp:2480-2482 | reading back any written record list yields exactly that list, with no extra probe |
| ProbeFile.ReadRecordsExact | src/vulkan/render.cpp:2480-2482 | bytes the intended reader accepts are exactly the records of the list it returns |
| ProbeFile.LoadProbeFile | src/vulkan/render.cpp:2468-2483 | the intended load succeeds only on a file whose header holds PROBE_DIM |
| ProbeFile.BrokenBodyRefused | src/vulkan/render.cpp:2468-2483 | a body that does not split into whole records makes the intended load fail |
| ProbeFile.ProbeFileRoundTrip | src/vulkan/render.cpp:2544-2555 | a file of one PROBE_DIM header and a record list loads back to exactly those probes |
| ProbeFile.OtherDimsRefused | src/vulkan/render.cpp:2478 | a header with dims other than PROBE_DIM is refused by both readers, whatever follows it |
| ProbeBake.ProbeCell | src/vulkan/render.cpp:2512-2516 | the cell of any probe index lies inside the 3 x 3 x 3 grid |
| ProbeBake.ResumeCoversRemainingCells | src/vulkan/render.cpp:2509-2520 | resuming at `start` visits the cells with linear index start, ..., PROBE_COUNT - 1 in order, and every grid cell at or past `start` is visited at its own position |
| ProbeBake.LeftAsWritten | src/vulkan/render.cpp:2506 | `left` is a 32-bit value: the true difference when nothing wraps, and 2^32 minus the excess when more probes are loaded than the grid holds |
| ProbeBake.BakedProbesStep | src/vulkan/render.cpp:2549-2550 | one more iteration appends the render of the next cell |
| ProbeBake.BakedProbesSplit | src/vulkan/render.cpp:2549-2550 | baking cells 0..k and then k..n gives the same probes as baking 0..n |
| ProbeBake.MaterialiseAppend | src/vulkan/render.cpp:2480-2482 | pushing two runs of loaded probes one after the other pushes their concatenation |
| ProbeBake.Pending | src/vulkan/render.cpp:2480-2482 | the load loop's pushes from a stream position always end with the probe of the failed read |
| ProbeBake.PendingIsLoadLoop | src/vulkan/render.cpp:2480-2482 | those pushes are the load loop's result with its truncated probe given the unread contents |
| ProbeBake.PendingStep | src/vulkan/render.cpp:2480-2482 | one successful read moves its probe from the pending tail to the pushed prefix |
| ProbeBake.ReadAllProbes | src/vulkan/render.cpp:2480-2482 | the while-not-eof loop pushes exactly the pending probes of the whole body, extra probe included |
| ProbeBake.BakeAsWritten | src/vulkan/render.cpp:2460-2560 | a bake that succeeds never loses a probe already in memory: they stay, unchanged and in order, as the prefix of the probes afterwards |
| ProbeBake.AppendAsWritten | src/vulkan/render.cpp:2506-2555 | it bakes `left` probes (the 32-bit difference), keeps the earlier probes as a prefix and appends the baked ones after them |
| ProbeBake.BakeCorrected | src/vulkan/render.cpp:2460-2560 | the intended bake that succeeds never loses a probe already in memory: they stay, unchanged and in order, as the prefix of the probes afterwards |
| ProbeBake.AppendCorrected | src/vulkan/render.cpp:2506-2555 | the intended bake renders exactly the cells still missing (none when the grid is full), after the probes already in memory |
| ProbeBake.CorrectedFreshBake | src/vulkan/render.cpp:2460-2560 | a first bake renders all 27 cells in order and writes a file that loads back to exactly those probes |
| ProbeBake.CorrectedResumeCompletesGrid | src/vulkan/render.cpp:2460-2560 | resuming from a file of k records bakes only the remaining cells, ends with 27 probes, writes one header and 27 records that load back to them, and matches an uninterrupted bake |
| ProbeBake.CorrectedAppendCompletesGrid | src/vulkan/render.cpp:2506-2555 | the baking half of the intended resume completes the grid and leaves a file that loads back to it |
| ProbeBake.BakeCorrectedOnFile | src/vulkan/render.cpp:2468-2483 | the intended load of a file of one header and records puts exactly those records in memory |
| ProbeBake.ResumeAppendCorrected | src/vulkan/render.cpp:2549-2555 | the intended loop appends the records of exactly the probes it baked |
| ProbeBake.FreshBakeAsWrittenAgrees | src/vulkan/render.cpp:2460-2560 | with no file the code as written does the same as the intended bake |
| ProbeBake.FreshAppendsAgree | src/vulkan/render.cpp:2544-2555 | from an empty start, writing `probes_[i]` after one header equals writing the probes baked |
| ProbeBake.BakeAsWrittenOnFile | src/vulkan/render.cpp:2468-2483 | the load as written puts the file's records and one unread probe in memory |
| ProbeBake.CompleteFileReloadWrapsLeft | src/vulkan/render.cpp:2506 | reloading a complete file leaves 28 probes in memory, so `left` wraps to 2^32 - 1 probes to bake |
| ProbeBake.LoadedAsWritten | src/vulkan/render.cpp:2468-2483 | a file of one PROBE_DIM header and records loads, as written, to those records plus the unread probe |
| ProbeBake.MaterialiseLoaded | src/vulkan/render.cpp:2480-2482 | the records and the trailing truncated read become the records plus the unread probe |
| ProbeBake.ResumeAsWrittenLayout | src/vulkan/render.cpp:2506-2555 | resuming from k < 27 records as written bakes 26 - k probes, keeps the unread probe at index k so cell k is never rendered, appends a second header, and writes records for `probes_[0 .. left)` rather than the probes baked |
| ProbeBake.ResumeAppendAsWritten | src/vulkan/render.cpp:2544-2555 | the baking half as written appends a header and the records of the first `left` probes in memory |
| ProbeBake.SecondHeaderBreaksLoad | src/vulkan/render.cpp:2544-2545 | a file with a second dims header after its records is refused by the intended reader |
| ProbeBake.SecondHeaderDropsRecordsAsWritten | src/vulkan/render.cpp:2476-2482 | the loader as written reads such a file without error: it pushes the records before the second header, reads the header's first eight bytes as a size of 3 + 3 * 2^32, comes up short, pushes the probe of that read and drops every record after the header |
| ProbeBake.HeaderEndsLoadLoop | src/vulkan/render.cpp:2480-2482 | a read starting at a dims header comes up short, so the load loop pushes one probe and ends |
| ProbeBake.LoadLoopAfter | src/vulkan/render.cpp:2480-2482 | the load loop pushes well-formed records whole and in order, then goes on with what follows them |
| ProbeBake.BodyAfterHeader | src/vulkan/render.cpp:2473-2474 | skipping the first header leaves the records and what follows them |
| ProbeBake.ReadRecordsAfter | src/vulkan/render.cpp:2480-2482 | reading past a well-formed prefix of records yields those records in front of whatever the rest yields |
| ProbeBake.HeaderReadAsSize | src/vulkan/render.cpp:2564-2568 | a dims header where a record should start is refused as a record too long for the file |
| ProbeBake.HeaderSizeField | src/vulkan/render.cpp:2564-2565 | the size field read over a PROBE_DIM header is 3 + 3 * 2^32 |
| ProbeBake.HeaderPrefixAsSize | src/vulkan/render.cpp:2564-2565 | the two components 3, 3 read as one 8-byte size give 3 + 3 * 2^32 |
| Handles.HookLog.constructor | src/rlpbr_core/common.cpp:29-34 | the record of destroy-hook calls starts empty |
| Handles.EnvironmentImpl.constructor | src/rlpbr_core/common.cpp:10-18 | the handle holds exactly the hooks and the state it is given |
| Handles.EnvironmentImpl.Move | src/rlpbr_core/common.cpp:20-27 | the new handle takes every hook and the state, and the source keeps its hooks but holds no state; as an ownership step, it is `MoveConstruct` on a one-handle world |
| Handles.EnvironmentImpl.Finalize | src/rlpbr_core/common.cpp:29-34 | the destructor invokes the destroy hook on the state iff it holds one; as an ownership step, it is `Destruct` on a one-handle world |
| Handles.EnvironmentImpl.MoveAssign | src/rlpbr_core/common.cpp:36-50 | the old state is destroyed first, then every hook and the state are taken and the source holds nothing; self-assignment destroys the state and leaves the handle null; as an ownership step, it is `MoveAssign` on a two-handle world, or on a one-handle world for self-assignment |
| Handles.BakerImpl.constructor | src/rlpbr_core/common.cpp:52-60 | the handle holds exactly the hooks and the state it is given |
| Handles.LoaderImpl.constructor | src/rlpbr_core/common.cpp:62-70 | the handle holds exactly the hooks and the state it is given |
| Handles.LoaderImpl.Move | src/rlpbr_core/common.cpp:72-79 | the new handle takes every hook and the state, and the source holds no state; as an ownership step, it is `MoveConstruct` on a one-handle world |
| Handles.LoaderImpl.Finalize | src/rlpbr_core/common.cpp:81-86 | the destructor invokes the destroy hook on the state iff it holds one; as an ownership step, it is `Destruct` on a one-handle world |
| Handles.LoaderImpl.MoveAssign | src/rlpbr_core/common.cpp:88-101 | as written: the old state is destroyed, destroy, load_scene and the state are taken, and the handle keeps its own load_env_maps hook; as an ownership step, it is `MoveAssign` on a two-handle world, or on a one-handle world for self-assignment |
| Handles.LoaderImpl.MoveAssignAll | src/rlpbr_core/common.cpp:88-101 | as intended: the same, with load_env_maps taken as well, so every hook travels with its state; as an ownership step, it is `MoveAssign` on a two-handle world, or on a one-handle world for self-assignment |
| Handles.RendererImpl.constructor | src/rlpbr_core/common.cpp:103-129 | the handle holds exactly the twelve hooks and the state it is given |
| Handles.RendererImpl.Move | src/rlpbr_core/common.cpp:131-145 | as written: ten hooks and the state are taken, make_baker and make_batch are left indeterminate, and the source holds no state; as an ownership step, it is `MoveConstruct` on a one-handle world |
| Handles.RendererImpl.MoveAll | src/rlpbr_core/common.cpp:131-145 | as intended: all twelve hooks and the state are taken; as an ownership step, it is `MoveConstruct` on a one-handle world |
| Handles.RendererImpl.Release | src/rlpbr_core/common.cpp:147-152 | the destroy hook runs on the state iff one is held; as an ownership step, it is `Destruct` on a one-handle world |
| Handles.RendererImpl.Finalize | src/rlpbr_core/common.cpp:147-152 | the destructor invokes the destroy hook on the state iff it holds one; as an ownership step, it is `Destruct` on a one-handle world |
| Handles.RendererImpl.MoveAssign | src/rlpbr_core/common.cpp:154-172 | as written: the old state is destroyed, seven hooks and the state are taken, and make_baker, set_env_maps, make_batch, bake and get_bake_output keep the handle's old values; as an ownership step, it is `MoveAssign` on a two-handle world, or on a one-handle world for self-assignment |
| Handles.RendererImpl.MoveAssignAll | src/rlpbr_core/common.cpp:154-172 | as intended: every hook and the state are taken after the old state is destroyed; as an ownership step, it is `MoveAssign` on a two-handle world, or on a one-handle world for self-assignment |
| Handles.Step | src/rlpbr_core/common.cpp:10-172 | the ownership effect of construction, move construction, move assignment and destruction keeps one liveness flag per handle; every move constructor, move assignment and destructor above states its own effect as one such step |
| Handles.NoHandlesSound | src/rlpbr_core/common.cpp:10-18 | with no handles the ownership invariant holds |
| Handles.NoDupAppend | src/rlpbr_core/common.cpp:29-34 | destroying a state not yet destroyed keeps the destroyed states distinct |
| Handles.MakeKeepsSound | src/rlpbr_core/common.cpp:10-18 | constructing a handle on a fresh state keeps the ownership invariant |
| Handles.MoveConstructKeepsSound | src/rlpbr_core/common.cpp:20-27 | a move construction keeps the ownership invariant: the state moves, nothing is shared |
| Handles.MoveAssignKeepsSound | src/rlpbr_core/common.cpp:36-50 | a move assignment, self-assignment included, keeps the ownership invariant |
| Handles.DestructKeepsSound | src/rlpbr_core/common.cpp:29-34 | a destruction keeps the ownership invariant |
| Handles.StepKeepsSound | src/rlpbr_core/common.cpp:10-172 | every handle operation keeps the ownership invariant |
| Handles.RunKeepsSound | src/rlpbr_core/common.cpp:10-172 | any run of handle operations from a sound state ends sound |
| Handles.AtMostOneDestroy | src/rlpbr_core/common.cpp:29-50 | over any run, no backend state is destroyed twice and no state a handle still holds has been destroyed |
| Handles.NoLeakOnceReleased | src/rlpbr_core/common.cpp:29-50 | once no handle holds a state, every state handed to a constructor has been destroyed |
| Handles.MovedFromDestroysNothing | src/rlpbr_core/common.cpp:20-34 | destroying a moved-from handle invokes no destroy hook |
| Handles.SelfMoveAssignReleases | src/rlpbr_core/common.cpp:36-50 | assigning a handle to itself destroys its state once and leaves it holding nothing |

## Left out

- All Vulkan work is left out: command recording, barriers, submits, fence waits, pipeline and descriptor-pool creation (`makePipelines`, `loadPrecomputedTextures`), and the pixels shaders compute. Dispatches are recorded as values, and a baked probe's texture is a parameter `gpu` from grid cell to bytes.
- Shader define strings and the `makeRenderState` constants are not modelled, because they are text and floating point.
- Floating-point geometry is left out: `packCamera`, the bake camera, and probe world positions (`right * x + min`). Cameras are opaque values, and probes are identified by their integer grid cell.
- File and stream I/O become byte sequences. `std::filesystem::exists` becomes an `Option` argument. The bytes that a read at end of file leaves in a probe are the parameter `unread`.
- Concurrency is not modelled: the shared scene mutex, the atomic `num_loaders_` increment and the thread-local random generator. Every call runs alone.
- The denoiser, presentation and CUDA export are external services and are left out. Only whether a denoise pass is recorded is modelled.
- `VulkanConfig` constants and structure sizes live in headers that are not part of this model. They are parameters, with every divisor and step positive.
- The `assert`s of the source (the dims check, the loader limit, the framebuffer checks) become `Err` results or preconditions, not aborts.
- 32-bit unsigned offsets in the packing loop and the parameter layout are unbounded naturals, and their wrap-around is not modelled. Two wraps are modelled: `left` in `bake`, and the frame sides, pixel count and plane sizes of the framebuffer layout, each reduced modulo 2^32.
- RenderEngine.Backend.Render: requires that adaptive sampling comes with tonemapping and denoising with auxiliary outputs. Otherwise the source indexes the outputs with slot -1 (the illuminance readback, the albedo and normal planes handed to the denoiser), which is undefined behaviour the model does not represent.
- RenderEngine.Backend.RenderPasses: the same requirement, for the illuminance readback of the adaptive pass.
- RenderEngine.Backend.ProbePositions: the `int i` and `int idx` of the positions loop are naturals. Once `left >= 2^31`, as after the wrap `left = 2^32 - 1` (reloading a complete file), the source's `int i` overflows, which is undefined behaviour, and `idx` would go negative and give cells outside the grid. The model does not represent that signed overflow: its indices, and those of ProbeBake.ProbeCells and ProbeBake.BakedProbes, always name cells inside the grid.
- RenderEngine.Backend.LoadLoop, ProbeBake.ReadAllProbes: a loaded probe is modelled as its record's bytes, whatever their length. The source (deserializeProbeFromFile) stages the record's `size` bytes, but always builds a texture of the current probe width and height from them and gives the probe `size = req.size`, the texture's memory size, which is what a later write emits. A record of another length is therefore over-read or cut to that size in the source, while the model keeps and rewrites its bytes unchanged. The dims check does not catch a file baked at another probe resolution. ProbeFile.ReadProbe, ProbeBake.Materialise, RenderEngine.Backend.LoadFile and Bake, and the lemmas about loaded files (ProbeBake.ResumeAsWrittenLayout, BakeAsWrittenOnFile, LoadedAsWritten) inherit this: they match the source only for records whose length is that texture memory size.
- `frame_counter_` is unbounded.
- Capacity of the tile-input buffer against the work list is not checked, as in the source.
- `probe_gen_` is allocated on every call of `bake` and never freed. The model only records the newest one.
- `BakerImpl`'s move constructor, destructor and move assignment are declared in a header but have no bodies in `src/rlpbr_core/common.cpp`, so only its constructor is modelled.
- Backend state pointers are allocation ids that are never reused. A state freed and reallocated at the same address is not modelled.
- RenderEngine.Backend.constructor requires at least one transfer queue and at least two compute queues. `makeLoader` takes the loader index modulo the number of transfer queues, and `render` submits on compute queue `cur_queue_`, which toggles between 0 and 1. The source relies on both without checking them.
- Queues.PickLoaderQueues requires at least one transfer queue, for the same reason.
- The host is assumed to be little-endian, so that `file.write` of a `uint64_t` or of an `int` writes its bytes least significant first.

## Findings

| source | as written | input that shows it | evidently intended | confidence | as-written member | corrected member |
|---|---|---|---|---|---|---|
| src/vulkan/render.cpp:2480-2482 | `while (!file.eof())` reads one more probe after the last record, because a read of exactly the remaining bytes does not set eof, and pushes it | any well-formed probe file, e.g. a header and 27 records, loads 28 probes | push only whole records and stop when the bytes run out | not executed | ProbeFile.LoadLoopAddsTruncatedProbe | ProbeFile.ReadRecordsRoundTrip |
| src/vulkan/render.cpp:2506 | `uint32_t left = probe_count - probes_.size()` wraps when more probes are loaded than the grid holds | reloading a complete file of 27 records leaves 28 probes, so `left` is 2^32 - 1 | nothing left to bake once the grid is complete | not executed | ProbeBake.CompleteFileReloadWrapsLeft | ProbeBake.CorrectedResumeCompletesGrid |
| src/vulkan/render.cpp:2544-2545 | the dims header is appended on every open in append mode, so a resumed file holds a second header after its records | resuming from a file of one header and k < 27 records | write the header only when the file is created | not executed | ProbeBake.SecondHeaderDropsRecordsAsWritten | ProbeBake.CorrectedResumeCompletesGrid |
| src/vulkan/render.cpp:2553 | iteration `i` writes `probes_[i]`, which on a resume is a probe already in the file, not the one just baked | resuming from a file of k >= 1 records writes probes 0 .. 26 - k (exclusive) again and never writes the last min(k + 1, 26 - k) baked | write `probes_[start + i]` | not executed | ProbeBake.ResumeAsWrittenLayout | ProbeBake.CorrectedResumeCompletesGrid |
| src/rlpbr_core/common.cpp:88-101 | LoaderImpl's move assignment does not take `load_env_maps_ptr_`, although the move constructor does | assigning a loader whose `load_env_maps` hook differs from the target's | take every hook with the state | not executed | Handles.LoaderImpl.MoveAssign | Handles.LoaderImpl.MoveAssignAll |
| src/rlpbr_core/common.cpp:131-145 | RendererImpl's move constructor leaves `make_baker_ptr_` and `make_batch_ptr_` uninitialised | any move-constructed renderer, then `makeBaker` or `makeRenderBatch` on it | copy every hook | not executed | Handles.RendererImpl.Move | Handles.RendererImpl.MoveAll |
| src/rlpbr_core/common.cpp:154-172 | RendererImpl's move assignment keeps the target's make_baker, set_env_maps, make_batch, bake and get_bake_output hooks | assigning a renderer whose hooks differ from the target's | take every hook with the state | not executed | Handles.RendererImpl.MoveAssign | Handles.RendererImpl.MoveAssignAll |

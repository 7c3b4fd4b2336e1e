# RGBD-to-Mesh: host-side bookkeeping of the mesh tracker

This project models the host-side bookkeeping of a GPU pipeline. The pipeline turns RGB-D camera frames into textured planar quadtree meshes. The model covers four parts:

- **Device buffer layout** (`soa_layout.dfy`, `device_buffers.dfy`). `MeshTracker::initBuffers` allocates one block for each image pyramid and each structure-of-arrays buffer. It then cuts the block into per-channel and per-level views by pointer arithmetic. Pointers are modelled as integer offsets into their allocation, which starts at 0. The layout is proved to tile each allocation exactly: the views are contiguous, lie inside the allocation, do not overlap, and their lengths add up to the allocated size. This covers:
  - the colour, vertex-map and normal-map pyramids;
  - the normal-peak and plane-texture buffers;
  - the per-cluster distance-histogram pointer table;
  - the distance-peak pointer table at the stride DISTANCE_HIST_MAX_PEAKS. The source steps that table by DISTANCE_HIST_COUNT instead. The table as written is characterised separately: it stays inside its allocation only under the condition `DistPeakTableAsWrittenFits` states, and it tiles the allocation only under the condition `DistPeakTableAsWrittenTilesIff` states (see the findings table below).
- **`roundnextpow2up`** (`round_pow2.dfy`). The C `int` is modelled as its 32-bit pattern. The bit smear is proved equal to a declarative reference: "the least power of two not below x", with 0 for non-positive x.
- **The tracker** (`tracker.dfy`). This is the `MeshTracker` class:
  - its frame timestamps;
  - the depth and colour images pushed to the device;
  - the mesh list;
  - the plane-slot ranges of the segmentation rounds;
  - the host loop of `ReprojectPlaneTextures`. That loop counts the leading detected plane slots and emits one mesh per slot, in slot order. Each mesh's texture is sized by `roundnextpow2up`.
- **The viewer** (`viewer.dfy`). This covers three parts of `MeshViewer`:
  - the resolution choice in `init()`;
  - `onNewRGBDFrame`;
  - the timestamp gate of `display()`. It resets the tracker on a stream restart. It runs the pipeline at most once per call, on the latest depth time, and only when that time is newer than the last one submitted. Depth frames that arrive between two calls are merged into one run, and a frame whose timestamp equals the last submitted one never runs.

The compile-time sizes live in a header that is not part of this model: `NUM_PYRAMID_LEVELS`, `MAX_2D_PEAKS_PER_ROUND`, `DISTANCE_HIST_COUNT`, `DISTANCE_HIST_MAX_PEAKS`, `MAX_SEGMENTATION_ROUNDS`, `MAX_PLANES_TOTAL` and `MAX_TEXTURE_BUFFER_SIZE`. They are carried in the `Config.Constants` record, and every result holds for all positive values.

The GPU kernels are opaque calls. Their results enter the model as parameters:
- the plane statistics copied back from the device;
- the vertex count that mesh generation reports for each slot;
- the status of the OpenGL setup.

## Model

| member | source | states |
|---|---|---|
| RoundPow2.Smear | CUDA-Mesh/MeshTracker.cpp:505-509 | the shift-OR cascade keeps every bit of its argument |
| RoundPow2.RoundNextPow2Up | CUDA-Mesh/MeshTracker.cpp:500-511 | the shift-OR smear returns `NextPow2(x)`: 0 for negative x and for 0, otherwise the least power of two (as 32 bits) not below x |
| RoundPow2.SmearIsLeastPow2 | CUDA-Mesh/MeshTracker.cpp:504-510 | smearing `x-1` and adding one gives the least power of two at least x, for 1 <= x <= 2^31 |
| RoundPow2.LeastPow2Unique | CUDA-Mesh/MeshTracker.cpp:500-511 | the least power of two at least x is unique, so the reference result is well defined |
| RoundPow2.NextPow2Bounds | CUDA-Mesh/MeshTracker.cpp:504-510 | for 1 <= x <= 2^30 the result is a power of two p with x <= p < 2x |
| RoundPow2.NextPow2OfPow2 | CUDA-Mesh/MeshTracker.cpp:504-510 | a non-negative power of two is returned unchanged |
| RoundPow2.NextPow2OfPositive | CUDA-Mesh/MeshTracker.cpp:502-510 | every positive int is rounded to a power of two not below it; above 2^30 that is the bit pattern of INT_MIN |
| SoaLayout.LevelSize | CUDA-Mesh/MeshTracker.cpp:197 | a level never holds more than the full-resolution count, and every level past 0 holds strictly fewer when there are pixels |
| SoaLayout.LevelSizeIsShift | CUDA-Mesh/MeshTracker.cpp:197 | the element count of level i, computed by repeated quartering, is `pixCount >> 2i`, i.e. pixCount div 4^i |
| SoaLayout.DivDiv | CUDA-Mesh/MeshTracker.cpp:197 | dividing by b and then by 4 is dividing by 4b (one more shift by two) |
| SoaLayout.ComputePyramidCount | CUDA-Mesh/MeshTracker.cpp:192-198 | the accumulation loop yields the sum of the level sizes over all levels |
| SoaLayout.FillLevelOffsets | CUDA-Mesh/MeshTracker.cpp:202-205 | each level pointer is the end of the previous level, so the level views are contiguous from the first pointer |
| SoaLayout.LevelViewsTotal | CUDA-Mesh/MeshTracker.cpp:195-205 | the level views of one channel have non-negative lengths that add up to the pyramid count |
| SoaLayout.ContiguousBounds | CUDA-Mesh/MeshTracker.cpp:202-205 | contiguous views end at start + total, lie in that range, and come in increasing order without overlap |
| SoaLayout.TilesWithinAndDisjoint | CUDA-Mesh/MeshTracker.cpp:190-285 | views that tile an allocation all lie inside it and no two overlap |
| SoaLayout.ContiguousAppend | CUDA-Mesh/MeshTracker.cpp:272-284 | a channel that starts where the previous one ends extends the contiguous run |
| SoaLayout.CreateFloat1SOAPyramid | CUDA-Mesh/MeshTracker.cpp:190-208 | the allocation holds the pyramid count and the level views tile it |
| SoaLayout.CreateFloat3SOAPyramid | CUDA-Mesh/MeshTracker.cpp:255-285 | the allocation is 3 * pyramid count, y starts at pyramidCount, z at 2 * pyramidCount, and all (channel, level) views of the filled pointer arrays tile it |
| SoaLayout.CreateInt3SOA | CUDA-Mesh/MeshTracker.cpp:215-220 | channels at 0, length and 2 * length tile the 3 * length allocation |
| SoaLayout.CreateFloat3SOA | CUDA-Mesh/MeshTracker.cpp:228-233 | channels at 0, length and 2 * length tile the 3 * length allocation |
| SoaLayout.CreateFloat4SOA | CUDA-Mesh/MeshTracker.cpp:242-248 | channels at 0, length, 2 * length and 3 * length tile the 4 * length allocation |
| DeviceBuffers.FillPointerTable | CUDA-Mesh/MeshTracker.cpp:67-69 | entry 0 is the allocation start and entry i is i strides into it |
| DeviceBuffers.NewPointerTable | CUDA-Mesh/MeshTracker.cpp:67-69 | a fresh table of n entries whose views are the strided views, for every run length |
| DeviceBuffers.StridedTiles | CUDA-Mesh/MeshTracker.cpp:67-69 | n runs laid back to back, each of the stride's length, tile n * stride |
| DeviceBuffers.StridedWithinIff | CUDA-Mesh/MeshTracker.cpp:67-73 | n runs of length len, stride apart, all fit in n * len exactly when n = 1 or stride <= len |
| DeviceBuffers.DistanceHistogramViewsTile | CUDA-Mesh/MeshTracker.cpp:67-69 | histogram i starts at i * DISTANCE_HIST_COUNT and the histograms tile the MAX_2D_PEAKS_PER_ROUND * DISTANCE_HIST_COUNT block |
| DeviceBuffers.DistanceHistogramViews | CUDA-Mesh/MeshTracker.cpp:67-69 | histogram i is the run of DISTANCE_HIST_COUNT entries starting at i * DISTANCE_HIST_COUNT |
| DeviceBuffers.DistPeakViewsAsWritten | CUDA-Mesh/MeshTracker.cpp:71-73 | as written, peak list i is the run of DISTANCE_HIST_MAX_PEAKS entries starting at i * DISTANCE_HIST_COUNT |
| DeviceBuffers.DistPeakTableAsWrittenFits | CUDA-Mesh/MeshTracker.cpp:71-73 | the peak lists as written fit their allocation exactly when MAX_2D_PEAKS_PER_ROUND = 1 or DISTANCE_HIST_COUNT <= DISTANCE_HIST_MAX_PEAKS |
| DeviceBuffers.DistPeakTableAsWrittenOverrun | CUDA-Mesh/MeshTracker.cpp:71-73 | with two peaks, histograms of 4 bins and lists of 2 peaks, list 1 lies outside the 4-element allocation |
| DeviceBuffers.DistPeakTableAsWrittenTilesIff | CUDA-Mesh/MeshTracker.cpp:71-73 | the peak lists as written tile their allocation exactly when MAX_2D_PEAKS_PER_ROUND = 1 or DISTANCE_HIST_COUNT = DISTANCE_HIST_MAX_PEAKS |
| DeviceBuffers.DistPeakTableAsWrittenOverlaps | CUDA-Mesh/MeshTracker.cpp:71-73 | as written, with at least two peaks and DISTANCE_HIST_COUNT < DISTANCE_HIST_MAX_PEAKS, peak lists 0 and 1 overlap |
| DeviceBuffers.DistPeakViews | CUDA-Mesh/MeshTracker.cpp:71-73 | corrected, peak list i is the run of DISTANCE_HIST_MAX_PEAKS entries starting at i * DISTANCE_HIST_MAX_PEAKS |
| DeviceBuffers.DistPeakViewsTile | CUDA-Mesh/MeshTracker.cpp:71-73 | with stride DISTANCE_HIST_MAX_PEAKS the peak lists tile their allocation |
| DeviceBuffers.NewFloat1SOAPyramid | CUDA-Mesh/MeshTracker.cpp:109-112 | a fresh pyramid of the requested number of levels whose filled pointers tile an allocation of the pyramid count |
| DeviceBuffers.NewFloat3SOAPyramid | CUDA-Mesh/MeshTracker.cpp:49-55 | a fresh pyramid with NUM_PYRAMID_LEVELS pointers per channel, y starting at the pyramid count and z at twice it, whose filled pointers tile an allocation of 3 * pyramid count |
| DeviceBuffers.NewImagePyramids | CUDA-Mesh/MeshTracker.cpp:49-55 | three pyramids of equal size, each with NUM_PYRAMID_LEVELS pointers in every channel, whose level pointers tile their own allocations |
| DeviceBuffers.NewClusterTables | CUDA-Mesh/MeshTracker.cpp:67-73 | the histogram and peak-list tables have one entry per normal peak and give the histogram and (corrected) peak-list views |
| DeviceBuffers.InitBuffers | CUDA-Mesh/MeshTracker.cpp:40-96 | the buffer layout of `initBuffers`: every pyramid, SOA buffer and pointer table tiles its allocation, as `BufferLayout.Valid` states; the peak-list table uses the corrected stride |
| DeviceBuffers.TablesWithinAndDisjoint | CUDA-Mesh/MeshTracker.cpp:67-73 | in a valid layout every histogram and every peak list (at the corrected stride) lies inside its allocation, no two histograms overlap and no two peak lists overlap |
| Tracker.IsDetected | CUDA-Mesh/MeshTracker.cpp:542 | a slot holds a detected plane exactly when its projected width, read as a signed int, is positive |
| Tracker.DetectedCount | CUDA-Mesh/MeshTracker.cpp:539-595 | the count is at most the limit, every slot before it holds a detected plane, and the slot at it (if below the limit) does not |
| Tracker.DetectedCountUnique | CUDA-Mesh/MeshTracker.cpp:539-595 | any count with those properties is `DetectedCount` |
| Tracker.DetectedCountIgnoresLaterSlots | CUDA-Mesh/MeshTracker.cpp:542-594 | the count depends only on the slots up to the first empty one; later slots are never examined |
| Tracker.MeshFor | CUDA-Mesh/MeshTracker.cpp:556-587 | the mesh of a detected slot: textures sized by `roundnextpow2up` of the projected size, the reported vertex count, six indices per vertex, the slot's statistics |
| Tracker.MeshForShape | CUDA-Mesh/MeshTracker.cpp:556-589 | a detected slot's mesh has a power-of-two texture width at least destWidth (both read as unsigned 32-bit patterns), a height rounded likewise when positive and 0 otherwise, and six indices per vertex |
| Tracker.EmittedMeshShape | CUDA-Mesh/MeshTracker.cpp:541-589 | the emitted meshes come one per detected slot in slot order, each from its own slot's statistics, with power-of-two widths not below destWidth (read unsigned) |
| Tracker.MeshForWidthInRange | CUDA-Mesh/MeshTracker.cpp:556 | for a projected width up to 2^30 the texture width is a non-negative C int, at least destWidth and less than twice it |
| Tracker.SegmentationSlotRange | CUDA-Mesh/MeshTracker.cpp:481 | round iter considers the slots of rounds 0 to iter, MAX_2D_PEAKS_PER_ROUND * DISTANCE_HIST_MAX_PEAKS each |
| Tracker.SlotRangesIncrease | CUDA-Mesh/MeshTracker.cpp:481 | a later round's slot range exceeds an earlier one by at least one round's slots, so it covers all earlier slots |
| Tracker.SlotRangesWithinPlaneStats | CUDA-Mesh/MeshTracker.cpp:454-481 | every round's range fits in MAX_PLANES_TOTAL slots exactly when MAX_SEGMENTATION_ROUNDS rounds of slots fit |
| Tracker.CopyPlaneStats | CUDA-Mesh/MeshTracker.cpp:530-532 | the host array holds exactly the device plane statistics afterwards |
| Tracker.MeshTracker.constructor | CUDA-Mesh/MeshTracker.cpp:5-30 | at most MAX_PLANES_TOTAL planes are output, the buffers are laid out validly, both times are 0 and no mesh is held |
| Tracker.MeshTracker.ResetTracker | CUDA-Mesh/MeshTracker.cpp:298-304 | both frame times become 0 and nothing else changes |
| Tracker.MeshTracker.PushRGBDFrameToDevice | CUDA-Mesh/MeshTracker.cpp:308-316 | the old current time becomes the last time, the new time becomes current, and the first pixCount pixels of each image are on the device |
| Tracker.MeshTracker.DeleteQuadTreeMeshes | CUDA-Mesh/MeshTracker.cpp:600-603 | the mesh list is empty and nothing else changes |
| Tracker.MeshTracker.FlipDepthImageXAxis | CUDA-Mesh/MeshTracker.cpp:331-348 | the first step of the Gaussian and bilateral vertex-map builders overwrites the device depth image with the flipped one, and nothing else changes |
| Tracker.MeshTracker.GPUSimpleSegmentation | CUDA-Mesh/MeshTracker.cpp:451-497 | one slot count per round, (iter+1) * MAX_2D_PEAKS_PER_ROUND * DISTANCE_HIST_MAX_PEAKS, strictly increasing |
| Tracker.MeshTracker.ReprojectPlaneTextures | CUDA-Mesh/MeshTracker.cpp:513-597 | the detected count is the leading detected slots up to mMaxPlanesOutput, and exactly those slots' meshes are appended in slot order |
| Viewer.SelectResolution | CUDA-Mesh/MeshViewer.cpp:150-190 | a resolution is chosen iff some stream is valid and valid streams agree, and it agrees with each valid stream; otherwise mismatch or no-valid-stream, each iff its case |
| Viewer.SelectResolutionIsOnlyChoice | CUDA-Mesh/MeshViewer.cpp:150-190 | any resolution agreeing with the valid streams is the one chosen |
| Viewer.Gate | CUDA-Mesh/MeshViewer.cpp:1053-1066 | reset iff submitted time > latest; run iff latest > the (possibly reset) submitted time; after a run the submitted time is the latest |
| Viewer.GateCatchesUp | CUDA-Mesh/MeshViewer.cpp:1053-1066 | with a non-negative latest time the gate leaves the submitted time at most the latest |
| Viewer.GateIdempotent | CUDA-Mesh/MeshViewer.cpp:1053-1066 | a second gate with no new frame neither resets nor runs |
| Viewer.GateSettles | CUDA-Mesh/MeshViewer.cpp:1053-1066 | for any times, a second gate with no new frame does not run, keeps the submitted time, and resets only if the first reset without running |
| Viewer.GateRestartRuns | CUDA-Mesh/MeshViewer.cpp:1053-1066 | after a restart to a positive time the reset and the run happen in the same call |
| Viewer.GateInitialIdle | CUDA-Mesh/MeshViewer.cpp:89-90 | from the initial times (0, 0) the pipeline does not run |
| Viewer.GateRunsOnNewerFrame | CUDA-Mesh/MeshViewer.cpp:1061 | without a restart the pipeline runs exactly when the latest time differs from (so exceeds) the submitted one |
| Viewer.AfterDisplaySettles | CUDA-Mesh/MeshViewer.cpp:1053-1111 | the tracker state after two gated pipeline passes with no frame in between is the state after the first |
| Viewer.MeshViewer.constructor | CUDA-Mesh/MeshViewer.cpp:75-90 | both times start at 0, the filter mode is bilateral, and no frame or tracker exists |
| Viewer.MeshViewer.Init | CUDA-Mesh/MeshViewer.cpp:147-203 | on a resolution error the status is an error and no tracker is built; otherwise a fresh reset tracker of the chosen resolution, with a valid buffer layout, exists and the status is the OpenGL setup's; the times, the latest frame and the images are unchanged |
| Viewer.MeshViewer.OnNewRGBDFrame | CUDA-Mesh/MeshViewer.cpp:1012-1027 | the colour array changes only with a colour image; the depth array and latest time change only with a depth image |
| Viewer.MeshViewer.Display | CUDA-Mesh/MeshViewer.cpp:1053-1111 | resets and runs as `Gate` says, and the tracker's whole state is `AfterDisplay`'s. Without a run only a reset changes it (both times back to 0). After a run it holds the latest frame's colour image and time, the device statistics, and exactly the new meshes (the old list was cleared first). Its depth image is the latest frame's only with NO_FILTER; in the bilateral (default) and Gaussian modes it is the image the in-place X-axis flip left behind. The viewer's own fields other than the submitted time are unchanged |
| Viewer.MeshViewer.DisplayTwice | CUDA-Mesh/MeshViewer.cpp:1053-1066 | the second of two calls with no frame in between does not run the pipeline, and together they leave the tracker and the viewer exactly as the first call alone does |

## Left out

- OpenGL, GLUT and GLEW work: textures, PBO/FBO, shaders, quad drawing, window title, callback trampolines. This is rendering, not pipeline behaviour.
- Keyboard and mouse handlers, the camera, and the CSV dump. These are UI and file I/O.
- Every CUDA kernel and the data that `cudaMemcpy` moves. Their bodies are not part of this model.
  - The plane statistics a round produces enter as `deviceStats`.
  - The vertex count of each mesh enters as `vertexCounts`.
  - The texture and vertex data copied into each mesh are not modelled. Only the index count (six per vertex) is kept.
- Floating-point work: thresholds, angle conversions, `countScale`, the plane transform built with glm, fps and timers.
- Device allocations that are not cut into views: `dev_normalVoxels`, the segment and distance maps, the AABB, quadtree and final-texture buffers. Their sizes are plain products and no pointer arithmetic splits them.
- The scratch pyramid arrays `dev_float1PyramidBuffers` / `dev_float3PyramidBuffers` (CUDA-Mesh/MeshTracker.cpp:109-117). One entry is built and laid out by `NewFloat1SOAPyramid` / `NewFloat3SOAPyramid`, but `BufferLayout` does not hold the arrays of them.
- The image device buffers `dev_colorImageBuffer` / `dev_depthImageBuffer` are held by the tracker as sequences. They are not offsets.
- Resolutions and lengths are `nat`. Negative resolutions and the 32-bit overflow of `xRes*yRes`, of the pyramid count and of the allocation sizes are not modelled.
  - The shift amount `i*2` is undefined behaviour in C from 16 levels on. `LevelSize` does not model that bound.
- `DeviceBuffers.InitBuffers` / `DeviceBuffers.NewClusterTables`: they build the peak-list table at stride DISTANCE_HIST_MAX_PEAKS, where the source uses DISTANCE_HIST_COUNT (CUDA-Mesh/MeshTracker.cpp:73). The table as written is modelled by `DistPeakViewsAsWritten` and characterised in the findings table.
- `DeviceBuffers.InitBuffers`: the pointer arrays are filled in place, as in the source, by `FillLevelOffsets` and `FillPointerTable`. After that the layout, and the tracker that holds it, keeps their contents as values. Nothing in the source writes those pointers after `initBuffers`, so the model does not capture aliasing of the pointer arrays.
- Frame delivery and `display()` are modelled as atomic and never interleaving. The device calls the frame listener registered at CUDA-Mesh/MeshViewer.cpp:193 without any lock. If it does so from its own thread while `display()` runs, the time pushed and the images pushed can come from different frames. `Gate`'s at-most-once run then holds only between callbacks.
- `RoundPow2.RoundNextPow2Up`: above 2^30 the source's `x+1` overflows a signed `int`, which is undefined behaviour. The model takes the two's-complement wrap to INT_MIN.
- `Tracker.MeshTracker.constructor`: `host_detectedPlaneCount`, the host plane-statistics slots and the device images are uninitialised in the source. The model starts them at 0, empty slots and zero pixels.
- `Viewer.MeshViewer.constructor`: the source does not initialise `mMeshTracker`. The model starts it as `null`.
- `Viewer.MeshViewer.Init`: listener registration, `setGaussianSpatialSigma`, `initRenderingCuda` (empty) and the OpenGL setup are not modelled. The OpenGL status is a parameter.
- `Viewer.MeshViewer.Display`: the filtering, normal and subsampling steps between pushing and segmentation are not modelled. The one exception is the in-place X-axis flip of the device depth image that both filtering modes start with, because it changes the tracker state. The flip kernel is not part of this model, and its output `flippedDepth` is a parameter. The normal-mode switch, the rendering after the pipeline and the frame counter are left out.
- `Viewer.MeshViewer`: the key bindings that change `mFilterMode` (CUDA-Mesh/MeshViewer.cpp:1464-1472) are not modelled. The filter mode keeps the constructor's value, bilateral.
  - `Display` requires a tracker, because the source dereferences it.
  - When the pipeline runs, `Display` also requires colour and depth arrays of at least pixCount pixels, because the source copies that many. So a depth-only stream, which `init()` accepts (CUDA-Mesh/MeshViewer.cpp:176-180) and on which the colour array is never assigned, is outside what `Display` covers.
- Timestamps are unbounded integers. The `timestamp` type is not part of this model.

## Findings

| source | as written | input that shows it | evidently intended | confidence | as-written member | corrected member |
|---|---|---|---|---|---|---|
| CUDA-Mesh/MeshTracker.cpp:71-73 | peak-list pointer `i` is `dev_distPeaks[i-1] + DISTANCE_HIST_COUNT`, in an allocation of MAX_2D_PEAKS_PER_ROUND * DISTANCE_HIST_MAX_PEAKS entries | MAX_2D_PEAKS_PER_ROUND = 2, DISTANCE_HIST_COUNT = 4, DISTANCE_HIST_MAX_PEAKS = 2: list 1 starts at entry 4 of a 4-entry allocation | stride DISTANCE_HIST_MAX_PEAKS, matching the allocation and the kernels, which take `dev_distPeaks[0]` with DISTANCE_HIST_MAX_PEAKS per list | not executed; the out-of-range pointers are not dereferenced in the files modelled here | DeviceBuffers.DistPeakTableAsWrittenOverrun | DeviceBuffers.DistPeakViewsTile |

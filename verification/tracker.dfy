/** The host side of `MeshTracker`: its frame timestamps, the depth and
    colour images it holds on the device, the slot ranges of the plane
    segmentation rounds, and the per-plane loop of `ReprojectPlaneTextures`
    that turns detected planes into quadtree meshes. The GPU kernels are
    not part of this model: what they leave behind (the plane statistics,
    the vertex count of each generated mesh) is passed in. */
module Tracker {
  import opened Config
  import opened RoundPow2
  import opened DeviceBuffers

  /** A depth pixel and a colour pixel, held as opaque words. */
  type DPixel = int
  type ColorPixel = int

  /** The part of a plane's projection parameters the host reads: the size
      of its projected texture, as C `int`s. */
  datatype ProjectionParameters = ProjectionParameters(destWidth: CInt, destHeight: CInt)

  /** One plane-statistics slot. */
  datatype PlaneStats = PlaneStats(projParams: ProjectionParameters)

  /** The slot value the host array starts out with. */
  const EmptySlot := PlaneStats(ProjectionParameters(0, 0))

  /** A generated mesh: its final (power-of-two) texture size, its vertex
      count, the number of triangle indices copied back (six per vertex
      count), and the statistics of the plane it was built from. */
  datatype QuadTreeMesh = QuadTreeMesh(
    textureWidth: CInt,
    textureHeight: CInt,
    vertexCount: nat,
    indexCount: nat,
    stats: PlaneStats)

  /** The mutable state of a tracker taken as one value: its frame times,
      the device images, the detected-plane count, the host copy of the
      plane statistics and the mesh list. */
  datatype TrackerState = TrackerState(
    lastFrameTime: int,
    currentFrameTime: int,
    colorImage: seq<ColorPixel>,
    depthImage: seq<DPixel>,
    detectedPlaneCount: nat,
    planeStats: seq<PlaneStats>,
    quadtrees: seq<QuadTreeMesh>)

  /** A slot holds a detected plane when its projected width, read as a
      signed `int`, is positive. */
  predicate IsDetected(s: PlaneStats) {
    IsPositive(s.projParams.destWidth)
  }

  /** The number of leading slots, among the first `limit`, that hold a
      detected plane: all of them are detected, and if fewer than `limit`
      the next one is not. */
  function DetectedCount(stats: seq<PlaneStats>, limit: nat): (n: nat)
    requires limit <= |stats|
    ensures n <= limit
    ensures forall j :: 0 <= j < n ==> IsDetected(stats[j])
    ensures n < limit ==> !IsDetected(stats[n])
    decreases limit
  {
    if limit == 0 then 0
    else
      var m := DetectedCount(stats, limit - 1);
      if m == limit - 1 && IsDetected(stats[limit - 1]) then limit else m
  }

  /** A count with the two properties of `DetectedCount` is that count. */
  lemma DetectedCountUnique(stats: seq<PlaneStats>, limit: nat, n: nat)
    requires limit <= |stats| && n <= limit
    requires forall j :: 0 <= j < n ==> IsDetected(stats[j])
    requires n < limit ==> !IsDetected(stats[n])
    ensures n == DetectedCount(stats, limit)
  {
  }

  /** The count depends only on the slots up to and including the first
      empty one: slots after it are never looked at. */
  lemma DetectedCountIgnoresLaterSlots(stats: seq<PlaneStats>, stats': seq<PlaneStats>, limit: nat)
    requires limit <= |stats| && limit <= |stats'|
    requires forall j :: 0 <= j < limit && j <= DetectedCount(stats, limit) ==> stats'[j] == stats[j]
    ensures DetectedCount(stats', limit) == DetectedCount(stats, limit)
  {
    var n := DetectedCount(stats, limit);
    forall j | 0 <= j < n
      ensures IsDetected(stats'[j])
    {
      assert stats'[j] == stats[j];
    }
    if n < limit {
      assert stats'[n] == stats[n];
    }
    DetectedCountUnique(stats', limit, n);
  }

  /** The mesh `ReprojectPlaneTextures` builds for a detected slot whose
      mesh generation reported `vertexCount` vertices. */
  ghost function MeshFor(s: PlaneStats, vertexCount: nat): QuadTreeMesh {
    QuadTreeMesh(NextPow2(s.projParams.destWidth), NextPow2(s.projParams.destHeight),
                 vertexCount, 6 * vertexCount, s)
  }

  /** The meshes of the first `n` slots, in slot order. */
  ghost function EmittedMeshes(stats: seq<PlaneStats>, vertexCounts: seq<nat>, n: nat): seq<QuadTreeMesh>
    requires n <= |stats| && n <= |vertexCounts|
  {
    seq(n, i requires 0 <= i < n => MeshFor(stats[i], vertexCounts[i]))
  }

  /** The mesh of a detected slot has a power-of-two texture width no
      smaller than the plane's projected width, both read as unsigned 32-bit
      patterns (above 2^30 the width is INT_MIN's pattern, see
      `MeshForWidthInRange` for the range where it is a C `int`); a positive
      height is rounded the same way and a non-positive one gives height 0;
      its index buffer holds six entries per vertex. */
  lemma MeshForShape(s: PlaneStats, vertexCount: nat)
    requires IsDetected(s)
    ensures var m := MeshFor(s, vertexCount); var p := s.projParams;
      && m.stats == s && m.vertexCount == vertexCount && m.indexCount == 6 * vertexCount
      && IsPow2(m.textureWidth) && p.destWidth <= m.textureWidth
      && (IsPositive(p.destHeight) ==> IsPow2(m.textureHeight) && p.destHeight <= m.textureHeight)
      && (!IsPositive(p.destHeight) ==> m.textureHeight == 0)
  {
    var p := s.projParams;
    NextPow2OfPositive(p.destWidth);
    if IsPositive(p.destHeight) {
      NextPow2OfPositive(p.destHeight);
    }
  }

  /** Up to a projected width of 2^30 the texture width is also a
      non-negative C `int`, less than twice the projected width. */
  lemma MeshForWidthInRange(s: PlaneStats, vertexCount: nat)
    requires IsDetected(s) && s.projParams.destWidth <= 0x4000_0000
    ensures var m := MeshFor(s, vertexCount); var w := s.projParams.destWidth;
      !IsNegative(m.textureWidth) && w <= m.textureWidth < 2 * w
  {
    NextPow2Bounds(s.projParams.destWidth);
  }

  /** The meshes emitted for the detected slots come one per slot, in slot
      order, each shaped as `MeshForShape` says. */
  lemma EmittedMeshShape(stats: seq<PlaneStats>, vertexCounts: seq<nat>, limit: nat)
    requires limit <= |stats| && limit <= |vertexCounts|
    ensures var meshes := EmittedMeshes(stats, vertexCounts, DetectedCount(stats, limit));
      forall i :: 0 <= i < |meshes| ==>
        && meshes[i].stats == stats[i]
        && meshes[i].indexCount == 6 * vertexCounts[i]
        && IsPow2(meshes[i].textureWidth)
        && stats[i].projParams.destWidth <= meshes[i].textureWidth
  {
    var n := DetectedCount(stats, limit);
    forall i | 0 <= i < n
      ensures IsPow2(MeshFor(stats[i], vertexCounts[i]).textureWidth)
      ensures stats[i].projParams.destWidth <= MeshFor(stats[i], vertexCounts[i]).textureWidth
    {
      MeshForShape(stats[i], vertexCounts[i]);
    }
  }

  /** The plane-slot range merged and fitted in round `iter` of the
      segmentation: all slots of this round and of every earlier one. */
  function SegmentationSlotRange(k: Constants, iter: nat): nat {
    k.SlotsPerRound() * (iter + 1)
  }

  /** The ranges grow by one round's slots each round, so every round
      reconsiders all slots of the rounds before it. */
  lemma SlotRangesIncrease(k: Constants, i: nat, j: nat)
    requires k.Valid() && i < j
    ensures SegmentationSlotRange(k, i) + k.SlotsPerRound() <= SegmentationSlotRange(k, j)
    ensures SegmentationSlotRange(k, i) < SegmentationSlotRange(k, j)
  {
    var s := k.SlotsPerRound();
    assert s >= 1 by {
      MulMonotone(k.max2DPeaksPerRound, 1, k.distanceHistMaxPeaks);
    }
    MulMonotone(s, i + 2, j + 1);
  }

  /** Every round's range lies inside the MAX_PLANES_TOTAL plane-statistics
      slots exactly when the last one does, that is when
      MAX_SEGMENTATION_ROUNDS rounds of slots fit. */
  lemma SlotRangesWithinPlaneStats(k: Constants)
    requires k.Valid()
    ensures (forall iter :: 0 <= iter < k.maxSegmentationRounds ==>
               SegmentationSlotRange(k, iter) <= k.maxPlanesTotal)
        <==> k.maxSegmentationRounds * k.SlotsPerRound() <= k.maxPlanesTotal
  {
    var last := k.maxSegmentationRounds - 1;
    assert SegmentationSlotRange(k, last) == k.maxSegmentationRounds * k.SlotsPerRound();
    forall iter | 0 <= iter < last
      ensures SegmentationSlotRange(k, iter) < SegmentationSlotRange(k, last)
    {
      SlotRangesIncrease(k, iter, last);
    }
  }

  /** The `cudaMemcpy` of the device plane statistics into the host array. */
  method CopyPlaneStats(a: array<PlaneStats>, src: seq<PlaneStats>)
    requires a.Length == |src|
    modifies a
    ensures a[..] == src
  {
    for j := 0 to a.Length
      invariant forall m :: 0 <= m < j ==> a[m] == src[m]
    {
      a[j] := src[j];
    }
  }

  class MeshTracker {
    const k: Constants
    const xRes: nat
    const yRes: nat
    const pixCount: nat
    /** The device buffer layout set up by `initBuffers`. */
    const buffers: BufferLayout
    /** `host_planeStats`, MAX_PLANES_TOTAL slots. */
    const hostPlaneStats: array<PlaneStats>

    var maxPlanesOutput: nat
    var lastFrameTime: int
    var currentFrameTime: int
    /** The images in `dev_colorImageBuffer` / `dev_depthImageBuffer`. */
    var colorImage: seq<ColorPixel>
    var depthImage: seq<DPixel>
    var detectedPlaneCount: nat
    /** `host_quadtrees`. */
    var quadtrees: seq<QuadTreeMesh>

    ghost predicate Valid()
      reads this
    {
      && k.Valid()
      && pixCount == xRes * yRes
      && buffers.k == k && buffers.pixCount == pixCount
      && hostPlaneStats.Length == k.maxPlanesTotal
      && maxPlanesOutput == k.maxPlanesTotal
      && detectedPlaneCount <= maxPlanesOutput
      && |colorImage| == pixCount && |depthImage| == pixCount
    }

    function State(): TrackerState
      reads this, hostPlaneStats
    {
      TrackerState(lastFrameTime, currentFrameTime, colorImage, depthImage,
                   detectedPlaneCount, hostPlaneStats[..], quadtrees)
    }

    /** The constructor: MAX_PLANES_TOTAL planes are output at most, the
        buffers are laid out, and the tracker starts reset with no meshes.
        The device images hold no frame yet; they are modelled as zeros. */
    constructor (xResolution: nat, yResolution: nat, k: Constants)
      requires k.Valid()
      ensures Valid() && buffers.Valid()
      ensures this.k == k && xRes == xResolution && yRes == yResolution
      ensures maxPlanesOutput == k.maxPlanesTotal
      ensures lastFrameTime == 0 && currentFrameTime == 0
      ensures quadtrees == [] && detectedPlaneCount == 0
      ensures fresh(hostPlaneStats)
    {
      this.k := k;
      xRes, yRes := xResolution, yResolution;
      var pix := xResolution * yResolution;
      pixCount := pix;
      maxPlanesOutput := k.maxPlanesTotal;
      var layout := InitBuffers(xResolution, yResolution, k);
      buffers := layout;
      hostPlaneStats := new PlaneStats[k.maxPlanesTotal](_ => EmptySlot);
      colorImage := seq(pix, _ => 0);
      depthImage := seq(pix, _ => 0);
      detectedPlaneCount := 0;
      quadtrees := [];
      new;
      ResetTracker();
    }

    /** `resetTracker`: both frame timestamps return to 0. */
    method ResetTracker()
      requires Valid()
      modifies this
      ensures Valid()
      ensures lastFrameTime == 0 && currentFrameTime == 0
      ensures maxPlanesOutput == old(maxPlanesOutput)
      ensures colorImage == old(colorImage) && depthImage == old(depthImage)
      ensures detectedPlaneCount == old(detectedPlaneCount) && quadtrees == old(quadtrees)
    {
      lastFrameTime := 0;
      currentFrameTime := 0;
    }

    /** `pushRGBDFrameToDevice`: the previous current time becomes the last
        time, `time` becomes the current one, and the first `pixCount`
        pixels of each host image are copied to the device. */
    method PushRGBDFrameToDevice(colorArray: seq<ColorPixel>, depthArray: seq<DPixel>, time: int)
      requires Valid()
      requires |colorArray| >= pixCount && |depthArray| >= pixCount
      modifies this
      ensures Valid()
      ensures lastFrameTime == old(currentFrameTime) && currentFrameTime == time
      ensures depthImage == depthArray[..pixCount] && colorImage == colorArray[..pixCount]
      ensures maxPlanesOutput == old(maxPlanesOutput)
      ensures detectedPlaneCount == old(detectedPlaneCount) && quadtrees == old(quadtrees)
    {
      lastFrameTime := currentFrameTime;
      currentFrameTime := time;
      depthImage := depthArray[..pixCount];
      colorImage := colorArray[..pixCount];
    }

    /** `deleteQuadTreeMeshes`: the mesh list is emptied. */
    method DeleteQuadTreeMeshes()
      requires Valid()
      modifies this
      ensures Valid()
      ensures quadtrees == []
      ensures lastFrameTime == old(lastFrameTime) && currentFrameTime == old(currentFrameTime)
      ensures maxPlanesOutput == old(maxPlanesOutput)
      ensures colorImage == old(colorImage) && depthImage == old(depthImage)
      ensures detectedPlaneCount == old(detectedPlaneCount)
    {
      quadtrees := [];
    }

    /** `flipDepthImageXAxis(dev_depthImageBuffer, …)`, the first step of
        both `buildVMapGaussianFilter` and `buildVMapBilateralFilter`: the
        kernel overwrites the device depth image in place. The kernel is not
        part of this model; `flipped` stands for the image it writes. */
    method FlipDepthImageXAxis(flipped: seq<DPixel>)
      requires Valid() && |flipped| == pixCount
      modifies this
      ensures Valid()
      ensures depthImage == flipped
      ensures lastFrameTime == old(lastFrameTime) && currentFrameTime == old(currentFrameTime)
      ensures maxPlanesOutput == old(maxPlanesOutput) && colorImage == old(colorImage)
      ensures detectedPlaneCount == old(detectedPlaneCount) && quadtrees == old(quadtrees)
    {
      depthImage := flipped;
    }

    /** The round loop of `GPUSimpleSegmentation`: the plane-slot counts
        handed to plane merging and final fitting, one per round. */
    method GPUSimpleSegmentation() returns (numPlanes: seq<nat>)
      requires k.Valid()
      ensures |numPlanes| == k.maxSegmentationRounds
      ensures forall iter :: 0 <= iter < |numPlanes| ==> numPlanes[iter] == SegmentationSlotRange(k, iter)
      ensures forall i, j :: 0 <= i < j < |numPlanes| ==> numPlanes[i] < numPlanes[j]
    {
      numPlanes := [];
      var iter := 0;
      while iter < k.maxSegmentationRounds
        invariant 0 <= iter <= k.maxSegmentationRounds
        invariant |numPlanes| == iter
        invariant forall j :: 0 <= j < iter ==> numPlanes[j] == SegmentationSlotRange(k, j)
      {
        numPlanes := numPlanes + [k.max2DPeaksPerRound * k.distanceHistMaxPeaks * (iter + 1)];
        iter := iter + 1;
      }
      forall i, j | 0 <= i < j < |numPlanes|
        ensures numPlanes[i] < numPlanes[j]
      {
        SlotRangesIncrease(k, i, j);
      }
    }

    /** The host loop of `ReprojectPlaneTextures`. The plane statistics the
        kernels computed are copied into `hostPlaneStats`; then slots are
        visited in order while they hold a detected plane, each one counted
        and turned into a mesh whose texture is sized by
        `roundnextpow2up`, and the loop stops at the first empty slot.
        `vertexCounts[i]` is the vertex count mesh generation reports for
        slot `i`. */
    method ReprojectPlaneTextures(deviceStats: seq<PlaneStats>, vertexCounts: seq<nat>)
      requires Valid()
      requires |deviceStats| == k.maxPlanesTotal && |vertexCounts| == k.maxPlanesTotal
      modifies this, hostPlaneStats
      ensures Valid()
      ensures hostPlaneStats[..] == deviceStats
      ensures detectedPlaneCount == DetectedCount(deviceStats, maxPlanesOutput)
      ensures quadtrees == old(quadtrees) + EmittedMeshes(deviceStats, vertexCounts, detectedPlaneCount)
      ensures lastFrameTime == old(lastFrameTime) && currentFrameTime == old(currentFrameTime)
      ensures maxPlanesOutput == old(maxPlanesOutput)
      ensures colorImage == old(colorImage) && depthImage == old(depthImage)
    {
      CopyPlaneStats(hostPlaneStats, deviceStats);

      var count := 0;
      var meshes := quadtrees;
      var i := 0;
      while i < maxPlanesOutput
        modifies {}
        invariant 0 <= i <= maxPlanesOutput
        invariant count == i
        invariant forall m :: 0 <= m < i ==> IsDetected(deviceStats[m])
        invariant meshes == quadtrees + EmittedMeshes(deviceStats, vertexCounts, i)
      {
        var stats := hostPlaneStats[i];
        if IsDetected(stats) {
          count := count + 1;
          var finalTextureWidth := RoundNextPow2Up(stats.projParams.destWidth);
          var finalTextureHeight := RoundNextPow2Up(stats.projParams.destHeight);
          var vertexCount := vertexCounts[i];
          var mesh := QuadTreeMesh(finalTextureWidth, finalTextureHeight,
                                   vertexCount, 6 * vertexCount, stats);
          assert EmittedMeshes(deviceStats, vertexCounts, i + 1)
              == EmittedMeshes(deviceStats, vertexCounts, i) + [mesh];
          meshes := meshes + [mesh];
        } else {
          break;
        }
        i := i + 1;
      }
      DetectedCountUnique(deviceStats, maxPlanesOutput, i);
      detectedPlaneCount, quadtrees := count, meshes;
    }
  }
}

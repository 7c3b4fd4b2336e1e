/** The parts of `MeshViewer` that drive the tracker: the choice of working
    resolution in `init()`, the arrival of frames in `onNewRGBDFrame`, and
    the timestamp gate at the top of `display()` that decides whether the
    tracker is reset and whether the pipeline runs on the latest frame.
    Rendering, windowing and input handling are not part of this model. */
module Viewer {
  import opened Config
  import opened Tracker

  datatype Option<T> = None | Some(value: T)

  datatype Result<T, E> = Ok(value: T) | Err(error: E)

  /** What the device reports about one stream. */
  datatype StreamInfo = StreamInfo(valid: bool, resX: nat, resY: nat)

  datatype Resolution = Resolution(x: nat, y: nat)

  /** Why `init()` gives up on the streams. */
  datatype InitError = ResolutionMismatch | NoValidStream

  datatype DeviceStatus = DeviceStatusOk | DeviceStatusError

  /** `mFilterMode`: how `display()` builds the vertex map. */
  datatype FilterMode = BilateralFilter | GaussianFilter | NoFilter

  /** A frame from the device: it may carry a colour image, a depth image
      and the depth timestamp. */
  datatype RGBDFrame = RGBDFrame(
    color: Option<seq<ColorPixel>>,
    depth: Option<seq<DPixel>>,
    depthTimestamp: int)
  {
    predicate HasColor() { color.Some? }
    predicate HasDepth() { depth.Some? }
  }

  /** A resolution agrees with a stream when the stream is invalid or has
      exactly that resolution. */
  predicate Agrees(r: Resolution, s: StreamInfo) {
    s.valid ==> r == Resolution(s.resX, s.resY)
  }

  /** The resolution choice of `init()`: a resolution is chosen exactly when
      some stream is valid and the valid streams agree, and it agrees with
      every valid stream; otherwise the error says which case failed. */
  function SelectResolution(depth: StreamInfo, color: StreamInfo): (r: Result<Resolution, InitError>)
    ensures r.Ok? <==> (depth.valid || color.valid)
                       && (depth.valid && color.valid ==> depth.resX == color.resX && depth.resY == color.resY)
    ensures r.Ok? ==> Agrees(r.value, depth) && Agrees(r.value, color)
    ensures r == Err(NoValidStream) <==> !depth.valid && !color.valid
    ensures r == Err(ResolutionMismatch) <==>
      depth.valid && color.valid && (depth.resX != color.resX || depth.resY != color.resY)
  {
    if depth.valid && color.valid then
      if depth.resX == color.resX && depth.resY == color.resY then
        Ok(Resolution(depth.resX, depth.resY))
      else
        Err(ResolutionMismatch)
    else if depth.valid then
      Ok(Resolution(depth.resX, depth.resY))
    else if color.valid then
      Ok(Resolution(color.resX, color.resY))
    else
      Err(NoValidStream)
  }

  /** At most one resolution agrees with a valid stream, so the choice is
      the only possible one. */
  lemma SelectResolutionIsOnlyChoice(depth: StreamInfo, color: StreamInfo, r: Resolution)
    requires depth.valid || color.valid
    requires Agrees(r, depth) && Agrees(r, color)
    ensures SelectResolution(depth, color) == Ok(r)
  {
  }

  /** The outcome of the timestamp gate of `display()`. */
  datatype GateDecision = GateDecision(reset: bool, run: bool, lastSubmitted: int)

  /** The gate: a submitted time later than the latest one means the stream
      restarted, so the tracker is reset and the submitted time goes back to
      0; then the pipeline runs when the latest time is later than the
      submitted one, which becomes the latest time. */
  function Gate(latest: int, lastSubmitted: int): (g: GateDecision)
    ensures g.reset <==> lastSubmitted > latest
    ensures g.run <==> latest > (if g.reset then 0 else lastSubmitted)
    ensures g.run ==> g.lastSubmitted == latest
    ensures !g.run ==> g.lastSubmitted == (if g.reset then 0 else lastSubmitted)
  {
    var reset := lastSubmitted > latest;
    var submitted := if reset then 0 else lastSubmitted;
    if latest > submitted then GateDecision(reset, true, latest)
    else GateDecision(reset, false, submitted)
  }

  /** With a non-negative latest time the gate never leaves the submitted
      time past it. */
  lemma GateCatchesUp(latest: int, lastSubmitted: int)
    requires latest >= 0
    ensures Gate(latest, lastSubmitted).lastSubmitted <= latest
  {
  }

  /** A second gate with no new frame in between does nothing. */
  lemma {:induction false} GateIdempotent(latest: int, lastSubmitted: int)
    requires latest >= 0
    ensures var g := Gate(latest, lastSubmitted);
      var g' := Gate(latest, g.lastSubmitted);
      !g'.reset && !g'.run && g'.lastSubmitted == g.lastSubmitted
  {
    GateCatchesUp(latest, lastSubmitted);
  }

  /** Whatever the times, a second gate with no new frame in between does
      not run, leaves the submitted time where the first left it, and
      resets only when the first reset without running. */
  lemma GateSettles(latest: int, lastSubmitted: int)
    ensures var g := Gate(latest, lastSubmitted);
      var g' := Gate(latest, g.lastSubmitted);
      && !g'.run
      && g'.lastSubmitted == g.lastSubmitted
      && (g'.reset ==> g.reset && !g.run)
  {
  }

  /** After a restart to a new positive time, the reset and the pipeline run
      happen in the same gate. */
  lemma GateRestartRuns(latest: int, lastSubmitted: int)
    requires lastSubmitted > latest > 0
    ensures Gate(latest, lastSubmitted) == GateDecision(true, true, latest)
  {
  }

  /** A viewer that has seen no depth frame does not run the pipeline. */
  lemma GateInitialIdle()
    ensures Gate(0, 0) == GateDecision(false, false, 0)
  {
  }

  /** Only a later latest time can make a non-restarting gate run: the gate
      runs from the same submitted time exactly when the latest time has
      moved past it. */
  lemma GateRunsOnNewerFrame(latest: int, lastSubmitted: int)
    requires lastSubmitted <= latest
    ensures Gate(latest, lastSubmitted).run <==> latest != lastSubmitted
  {
  }

  /** The tracker state `display()` leaves behind, given the gate's decision
      and the state before it. Without a run only a reset changes anything,
      putting both frame times back to 0. A run pushes the first `pixCount`
      pixels of the viewer's images with the latest time (after the reset,
      if any), copies the device plane statistics to the host, and leaves
      exactly the meshes of the detected planes. The device depth image is
      then the pushed one only without filtering: both filtering modes
      overwrite it in place with `flippedDepth`. */
  ghost function AfterDisplay(g: GateDecision, before: TrackerState, latest: int, filter: FilterMode,
                              colorArray: seq<ColorPixel>, depthArray: seq<DPixel>, flippedDepth: seq<DPixel>,
                              pixCount: nat, limit: nat, deviceStats: seq<PlaneStats>,
                              vertexCounts: seq<nat>): TrackerState
    requires g.run ==> |colorArray| >= pixCount && |depthArray| >= pixCount
    requires limit <= |deviceStats| && limit <= |vertexCounts|
  {
    if !g.run then
      if g.reset then before.(lastFrameTime := 0, currentFrameTime := 0) else before
    else
      var n := DetectedCount(deviceStats, limit);
      TrackerState(if g.reset then 0 else before.currentFrameTime, latest,
                   colorArray[..pixCount],
                   if filter == NoFilter then depthArray[..pixCount] else flippedDepth,
                   n, deviceStats, EmittedMeshes(deviceStats, vertexCounts, n))
  }

  /** A second `display()` with no frame in between leaves the tracker in
      the state the first one left it in. */
  lemma {:induction false} AfterDisplaySettles(latest: int, lastSubmitted: int, before: TrackerState,
                                              filter: FilterMode, colorArray: seq<ColorPixel>,
                                              depthArray: seq<DPixel>, flippedDepth: seq<DPixel>, pixCount: nat,
                                              limit: nat, deviceStats: seq<PlaneStats>, vertexCounts: seq<nat>)
    requires Gate(latest, lastSubmitted).run ==> |colorArray| >= pixCount && |depthArray| >= pixCount
    requires limit <= |deviceStats| && limit <= |vertexCounts|
    ensures var g := Gate(latest, lastSubmitted);
      var s := AfterDisplay(g, before, latest, filter, colorArray, depthArray, flippedDepth,
                            pixCount, limit, deviceStats, vertexCounts);
      AfterDisplay(Gate(latest, g.lastSubmitted), s, latest, filter, colorArray, depthArray, flippedDepth,
                   pixCount, limit, deviceStats, vertexCounts) == s
  {
    GateSettles(latest, lastSubmitted);
  }

  class MeshViewer {
    var latestTime: int
    var lastSubmittedTime: int
    var latestFrame: Option<RGBDFrame>
    var colorArray: seq<ColorPixel>
    var depthArray: seq<DPixel>
    var xRes: nat
    var yRes: nat
    var filterMode: FilterMode
    /** `mMeshTracker`, created by `init()`. */
    var tracker: MeshTracker?

    /** The constructor's pipeline state: both times start at 0, the
        filter is bilateral, and no frame or tracker exists yet. */
    constructor ()
      ensures latestTime == 0 && lastSubmittedTime == 0 && filterMode == BilateralFilter
      ensures latestFrame == None && tracker == null
      ensures colorArray == [] && depthArray == []
    {
      latestTime, lastSubmittedTime := 0, 0;
      latestFrame := None;
      colorArray, depthArray := [], [];
      xRes, yRes := 0, 0;
      filterMode := BilateralFilter;
      tracker := null;
    }

    /** `init()`: choose the resolution from the streams, failing as
        `SelectResolution` says, and otherwise build a tracker of that
        resolution; the rest of the status is that of the OpenGL setup,
        which is passed in. */
    method Init(depth: StreamInfo, color: StreamInfo, k: Constants, openGLStatus: DeviceStatus)
      returns (status: DeviceStatus)
      requires k.Valid()
      modifies this
      ensures var r := SelectResolution(depth, color);
        && (r.Err? ==> status == DeviceStatusError && tracker == old(tracker)
                       && xRes == old(xRes) && yRes == old(yRes))
        && (r.Ok? ==> && status == openGLStatus
                      && xRes == r.value.x && yRes == r.value.y
                      && tracker != null && fresh(tracker) && tracker.Valid() && tracker.buffers.Valid()
                      && tracker.xRes == xRes && tracker.yRes == yRes && tracker.k == k
                      && tracker.lastFrameTime == 0 && tracker.currentFrameTime == 0
                      && tracker.quadtrees == [])
      ensures latestTime == old(latestTime) && lastSubmittedTime == old(lastSubmittedTime)
      ensures latestFrame == old(latestFrame) && filterMode == old(filterMode)
      ensures colorArray == old(colorArray) && depthArray == old(depthArray)
    {
      var r := SelectResolution(depth, color);
      if r.Err? {
        return DeviceStatusError;
      }
      xRes, yRes := r.value.x, r.value.y;
      tracker := new MeshTracker(xRes, yRes, k);
      status := openGLStatus;
    }

    /** `onNewRGBDFrame`: the frame is kept; its colour image, if any,
        replaces the colour array, and its depth image, if any, replaces the
        depth array and advances the latest time to the depth timestamp. */
    method OnNewRGBDFrame(frame: Option<RGBDFrame>)
      modifies this
      ensures latestFrame == frame
      ensures frame.Some? && frame.value.HasColor()
        ==> colorArray == frame.value.color.value
      ensures !(frame.Some? && frame.value.HasColor()) ==> colorArray == old(colorArray)
      ensures frame.Some? && frame.value.HasDepth()
        ==> depthArray == frame.value.depth.value && latestTime == frame.value.depthTimestamp
      ensures !(frame.Some? && frame.value.HasDepth())
        ==> depthArray == old(depthArray) && latestTime == old(latestTime)
      ensures lastSubmittedTime == old(lastSubmittedTime) && tracker == old(tracker)
      ensures xRes == old(xRes) && yRes == old(yRes) && filterMode == old(filterMode)
    {
      latestFrame := frame;
      if latestFrame.Some? {
        if latestFrame.value.HasColor() {
          colorArray := latestFrame.value.color.value;
        }
        if latestFrame.value.HasDepth() {
          depthArray := latestFrame.value.depth.value;
          latestTime := latestFrame.value.depthTimestamp;
        }
      }
    }

    /** The tracker pipeline of `display()`, gated by `Gate`: the tracker
        ends in the state `AfterDisplay` gives, and nothing of the viewer
        but the submitted time changes. When the pipeline runs, the latest
        frame is pushed with the latest time, the old meshes are deleted
        and, after segmentation, the meshes of the detected planes are all
        that the tracker holds. The filtering, normal and subsampling
        kernels in between are not part of this model; `flippedDepth`,
        `deviceStats` and `vertexCounts` stand for what the kernels leave
        behind. Of the filtering kernels only the in-place flip of the depth
        image is kept, since it changes the tracker's state. */
    method Display(flippedDepth: seq<DPixel>, deviceStats: seq<PlaneStats>, vertexCounts: seq<nat>)
      returns (ran: bool)
      requires tracker != null && tracker.Valid()
      requires |deviceStats| == tracker.k.maxPlanesTotal && |vertexCounts| == tracker.k.maxPlanesTotal
      requires Gate(latestTime, lastSubmittedTime).run
        ==> |colorArray| >= tracker.pixCount && |depthArray| >= tracker.pixCount
      requires Gate(latestTime, lastSubmittedTime).run && filterMode != NoFilter
        ==> |flippedDepth| == tracker.pixCount
      modifies this, tracker, tracker.hostPlaneStats
      ensures tracker == old(tracker) && tracker.Valid()
      ensures latestTime == old(latestTime) && latestFrame == old(latestFrame)
      ensures colorArray == old(colorArray) && depthArray == old(depthArray)
      ensures xRes == old(xRes) && yRes == old(yRes) && filterMode == old(filterMode)
      ensures var g := Gate(old(latestTime), old(lastSubmittedTime));
        && ran == g.run
        && lastSubmittedTime == g.lastSubmitted
        && tracker.State() == AfterDisplay(g, old(tracker.State()), latestTime, filterMode,
                                           colorArray, depthArray, flippedDepth, tracker.pixCount,
                                           tracker.maxPlanesOutput, deviceStats, vertexCounts)
    {
      if lastSubmittedTime > latestTime {
        tracker.ResetTracker();
        lastSubmittedTime := 0;
      }
      ran := false;
      if latestTime > lastSubmittedTime {
        ran := true;
        lastSubmittedTime := latestTime;
        var localColorArray := colorArray;
        var localDepthArray := depthArray;
        tracker.PushRGBDFrameToDevice(localColorArray, localDepthArray, latestTime);
        tracker.DeleteQuadTreeMeshes();
        if filterMode != NoFilter {
          tracker.FlipDepthImageXAxis(flippedDepth);
        }
        var _ := tracker.GPUSimpleSegmentation();
        tracker.ReprojectPlaneTextures(deviceStats, vertexCounts);
      }
    }

    /** Two `display()` calls with no frame arriving in between: the second
        one does not run the pipeline, and together they leave the tracker
        and the viewer as the first one alone does. */
    method DisplayTwice(flippedDepth: seq<DPixel>, deviceStats: seq<PlaneStats>, vertexCounts: seq<nat>)
      returns (ran1: bool, ran2: bool)
      requires tracker != null && tracker.Valid()
      requires |deviceStats| == tracker.k.maxPlanesTotal && |vertexCounts| == tracker.k.maxPlanesTotal
      requires Gate(latestTime, lastSubmittedTime).run
        ==> |colorArray| >= tracker.pixCount && |depthArray| >= tracker.pixCount
      requires Gate(latestTime, lastSubmittedTime).run && filterMode != NoFilter
        ==> |flippedDepth| == tracker.pixCount
      modifies this, tracker, tracker.hostPlaneStats
      ensures tracker == old(tracker) && tracker.Valid()
      ensures latestTime == old(latestTime) && latestFrame == old(latestFrame)
      ensures colorArray == old(colorArray) && depthArray == old(depthArray)
      ensures xRes == old(xRes) && yRes == old(yRes) && filterMode == old(filterMode)
      ensures !ran2
      ensures var g := Gate(old(latestTime), old(lastSubmittedTime));
        && ran1 == g.run
        && lastSubmittedTime == g.lastSubmitted
        && tracker.State() == AfterDisplay(g, old(tracker.State()), latestTime, filterMode,
                                           colorArray, depthArray, flippedDepth, tracker.pixCount,
                                           tracker.maxPlanesOutput, deviceStats, vertexCounts)
    {
      ran1 := Display(flippedDepth, deviceStats, vertexCounts);
      AfterDisplaySettles(latestTime, old(lastSubmittedTime), old(tracker.State()), filterMode,
                          colorArray, depthArray, flippedDepth, tracker.pixCount, tracker.maxPlanesOutput,
                          deviceStats, vertexCounts);
      ran2 := Display(flippedDepth, deviceStats, vertexCounts);
    }
  }
}

/** The pointer layout that `initBuffers` sets up when a tracker is built:
    the three image pyramids, the normal-peak and plane-texture buffers, and
    the per-cluster pointer tables into the distance histograms and the
    distance-peak lists. */
module DeviceBuffers {
  import opened Config
  import opened SoaLayout

  /** `n` runs of `len` elements whose starts are `stride` apart. */
  function StridedViews(n: nat, stride: int, len: int): (vs: seq<View>)
    ensures |vs| == n
    ensures forall i :: 0 <= i < n ==> vs[i] == View(i * stride, len)
  {
    seq(n, i requires 0 <= i < n => View(i * stride, len))
  }

  /** The runs of `len` elements that the pointers in `table` start. */
  function TableViews(table: seq<int>, len: int): (vs: seq<View>)
    ensures |vs| == |table|
    ensures forall i :: 0 <= i < |vs| ==> vs[i] == View(table[i], len)
  {
    seq(|table|, i requires 0 <= i < |table| => View(table[i], len))
  }

  /** Runs laid back to back (stride equal to length) tile `n * stride`. */
  lemma {:induction false} StridedTiles(n: nat, stride: nat)
    ensures Tiles(StridedViews(n, stride, stride), n * stride)
  {
    var vs := StridedViews(n, stride, stride);
    if n > 0 {
      var init := StridedViews(n - 1, stride, stride);
      assert vs[..n - 1] == init;
      StridedTiles(n - 1, stride);
      assert (n - 1) * stride + stride == n * stride;
      if n > 1 {
        ContiguousBounds(init, 0);
        assert vs[n - 1].start == init[n - 2].End();
      }
    }
  }

  lemma MulMonotone(c: nat, a: int, b: int)
    requires a <= b
    ensures c * a <= c * b
  {
  }

  lemma MulStrict(c: nat, a: int, b: int)
    requires a < b && c > 0
    ensures c * a < c * b
  {
  }

  /** Runs of `len` elements, `stride` apart, all fit in an allocation of
      `n * len` exactly when there is one run or the stride is at most the
      run length. */
  lemma StridedWithinIff(n: nat, stride: nat, len: nat)
    requires n >= 1
    ensures (forall i :: 0 <= i < n ==> Within(StridedViews(n, stride, len)[i], n * len))
        <==> (n == 1 || stride <= len)
  {
    var vs := StridedViews(n, stride, len);
    if n == 1 {
      assert vs[0] == View(0, len);
    } else if stride <= len {
      forall i | 0 <= i < n
        ensures Within(vs[i], n * len)
      {
        MulMonotone(i, stride, len);
        MulMonotone(len, i, n - 1);
        assert i * len + len <= n * len;
      }
    } else {
      MulStrict(n - 1, len, stride);
      assert (n - 1) * stride + len > n * len;
      assert !Within(vs[n - 1], n * len);
    }
  }

  /** Pointer-table setup in `initBuffers`: entry 0 is the allocation itself
      and entry `i` is entry `i-1` moved on by `stride`. */
  method FillPointerTable(table: array<int>, stride: int)
    requires table.Length >= 1
    modifies table
    ensures forall i :: 0 <= i < table.Length ==> table[i] == i * stride
  {
    table[0] := 0;
    var i := 1;
    while i < table.Length
      invariant 1 <= i <= table.Length
      invariant forall j :: 0 <= j < i ==> table[j] == j * stride
    {
      table[i] := table[i - 1] + stride;
      i := i + 1;
    }
  }

  /** A fresh pointer table of `n` entries, `stride` apart. */
  method NewPointerTable(n: nat, stride: int) returns (table: array<int>)
    requires n >= 1
    ensures fresh(table) && table.Length == n
    ensures forall len :: TableViews(table[..], len) == StridedViews(n, stride, len)
  {
    table := new int[n];
    FillPointerTable(table, stride);
  }

  /** A fresh `Float1SOAPyramid` laid out by `createFloat1SOAPyramid`. */
  method NewFloat1SOAPyramid(levels: nat, xRes: nat, yRes: nat)
    returns (pyramid: Float1SOAPyramid, allocLen: nat)
    requires levels >= 1
    ensures fresh(pyramid.x) && pyramid.x.Length == levels
    ensures allocLen == PyramidCount(xRes * yRes, levels)
    ensures Tiles(LevelViews(pyramid.x[..], xRes * yRes), allocLen)
  {
    pyramid := new Float1SOAPyramid(levels);
    allocLen := CreateFloat1SOAPyramid(pyramid, xRes, yRes);
  }

  /** A fresh `Float3SOAPyramid` laid out by `createFloat3SOAPyramid`. */
  method NewFloat3SOAPyramid(levels: nat, xRes: nat, yRes: nat)
    returns (pyramid: Float3SOAPyramid, allocLen: nat)
    requires levels >= 1
    ensures fresh(pyramid.x) && fresh(pyramid.y) && fresh(pyramid.z)
    ensures pyramid.x.Length == pyramid.y.Length == pyramid.z.Length == levels
    ensures allocLen == 3 * PyramidCount(xRes * yRes, levels)
    ensures pyramid.y[0] == PyramidCount(xRes * yRes, levels)
    ensures pyramid.z[0] == 2 * PyramidCount(xRes * yRes, levels)
    ensures Tiles(pyramid.Pointers().Views(xRes * yRes), allocLen)
  {
    pyramid := new Float3SOAPyramid(levels);
    allocLen := CreateFloat3SOAPyramid(pyramid, xRes, yRes);
  }

  /** The distance-peak list views as `initBuffers` writes them
      (MeshTracker.cpp:71-73): the stride is DISTANCE_HIST_COUNT, although
      each list holds DISTANCE_HIST_MAX_PEAKS entries and the allocation
      holds MAX_2D_PEAKS_PER_ROUND * DISTANCE_HIST_MAX_PEAKS. */
  function DistPeakViewsAsWritten(k: Constants): seq<View> {
    StridedViews(k.max2DPeaksPerRound, k.distanceHistCount, k.distanceHistMaxPeaks)
  }

  /** As written, the peak lists stay inside their allocation only when there
      is a single normal peak per round or DISTANCE_HIST_COUNT is at most
      DISTANCE_HIST_MAX_PEAKS. */
  lemma DistPeakTableAsWrittenFits(k: Constants)
    requires k.Valid()
    ensures (forall i :: 0 <= i < k.max2DPeaksPerRound ==>
               Within(DistPeakViewsAsWritten(k)[i], k.max2DPeaksPerRound * k.distanceHistMaxPeaks))
        <==> (k.max2DPeaksPerRound == 1 || k.distanceHistCount <= k.distanceHistMaxPeaks)
  {
    assert DistPeakViewsAsWritten(k)
      == StridedViews(k.max2DPeaksPerRound, k.distanceHistCount, k.distanceHistMaxPeaks);
    StridedWithinIff(k.max2DPeaksPerRound, k.distanceHistCount, k.distanceHistMaxPeaks);
  }

  /** A concrete overrun: two normal peaks, four histogram bins, two peak
      entries. List 1 starts at element 4 of a 4-element allocation. */
  lemma DistPeakTableAsWrittenOverrun()
    ensures var k := Constants(1, 2, 4, 2, 1, 1, 1);
      k.Valid() && !Within(DistPeakViewsAsWritten(k)[1], 4)
  {
    var k := Constants(1, 2, 4, 2, 1, 1, 1);
    assert DistPeakViewsAsWritten(k)[1] == View(4, 2);
  }

  /** As written, the peak lists tile their allocation exactly when there is
      a single normal peak per round or DISTANCE_HIST_COUNT equals
      DISTANCE_HIST_MAX_PEAKS. */
  lemma DistPeakTableAsWrittenTilesIff(k: Constants)
    requires k.Valid()
    ensures Tiles(DistPeakViewsAsWritten(k), k.SlotsPerRound())
        <==> (k.max2DPeaksPerRound == 1 || k.distanceHistCount == k.distanceHistMaxPeaks)
  {
    var vs := DistPeakViewsAsWritten(k);
    if k.distanceHistCount == k.distanceHistMaxPeaks {
      assert vs == DistPeakViews(k);
      DistPeakViewsTile(k);
    } else if k.max2DPeaksPerRound == 1 {
      assert vs == StridedViews(1, k.distanceHistMaxPeaks, k.distanceHistMaxPeaks);
      StridedTiles(1, k.distanceHistMaxPeaks);
    } else {
      assert vs[1].start != vs[0].End();
    }
  }

  /** As written, with DISTANCE_HIST_COUNT below DISTANCE_HIST_MAX_PEAKS and
      at least two normal peaks, the first two peak lists overlap. */
  lemma DistPeakTableAsWrittenOverlaps(k: Constants)
    requires k.Valid()
    requires k.max2DPeaksPerRound >= 2 && k.distanceHistCount < k.distanceHistMaxPeaks
    ensures !Disjoint(DistPeakViewsAsWritten(k)[0], DistPeakViewsAsWritten(k)[1])
  {
    assert DistPeakViewsAsWritten(k)[1] == View(k.distanceHistCount, k.distanceHistMaxPeaks);
  }

  /** The distance-peak list views with the evidently intended stride
      DISTANCE_HIST_MAX_PEAKS. */
  function DistPeakViews(k: Constants): seq<View> {
    StridedViews(k.max2DPeaksPerRound, k.distanceHistMaxPeaks, k.distanceHistMaxPeaks)
  }

  /** Corrected, the peak lists tile their allocation for every choice of
      the constants. */
  lemma DistPeakViewsTile(k: Constants)
    ensures Tiles(DistPeakViews(k), k.max2DPeaksPerRound * k.distanceHistMaxPeaks)
  {
    StridedTiles(k.max2DPeaksPerRound, k.distanceHistMaxPeaks);
  }

  /** Histogram `i` starts at `i * DISTANCE_HIST_COUNT`; together they tile
      the `MAX_2D_PEAKS_PER_ROUND * DISTANCE_HIST_COUNT` block. */
  function DistanceHistogramViews(k: Constants): seq<View> {
    StridedViews(k.max2DPeaksPerRound, k.distanceHistCount, k.distanceHistCount)
  }

  lemma DistanceHistogramViewsTile(k: Constants)
    ensures Tiles(DistanceHistogramViews(k), k.max2DPeaksPerRound * k.distanceHistCount)
  {
    StridedTiles(k.max2DPeaksPerRound, k.distanceHistCount);
  }

  /** The colour, vertex-map and normal-map pyramids of `initBuffers`,
      each in an allocation of its own of the same size, given by the level
      pointers they were filled with. */
  method NewImagePyramids(levels: nat, xRes: nat, yRes: nat)
    returns (rgb: PyramidPointers, vmap: PyramidPointers, nmap: PyramidPointers, allocLen: nat)
    requires levels >= 1
    ensures rgb.HasLevels(levels) && vmap.HasLevels(levels) && nmap.HasLevels(levels)
    ensures rgb.y[0] == vmap.y[0] == nmap.y[0] == PyramidCount(xRes * yRes, levels)
    ensures rgb.z[0] == vmap.z[0] == nmap.z[0] == 2 * PyramidCount(xRes * yRes, levels)
    ensures allocLen == 3 * PyramidCount(xRes * yRes, levels)
    ensures Tiles(rgb.Views(xRes * yRes), allocLen)
    ensures Tiles(vmap.Views(xRes * yRes), allocLen)
    ensures Tiles(nmap.Views(xRes * yRes), allocLen)
  {
    var p, a, b, c;
    p, a := NewFloat3SOAPyramid(levels, xRes, yRes);
    rgb := p.Pointers();
    p, b := NewFloat3SOAPyramid(levels, xRes, yRes);
    vmap := p.Pointers();
    p, c := NewFloat3SOAPyramid(levels, xRes, yRes);
    nmap := p.Pointers();
    allocLen := a;
  }

  /** The per-cluster pointer tables of `initBuffers`: histogram `i` and
      peak list `i` of each normal peak `i`. */
  method NewClusterTables(k: Constants) returns (hist: array<int>, dp: array<int>)
    requires k.Valid()
    ensures fresh(hist) && fresh(dp)
    ensures hist.Length == dp.Length == k.max2DPeaksPerRound
    ensures TableViews(hist[..], k.distanceHistCount) == DistanceHistogramViews(k)
    ensures TableViews(dp[..], k.distanceHistMaxPeaks) == DistPeakViews(k)
  {
    hist := NewPointerTable(k.max2DPeaksPerRound, k.distanceHistCount);
    dp := NewPointerTable(k.max2DPeaksPerRound, k.distanceHistMaxPeaks);
  }

  /** The pointers `initBuffers` leaves behind, with their allocation
      sizes: the level pointers of the three image pyramids, the channel
      pointers of the normal-peak and plane-texture buffers, and the two
      per-cluster pointer tables. */
  datatype BufferLayout = BufferLayout(
    k: Constants,
    pixCount: nat,
    rgbSOA: PyramidPointers,
    vmapSOA: PyramidPointers,
    nmapSOA: PyramidPointers,
    pyramidAlloc: nat,
    normalPeaks: Float3SOA,
    normalPeaksAlloc: nat,
    distanceHistograms: seq<int>,
    distanceHistogramsAlloc: nat,
    distPeaks: seq<int>,
    distPeaksAlloc: nat,
    planeTexture: Float4SOA,
    planeTextureAlloc: nat)
  {
    /** Every pointer names a view inside its own allocation, and the views
        of one allocation tile it. */
    predicate Valid() {
      && pyramidAlloc == 3 * PyramidCount(pixCount, k.numPyramidLevels)
      && rgbSOA.HasLevels(k.numPyramidLevels) && vmapSOA.HasLevels(k.numPyramidLevels)
      && nmapSOA.HasLevels(k.numPyramidLevels)
      && Tiles(rgbSOA.Views(pixCount), pyramidAlloc)
      && Tiles(vmapSOA.Views(pixCount), pyramidAlloc)
      && Tiles(nmapSOA.Views(pixCount), pyramidAlloc)
      && Tiles(normalPeaks.Views(k.max2DPeaksPerRound), normalPeaksAlloc)
      && TableViews(distanceHistograms, k.distanceHistCount) == DistanceHistogramViews(k)
      && distanceHistogramsAlloc == k.HistogramEntries()
      && TableViews(distPeaks, k.distanceHistMaxPeaks) == DistPeakViews(k)
      && distPeaksAlloc == k.SlotsPerRound()
      && Tiles(planeTexture.Views(k.TextureTexels()), planeTextureAlloc)
    }
  }

  /** The view-building part of `initBuffers(xRes, yRes)`; the peak-list
      table uses the corrected stride. */
  method InitBuffers(xRes: nat, yRes: nat, k: Constants) returns (b: BufferLayout)
    requires k.Valid()
    ensures b.k == k && b.pixCount == xRes * yRes
    ensures b.Valid()
  {
    var rgb, vmap, nmap, a := NewImagePyramids(k.numPyramidLevels, xRes, yRes);
    var peaks, peaksAlloc := CreateFloat3SOA(k.max2DPeaksPerRound);
    var hist, dp := NewClusterTables(k);
    var tex, texAlloc := CreateFloat4SOA(k.TextureTexels());
    b := BufferLayout(k, xRes * yRes, rgb, vmap, nmap, a, peaks, peaksAlloc,
                      hist[..], k.HistogramEntries(), dp[..], k.SlotsPerRound(), tex, texAlloc);
  }

  /** In a valid layout every distance histogram and every peak list lies
      inside its allocation and no two overlap. */
  lemma TablesWithinAndDisjoint(b: BufferLayout)
    requires b.Valid()
    ensures forall i :: 0 <= i < b.k.max2DPeaksPerRound ==>
      Within(View(b.distanceHistograms[i], b.k.distanceHistCount), b.distanceHistogramsAlloc)
    ensures forall i :: 0 <= i < b.k.max2DPeaksPerRound ==>
      Within(View(b.distPeaks[i], b.k.distanceHistMaxPeaks), b.distPeaksAlloc)
    ensures forall i, j :: 0 <= i < j < b.k.max2DPeaksPerRound ==>
      Disjoint(View(b.distanceHistograms[i], b.k.distanceHistCount),
               View(b.distanceHistograms[j], b.k.distanceHistCount))
    ensures forall i, j :: 0 <= i < j < b.k.max2DPeaksPerRound ==>
      Disjoint(View(b.distPeaks[i], b.k.distanceHistMaxPeaks),
               View(b.distPeaks[j], b.k.distanceHistMaxPeaks))
  {
    var hv := TableViews(b.distanceHistograms, b.k.distanceHistCount);
    var pv := TableViews(b.distPeaks, b.k.distanceHistMaxPeaks);
    DistanceHistogramViewsTile(b.k);
    DistPeakViewsTile(b.k);
    TilesWithinAndDisjoint(hv, b.distanceHistogramsAlloc);
    TilesWithinAndDisjoint(pv, b.distPeaksAlloc);
  }
}

/** The compile-time sizes of the mesh tracker. Their values are fixed in a
    header that is not part of this model, so they are carried as a record
    and every result holds for all positive values. */
module Config {

  datatype Constants = Constants(
    numPyramidLevels: nat,        // NUM_PYRAMID_LEVELS
    max2DPeaksPerRound: nat,      // MAX_2D_PEAKS_PER_ROUND
    distanceHistCount: nat,       // DISTANCE_HIST_COUNT
    distanceHistMaxPeaks: nat,    // DISTANCE_HIST_MAX_PEAKS
    maxSegmentationRounds: nat,   // MAX_SEGMENTATION_ROUNDS
    maxPlanesTotal: nat,          // MAX_PLANES_TOTAL
    maxTextureBufferSize: nat)    // MAX_TEXTURE_BUFFER_SIZE
  {
    /** Every size is positive. */
    predicate Valid() {
      && numPyramidLevels >= 1
      && max2DPeaksPerRound >= 1
      && distanceHistCount >= 1
      && distanceHistMaxPeaks >= 1
      && maxSegmentationRounds >= 1
      && maxPlanesTotal >= 1
      && maxTextureBufferSize >= 1
    }

    /** Plane-statistics slots produced by one segmentation round: one per
        (normal peak, distance peak) pair. */
    function SlotsPerRound(): nat {
      max2DPeaksPerRound * distanceHistMaxPeaks
    }

    /** Entries of the distance-histogram allocation: one histogram of
        DISTANCE_HIST_COUNT bins per normal peak. */
    function HistogramEntries(): nat {
      max2DPeaksPerRound * distanceHistCount
    }

    /** Texels of one plane-texture buffer, which is square. */
    function TextureTexels(): nat {
      maxTextureBufferSize * maxTextureBufferSize
    }
  }
}

/**
 * The appearance cue of re-identification. The colour histogram of a crop
 * and the correlation between two histograms are computed by an image
 * library; here a histogram is its vector of bin weights and both the
 * frame's crops and the comparison are supplied from outside.
 */
module Appearance {
  import opened Geometry

  /** A flattened, normalised hue/saturation histogram (30 x 32 bins in the source). */
  datatype Hist = Hist(bins: seq<real>)

  /**
   * What one video frame offers the tracker: whether the crop of a box is
   * empty, and the histogram of a crop that is not.
   */
  datatype Frame = Frame(cropEmpty: Box -> bool, histogramOf: Box -> Hist)

  /** Correlation of two histograms (higher is more alike). */
  type Similarity = (Hist, Hist) -> real

  /** A re-identification needs a similarity strictly above this score. */
  const AppearanceThreshold: real := 0.85
}

/**
 The value types that flow through the dominant-colour pipeline: the
 resulting Color, the 4-channel pixels of a decoded sprite, the entries of a
 mixed colour/label series, and plain real triples used for whitened points,
 centroids and per-channel standard deviations.
 */
module Colors {

  /** The result value of the pipeline. Its `rgb` view is the triple of its
      three channels in red, green, blue order, from which the colour can be
      rebuilt. */
  datatype Color = Color(r: real, g: real, b: real) {
    function Rgb(): (t: (real, real, real))
      ensures Color(t.0, t.1, t.2) == this
    {
      (r, g, b)
    }
  }

  /** One pixel of a decoded image: red, green, blue and alpha fractions. */
  datatype Pixel = Pixel(r: real, g: real, b: real, alpha: real) {
    /** The colour part of the pixel, alpha dropped. */
    function Paint(): Color {
      Color(r, g, b)
    }
  }

  /** One element of a series: either a category label (a string, skipped by
      the collector) or a colour. */
  datatype Entry = Label(name: string) | Swatch(color: Color)

  /** A point in red/green/blue space: a whitened sample, a centroid, or the
      three per-channel standard deviations. */
  datatype Channels = Channels(red: real, green: real, blue: real)
}

/**
 The dominant-colour estimator `get_dominant_color` and the two entry points
 `get_from_image` / `get_from_series` that feed it.

 The clustering itself (`whiten` + `kmeans2`) is not computed here: it is
 randomised floating-point library code. Its result enters as a `Clustering`
 value supplied by the caller: K centroids in whitened space and one label in
 [0, K) per sample. Likewise the per-channel standard deviations used for the
 rescale are given reals, separate from the ones `whiten` divides by.
 */
module Estimator {
  import opened Colors
  import opened Filters
  import opened Collect
  import opened Histogram
  import opened Stats

  /** What `kmeans2` returns: the centroids and each sample's cluster label. */
  datatype Clustering = Clustering(centroids: seq<Channels>, labels: seq<nat>)

  /** `cl` is a clustering of `n` samples into `k` clusters. */
  predicate Fits(cl: Clustering, k: nat, n: nat) {
    && |cl.centroids| == k
    && |cl.labels| == n
    && (forall i :: 0 <= i < n ==> cl.labels[i] < k)
  }

  /** One entry of `dominant_colors`: each whitened centroid coordinate times
      that channel's standard deviation, divided by 255. */
  function Rescale(center: Channels, sd: Channels): Color {
    Color(center.red * sd.red / 255.0, center.green * sd.green / 255.0, center.blue * sd.blue / 255.0)
  }

  /** The inverse of `Rescale`: times 255, divided by the deviation. */
  function Unrescale(c: Color, sd: Channels): Channels
    requires sd.red != 0.0 && sd.green != 0.0 && sd.blue != 0.0
  {
    Channels(c.r * 255.0 / sd.red, c.g * 255.0 / sd.green, c.b * 255.0 / sd.blue)
  }

  /** Rescaling is undone by the inverse arithmetic whenever no standard
      deviation is 0: no channel is lost or swapped. */
  lemma RescaleInvertible(center: Channels, sd: Channels)
    requires sd.red != 0.0 && sd.green != 0.0 && sd.blue != 0.0
    ensures Unrescale(Rescale(center, sd), sd) == center
  {
  }

  /** The list `dominant_colors`: every centroid rescaled, in centroid order. */
  function RescaleAll(centers: seq<Channels>, sd: Channels): (colors: seq<Color>)
    ensures |colors| == |centers|
    ensures forall i :: 0 <= i < |centers| ==> colors[i] == Rescale(centers[i], sd)
  {
    seq(|centers|, i requires 0 <= i < |centers| => Rescale(centers[i], sd))
  }

  /** With no deviation 0, each entry of `dominant_colors` gives back the
      centroid at the same position: the list keeps every centroid, in order. */
  lemma RescaleAllInvertible(centers: seq<Channels>, sd: Channels)
    requires sd.red != 0.0 && sd.green != 0.0 && sd.blue != 0.0
    ensures forall i :: 0 <= i < |centers| ==> Unrescale(RescaleAll(centers, sd)[i], sd) == centers[i]
  {
    forall i | 0 <= i < |centers|
      ensures Unrescale(RescaleAll(centers, sd)[i], sd) == centers[i]
    {
      RescaleInvertible(centers[i], sd);
    }
  }

  /** `get_dominant_color` after `kmeans2`: the centroid of the most
      populous cluster (the first mode of the labels, see `DominantCluster`),
      rescaled by the given standard deviations, as a Color whose rgb is
      (red, green, blue) in that order. The winning label is below K, so the
      lookup into the K rescaled centroids is in range. Needs at least one
      sample: the bincount of no labels is empty and has no maximum. */
  function DominantColor(s: SampleSet, k: nat, cl: Clustering, sd: Channels): (color: Color)
    requires s.WellFormed() && |s.red| > 0
    requires Fits(cl, k, |s.red|)
    ensures var w := DominantCluster(cl.labels);
      && w < k
      && color.Rgb() == (cl.centroids[w].red * sd.red / 255.0,
                         cl.centroids[w].green * sd.green / 255.0,
                         cl.centroids[w].blue * sd.blue / 255.0)
  {
    var w := DominantCluster(cl.labels);
    var c := RescaleAll(cl.centroids, sd)[w];
    assert c == Rescale(cl.centroids[w], sd);
    assert c.Rgb() == (c.r, c.g, c.b);
    c
  }

  /** `get_from_image`: collect the visible pixels of the sprite, then pick
      the dominant colour of the clustering of those samples. */
  method GetFromImage(image: Image, k: nat, cl: Clustering, sd: Channels) returns (color: Color)
    requires |Visible(Flatten(image))| > 0
    requires Fits(cl, k, |Visible(Flatten(image))|)
    ensures color == DominantColor(ImageSamples(image), k, cl, sd)
  {
    var s := CollectImage(image);
    ImageSamplesShape(image);
    color := DominantColor(s, k, cl, sd);
  }

  /** `get_from_series`: collect the colour entries of the series, then pick
      the dominant colour of the clustering of those samples. */
  method GetFromSeries(series: seq<Entry>, k: nat, cl: Clustering, sd: Channels) returns (color: Color)
    requires |Keep(series, NotLabel)| > 0
    requires Fits(cl, k, |Keep(series, NotLabel)|)
    ensures color == DominantColor(SeriesSamples(series), k, cl, sd)
  {
    var s := CollectSeries(series);
    SeriesSamplesShape(series);
    color := DominantColor(s, k, cl, sd);
  }

  /** Transparent pixels do not influence the result: the sprite with all of
      them deleted collects the same samples (`DropTransparentPreservesSamples`),
      from which the equal dominant colour under the same clustering follows. */
  lemma DropTransparentPreservesColor(image: Image, k: nat, cl: Clustering, sd: Channels)
    requires |Visible(Flatten(image))| > 0
    requires Fits(cl, k, |Visible(Flatten(image))|)
    ensures ImageSamples(DropTransparent(image)) == ImageSamples(image)
    ensures DominantColor(ImageSamples(DropTransparent(image)), k, cl, sd)
         == DominantColor(ImageSamples(image), k, cl, sd)
  {
    DropTransparentPreservesSamples(image);
  }

  // ------------------------------------------------ centroids as cluster means

  /** The sum of the values of `xs` at the samples labelled `w`. */
  function MemberTotal(xs: seq<real>, labels: seq<nat>, w: nat): real
    requires |xs| == |labels|
    decreases |xs|
  {
    if |xs| == 0 then 0.0
    else
      var n := |xs| - 1;
      MemberTotal(xs[..n], labels[..n], w) + (if labels[n] == w then xs[n] else 0.0)
  }

  /** The number of samples labelled `w`, counted as a real: the divisor of
      the cluster's mean. */
  function MemberCount(labels: seq<nat>, w: nat): real
    decreases |labels|
  {
    if |labels| == 0 then 0.0
    else
      var n := |labels| - 1;
      MemberCount(labels[..n], w) + (if labels[n] == w then 1.0 else 0.0)
  }

  /** The real member count is the bincount entry of the cluster. */
  lemma {:induction false} MemberCountIsOccurrences(labels: seq<nat>, w: nat)
    ensures MemberCount(labels, w) == Occurrences(labels, w) as real
    decreases |labels|
  {
    if |labels| > 0 {
      var n := |labels| - 1;
      assert labels == labels[..n] + [labels[n]];
      assert multiset(labels) == multiset(labels[..n]) + multiset{labels[n]};
      MemberCountIsOccurrences(labels[..n], w);
    }
  }

  /** The three columns of `s`, each divided by its own standard deviation:
      the points `kmeans2` clusters. */
  function WhitenSamples(s: SampleSet, sd: Channels): (ws: SampleSet)
    requires sd.red > 0.0 && sd.green > 0.0 && sd.blue > 0.0
    ensures |ws.red| == |s.red| && |ws.green| == |s.green| && |ws.blue| == |s.blue|
    ensures forall i :: 0 <= i < |s.red| ==> ws.red[i] * sd.red == s.red[i]
    ensures forall i :: 0 <= i < |s.green| ==> ws.green[i] * sd.green == s.green[i]
    ensures forall i :: 0 <= i < |s.blue| ==> ws.blue[i] * sd.blue == s.blue[i]
  {
    SampleSet(Whiten(s.red, sd.red), Whiten(s.green, sd.green), Whiten(s.blue, sd.blue))
  }

  /** Every non-empty cluster's centroid is the mean of the points labelled
      with it, as after a final update step of k-means. */
  ghost predicate CentroidsAreMeans(points: SampleSet, cl: Clustering)
    requires points.WellFormed() && |cl.labels| == |points.red|
  {
    forall w :: 0 <= w < |cl.centroids| && MemberCount(cl.labels, w) > 0.0 ==>
      var n := MemberCount(cl.labels, w);
      cl.centroids[w] == Channels(MemberTotal(points.red, cl.labels, w) / n,
                                  MemberTotal(points.green, cl.labels, w) / n,
                                  MemberTotal(points.blue, cl.labels, w) / n)
  }

  /** Whitening commutes with summing a cluster: the total of the whitened
      members is the total of the members divided by the deviation. */
  lemma {:induction false} MemberTotalWhiten(xs: seq<real>, labels: seq<nat>, w: nat, sd: real)
    requires |xs| == |labels| && sd > 0.0
    ensures MemberTotal(Whiten(xs, sd), labels, w) == MemberTotal(xs, labels, w) / sd
    decreases |xs|
  {
    if |xs| > 0 {
      var n := |xs| - 1;
      assert Whiten(xs, sd)[..n] == Whiten(xs[..n], sd);
      MemberTotalWhiten(xs[..n], labels[..n], w, sd);
    }
  }

  /** A cluster's total of values in [0, 255] lies between 0 and 255 times
      its population. */
  lemma {:induction false} MemberTotalBounds(xs: seq<real>, labels: seq<nat>, w: nat)
    requires |xs| == |labels|
    requires forall i :: 0 <= i < |xs| ==> 0.0 <= xs[i] <= 255.0
    ensures 0.0 <= MemberTotal(xs, labels, w) <= 255.0 * MemberCount(labels, w)
    decreases |xs|
  {
    if |xs| > 0 {
      var n := |xs| - 1;
      MemberTotalBounds(xs[..n], labels[..n], w);
    }
  }
}

/**
 The two standard deviations of `get_dominant_color` disagree. `whiten`
 divides each column by its population standard deviation (ddof 0), while the
 rescale multiplies the winning centroid by the pandas `std()` of the column,
 which is the sample standard deviation (ddof 1). Rescaling therefore does not
 undo whitening: every channel of the result is inflated by sqrt(n / (n - 1)).

 `SampleStdRescaleOvershoots` exhibits the effect on a five-pixel sprite
 whose three colour columns are not collinear, under an assumed two-cluster
 result of `kmeans2` (the clustering is not computed); `WhiteningStdRescaleIsClusterMean`
 and `WhiteningStdRescaleInRange` prove what rescaling with the whitening
 deviation gives instead.
 */
module RescaleDeviation {
  import opened Colors
  import opened Filters
  import opened Collect
  import opened Histogram
  import opened Stats
  import opened Estimator

  const WhitePixel := Pixel(1.0, 1.0, 1.0, 1.0)
  const RedPixel := Pixel(1.0, 0.0, 0.0, 1.0)
  const BlackPixel := Pixel(0.0, 0.0, 0.0, 1.0)
  const GreenPixel := Pixel(0.0, 1.0, 0.0, 1.0)

  /** One row of five opaque pixels: white, white, red, black, green. As
      points in colour space, white, red, black and green span all three
      dimensions, so the channel columns are not collinear. */
  const Sprite: Image := [SpriteRow]

  const SpriteRow := [WhitePixel, WhitePixel, RedPixel, BlackPixel, GreenPixel]

  /** The sprite's samples, channel by channel. */
  const Reds: seq<real> := [255.0, 255.0, 255.0, 0.0, 0.0]
  const Greens: seq<real> := [255.0, 255.0, 0.0, 0.0, 255.0]
  const Blues: seq<real> := [255.0, 255.0, 0.0, 0.0, 0.0]

  /** The cluster of each pixel: white, white and red in cluster 0, black
      and green in cluster 1. */
  const SpriteLabels: seq<nat> := [0, 0, 0, 1, 1]

  /** An assumed two-cluster result for `Sprite` whitened by `pop` (all three
      columns share that deviation, see `SpriteColumnsShareDeviation`): the
      labels above, each centroid the mean of its whitened members. */
  function SpriteClustering(pop: real): (cl: Clustering)
    requires pop > 0.0
    ensures Fits(cl, 2, |Reds|)
  {
    SpriteLabelsBelowTwo();
    Clustering([Channels(255.0 / pop, 170.0 / pop, 170.0 / pop), Channels(0.0, 127.5 / pop, 0.0)], SpriteLabels)
  }

  lemma SpriteLabelsBelowTwo()
    ensures forall i :: 0 <= i < |SpriteLabels| ==> SpriteLabels[i] < 2
  {
    forall i | 0 <= i < |SpriteLabels|
      ensures SpriteLabels[i] < 2
    {
      if i < 3 {
        assert SpriteLabels[i] == 0;
      } else {
        assert SpriteLabels[i] == 1;
      }
    }
  }

  function SpriteSampleSet(): (s: SampleSet)
    ensures s.WellFormed() && |s.red| == 5
  {
    SampleSet(Reds, Greens, Blues)
  }

  /** The sprite's colours, in row-major order. */
  const SpritePalette := [Color(1.0, 1.0, 1.0), Color(1.0, 1.0, 1.0), Color(1.0, 0.0, 0.0),
                          Color(0.0, 0.0, 0.0), Color(0.0, 1.0, 0.0)]

  lemma SpriteSamples()
    ensures ImageSamples(Sprite) == SpriteSampleSet()
  {
    SpritePixels();
    SpriteVisible();
    SpritePaints();
    SpriteColorSamples();
  }

  lemma SpritePixels()
    ensures Flatten(Sprite) == SpriteRow
  {
    assert Sprite[..0] == [];
    assert Flatten(Sprite) == Flatten([]) + Sprite[0];
  }

  /** No pixel of the sprite is transparent. */
  lemma SpriteVisible()
    ensures Visible(SpriteRow) == SpriteRow
  {
    assert forall i :: 0 <= i < |SpriteRow| ==> Opaque(SpriteRow[i]);
    KeepAll(SpriteRow, Opaque);
  }

  lemma SpritePaints()
    ensures Paints(SpriteRow) == SpritePalette
  {
    var cs := Paints(SpriteRow);
    assert |cs| == 5;
    assert cs[0] == SpritePalette[0] && cs[1] == SpritePalette[1] && cs[2] == SpritePalette[2];
    assert cs[3] == SpritePalette[3] && cs[4] == SpritePalette[4];
  }

  lemma SpriteColorSamples()
    ensures SamplesOf(SpritePalette) == SpriteSampleSet()
  {
    var s := SamplesOf(SpritePalette);
    assert s.red == Reds;
    assert s.green == Greens;
    assert s.blue == Blues;
  }

  // ------------------------------------------------ five-element unfoldings

  lemma TotalOfFive(a: real, b: real, c: real, d: real, e: real)
    ensures Total([a, b, c, d, e]) == a + b + c + d + e
  {
    var x1 := [a];
    var x2 := x1 + [b];
    var x3 := x2 + [c];
    var x4 := x3 + [d];
    var x5 := x4 + [e];
    assert x1[..0] == [] && x2[..1] == x1 && x3[..2] == x2 && x4[..3] == x3 && x5[..4] == x4;
    assert Total(x1) == a;
    assert Total(x2) == a + b;
    assert Total(x3) == a + b + c;
    assert Total(x4) == a + b + c + d;
    assert x5 == [a, b, c, d, e];
  }

  lemma SquaredDeviationOfFive(a: real, b: real, c: real, d: real, e: real, m: real)
    ensures SquaredDeviation([a, b, c, d, e], m)
         == (a - m) * (a - m) + (b - m) * (b - m) + (c - m) * (c - m) + (d - m) * (d - m) + (e - m) * (e - m)
  {
    var x1 := [a];
    var x2 := x1 + [b];
    var x3 := x2 + [c];
    var x4 := x3 + [d];
    var x5 := x4 + [e];
    assert x1[..0] == [] && x2[..1] == x1 && x3[..2] == x2 && x4[..3] == x3 && x5[..4] == x4;
    assert SquaredDeviation(x1, m) == (a - m) * (a - m);
    assert SquaredDeviation(x2, m) == (a - m) * (a - m) + (b - m) * (b - m);
    assert SquaredDeviation(x3, m) == (a - m) * (a - m) + (b - m) * (b - m) + (c - m) * (c - m);
    assert SquaredDeviation(x4, m)
        == (a - m) * (a - m) + (b - m) * (b - m) + (c - m) * (c - m) + (d - m) * (d - m);
    assert x5 == [a, b, c, d, e];
  }

  /** The totals of the two clusters of `SpriteLabels` over any five values. */
  lemma SpriteLabelTotals(a: real, b: real, c: real, d: real, e: real, w: nat)
    ensures MemberTotal([a, b, c, d, e], SpriteLabels, w)
         == if w == 0 then a + b + c else if w == 1 then d + e else 0.0
  {
    var x1, l1 := [a], [0];
    var x2, l2 := x1 + [b], l1 + [0];
    var x3, l3 := x2 + [c], l2 + [0];
    var x4, l4 := x3 + [d], l3 + [1];
    var x5, l5 := x4 + [e], l4 + [1];
    assert x1[..0] == [] && x2[..1] == x1 && x3[..2] == x2 && x4[..3] == x3 && x5[..4] == x4;
    assert l1[..0] == [] && l2[..1] == l1 && l3[..2] == l2 && l4[..3] == l3 && l5[..4] == l4;
    assert MemberTotal(x1, l1, w) == if w == 0 then a else 0.0;
    assert MemberTotal(x2, l2, w) == if w == 0 then a + b else 0.0;
    assert MemberTotal(x3, l3, w) == if w == 0 then a + b + c else 0.0;
    assert MemberTotal(x4, l4, w) == if w == 0 then a + b + c else if w == 1 then d else 0.0;
    assert x5 == [a, b, c, d, e] && l5 == SpriteLabels;
  }

  /** Cluster 0 has three members, cluster 1 two, every other label none. */
  lemma SpriteLabelCounts(w: nat)
    ensures MemberCount(SpriteLabels, w) == if w == 0 then 3.0 else if w == 1 then 2.0 else 0.0
  {
    var l1: seq<nat> := [0];
    var l2 := l1 + [0];
    var l3 := l2 + [0];
    var l4 := l3 + [1];
    var l5 := l4 + [1];
    assert l1[..0] == [] && l2[..1] == l1 && l3[..2] == l2 && l4[..3] == l3 && l5[..4] == l4;
    assert MemberCount(l1, w) == if w == 0 then 1.0 else 0.0;
    assert MemberCount(l2, w) == if w == 0 then 2.0 else 0.0;
    assert MemberCount(l3, w) == if w == 0 then 3.0 else 0.0;
    assert MemberCount(l4, w) == if w == 0 then 3.0 else if w == 1 then 1.0 else 0.0;
    assert l5 == SpriteLabels;
  }

  // ------------------------------------------------ the sprite's statistics

  /** Every column of the sprite has squared deviation 78030 from its mean:
      red and green have mean 153, blue has mean 102. */
  lemma SpriteMoments()
    ensures Mean(Reds) == 153.0 && Mean(Greens) == 153.0 && Mean(Blues) == 102.0
    ensures SquaredDeviation(Reds, 153.0) == 78030.0
    ensures SquaredDeviation(Greens, 153.0) == 78030.0
    ensures SquaredDeviation(Blues, 102.0) == 78030.0
  {
    TotalOfFive(255.0, 255.0, 255.0, 0.0, 0.0);
    TotalOfFive(255.0, 255.0, 0.0, 0.0, 255.0);
    TotalOfFive(255.0, 255.0, 0.0, 0.0, 0.0);
    SquaredDeviationOfFive(255.0, 255.0, 255.0, 0.0, 0.0, 153.0);
    SquaredDeviationOfFive(255.0, 255.0, 0.0, 0.0, 255.0, 153.0);
    SquaredDeviationOfFive(255.0, 255.0, 0.0, 0.0, 0.0, 102.0);
  }

  /** The three columns have one and the same population deviation and one
      and the same sample deviation, so a single value of each serves for
      all three channels. */
  lemma SpriteColumnsShareDeviation(sd: real, ddof: nat)
    requires ddof <= 1
    ensures IsStd(Reds, sd, ddof) <==> IsStd(Greens, sd, ddof)
    ensures IsStd(Reds, sd, ddof) <==> IsStd(Blues, sd, ddof)
  {
    SpriteMoments();
  }

  /** The population variance of each column is 15606 and the sample
      variance 19507.5, so the sample deviation is sqrt(5/4) times the
      population one. */
  lemma SpriteStds(pop: real, smp: real)
    requires IsStd(Reds, pop, 0) && IsStd(Reds, smp, 1)
    ensures pop > 0.0 && smp > 0.0
    ensures smp * smp == 1.25 * (pop * pop) && pop < smp
  {
    SpriteMoments();
    assert pop * pop == 15606.0;
    assert smp * smp == 19507.5;
    assert pop > 0.0 && smp > 0.0;
    PopulationStdBelowSampleStd(Reds, pop, smp);
  }

  /** x^2 = 5/4 y^2 with 0 < y < x: the ratio x / y squares to 5/4 and exceeds 1. */
  lemma RatioFromSquares(x: real, y: real)
    requires y > 0.0 && x * x == 1.25 * (y * y) && y < x
    ensures (x / y) * (x / y) == 1.25 && x / y > 1.0
  {
    RatioSquared(x, y);
    MulPositive(y, y);
    calc {
      (x / y) * (x / y);
      (x / y) * (x / y) * (y * y) / (y * y);
      x * x / (y * y);
      1.25 * (y * y) / (y * y);
      1.25;
    }
    assert x / y > y / y;
  }

  /** A quotient squared, times the divisor squared, is the dividend squared. */
  lemma RatioSquared(x: real, y: real)
    requires y > 0.0
    ensures (x / y) * (x / y) * (y * y) == x * x
  {
    var q := x / y;
    assert q * y == x;
    assert q * q * (y * y) == (q * y) * (q * y);
  }

  // ------------------------------------------------ the sprite's clustering

  lemma WhitenedSpriteTotals(pop: real, w: nat)
    requires pop > 0.0
    ensures var h := 255.0 / pop;
      && MemberTotal(Whiten(Reds, pop), SpriteLabels, w) == (if w == 0 then 3.0 * h else 0.0)
      && MemberTotal(Whiten(Greens, pop), SpriteLabels, w) == (if w == 0 then 2.0 * h else if w == 1 then h else 0.0)
      && MemberTotal(Whiten(Blues, pop), SpriteLabels, w) == (if w == 0 then 2.0 * h else 0.0)
  {
    var h := 255.0 / pop;
    var z := 0.0 / pop;
    assert z == 0.0;
    assert Whiten(Reds, pop) == [h, h, h, 0.0, 0.0];
    assert Whiten(Greens, pop) == [h, h, 0.0, 0.0, h];
    assert Whiten(Blues, pop) == [h, h, 0.0, 0.0, 0.0];
    SpriteLabelTotals(h, h, h, 0.0, 0.0, w);
    SpriteLabelTotals(h, h, 0.0, 0.0, h, w);
    SpriteLabelTotals(h, h, 0.0, 0.0, 0.0, w);
  }

  /** The sprite's clustering has the means of its whitened members as centroids. */
  lemma SpriteCentroidsAreMeans(pop: real)
    requires pop > 0.0
    ensures CentroidsAreMeans(WhitenSamples(SpriteSampleSet(), Channels(pop, pop, pop)), SpriteClustering(pop))
  {
    var h := 255.0 / pop;
    WhitenedSpriteTotals(pop, 0);
    WhitenedSpriteTotals(pop, 1);
    SpriteLabelCounts(0);
    SpriteLabelCounts(1);
    assert 3.0 * h / 3.0 == 255.0 / pop;
    assert 2.0 * h / 3.0 == 170.0 / pop;
    assert h / 2.0 == 127.5 / pop;
  }

  /** Cluster 0 (three members) beats cluster 1 (two members). */
  lemma SpriteWinner()
    ensures DominantCluster(SpriteLabels) == 0
  {
    SpriteLabelCounts(0);
    SpriteLabelCounts(1);
    var w := DominantCluster(SpriteLabels);
    MemberCountIsOccurrences(SpriteLabels, 0);
    MemberCountIsOccurrences(SpriteLabels, 1);
    MemberCountIsOccurrences(SpriteLabels, w);
    SpriteLabelCounts(w);
  }

  /** Each channel of the dominant colour is the winning centroid's
      coordinate times that channel's deviation, over 255. */
  lemma DominantChannels(s: SampleSet, k: nat, cl: Clustering, sd: Channels)
    requires s.WellFormed() && |s.red| > 0 && Fits(cl, k, |s.red|)
    ensures var w := DominantCluster(cl.labels);
      var c := DominantColor(s, k, cl, sd);
      && w < |cl.centroids|
      && c == Rescale(cl.centroids[w], sd)
  {
    var c := DominantColor(s, k, cl, sd);
    assert c.Rgb() == (c.r, c.g, c.b);
  }

  /** `get_dominant_color` on the sprite's samples under the assumed
      clustering, with every channel rescaled by `sd`. */
  function SpriteDominant(pop: real, sd: real): Color
    requires pop > 0.0
  {
    DominantColor(SpriteSampleSet(), 2, SpriteClustering(pop), Channels(sd, sd, sd))
  }

  /** The sprite's dominant colour rescaled by `sd` is (sd / pop, 2/3 sd / pop,
      2/3 sd / pop): the centroid of cluster 0 times sd, over 255. */
  lemma SpriteColor(pop: real, sd: real)
    requires pop > 0.0
    ensures SpriteDominant(pop, sd) == Color(sd / pop, 2.0 / 3.0 * (sd / pop), 2.0 / 3.0 * (sd / pop))
  {
    var cl := SpriteClustering(pop);
    var rgb := Channels(sd, sd, sd);
    SpriteWinner();
    DominantChannels(SpriteSampleSet(), 2, cl, rgb);
    assert SpriteDominant(pop, sd) == Rescale(cl.centroids[0], rgb);
    RescaleWinningCentroid(pop, sd);
  }

  lemma RescaleWinningCentroid(pop: real, sd: real)
    requires pop > 0.0
    ensures Rescale(Channels(255.0 / pop, 170.0 / pop, 170.0 / pop), Channels(sd, sd, sd))
         == Color(sd / pop, 2.0 / 3.0 * (sd / pop), 2.0 / 3.0 * (sd / pop))
  {
    assert 255.0 / pop * sd / 255.0 == sd / pop;
    assert 170.0 / pop * sd / 255.0 == 2.0 / 3.0 * (sd / pop);
  }

  /** As written: `Sprite` yields the sample lists `SpriteSampleSet`, whose
      three columns share one population deviation `pop` and one sample
      deviation `smp`. Under the assumed two-cluster result, whose centroids
      are the means of their whitened members, rescaling by `smp` gives a red
      channel of sqrt(5/4) > 1, although every member of the winning cluster
      has red exactly 1. Rescaling by `pop` instead gives the cluster's mean
      colour (1, 2/3, 2/3). */
  lemma SampleStdRescaleOvershoots(pop: real, smp: real)
    requires IsStd(Reds, pop, 0) && IsStd(Reds, smp, 1)
    ensures ImageSamples(Sprite) == SpriteSampleSet()
    ensures pop > 0.0
    ensures IsStd(Greens, pop, 0) && IsStd(Blues, pop, 0) && IsStd(Greens, smp, 1) && IsStd(Blues, smp, 1)
    ensures CentroidsAreMeans(WhitenSamples(SpriteSampleSet(), Channels(pop, pop, pop)), SpriteClustering(pop))
    ensures SpriteDominant(pop, smp).r == smp / pop
    ensures (smp / pop) * (smp / pop) == 1.25
    ensures SpriteDominant(pop, smp).r > 1.0
    ensures SpriteDominant(pop, pop) == Color(1.0, 2.0 / 3.0, 2.0 / 3.0)
  {
    SpriteSamples();
    SpriteColumnsShareDeviation(pop, 0);
    SpriteColumnsShareDeviation(smp, 1);
    SpriteStds(pop, smp);
    SpriteCentroidsAreMeans(pop);
    SampleStdRed(pop, smp);
    WhiteningStdColor(pop);
  }

  /** Two deviations whose squares are in the ratio 5/4: rescaled by the
      larger, the sprite's red channel is their ratio, which squares to 5/4
      and exceeds 1. */
  lemma SampleStdRed(pop: real, smp: real)
    requires pop > 0.0 && smp * smp == 1.25 * (pop * pop) && pop < smp
    ensures SpriteDominant(pop, smp).r == smp / pop
    ensures (smp / pop) * (smp / pop) == 1.25
    ensures SpriteDominant(pop, smp).r > 1.0
  {
    RatioFromSquares(smp, pop);
    SpriteRed(pop, smp);
  }

  /** Rescaled by `sd`, the sprite's red channel is sd / pop. */
  lemma SpriteRed(pop: real, sd: real)
    requires pop > 0.0
    ensures SpriteDominant(pop, sd).r == sd / pop
  {
    SpriteColor(pop, sd);
  }

  /** Rescaled by `pop` itself, the sprite's colour is (1, 2/3, 2/3). */
  lemma WhiteningStdColor(pop: real)
    requires pop > 0.0
    ensures SpriteDominant(pop, pop) == Color(1.0, 2.0 / 3.0, 2.0 / 3.0)
  {
    assert pop / pop == 1.0;
    SpriteColor(pop, pop);
  }

  /** Corrected: when the rescale uses the same deviations that whitening
      divided by, and the winning centroid is the mean of its whitened
      members, the dominant colour is exactly the mean colour of the winning
      cluster's samples, divided by 255. */
  lemma WhiteningStdRescaleIsClusterMean(s: SampleSet, k: nat, cl: Clustering, pop: Channels)
    requires s.WellFormed() && |s.red| > 0 && Fits(cl, k, |s.red|)
    requires pop.red > 0.0 && pop.green > 0.0 && pop.blue > 0.0
    requires CentroidsAreMeans(WhitenSamples(s, pop), cl)
    ensures var w := DominantCluster(cl.labels);
      var n := MemberCount(cl.labels, w);
      && n > 0.0
      && DominantColor(s, k, cl, pop) == Color(MemberTotal(s.red, cl.labels, w) / n / 255.0,
                                               MemberTotal(s.green, cl.labels, w) / n / 255.0,
                                               MemberTotal(s.blue, cl.labels, w) / n / 255.0)
  {
    WinnerCentroid(s, k, cl, pop);
    RescaledMean(s, k, cl, pop);
  }

  /** The rescaled winning centroid, when that centroid is the mean of its
      whitened members, is the mean of the members over 255, channel by channel. */
  lemma RescaledMean(s: SampleSet, k: nat, cl: Clustering, pop: Channels)
    requires s.WellFormed() && |s.red| > 0 && Fits(cl, k, |s.red|)
    requires pop.red > 0.0 && pop.green > 0.0 && pop.blue > 0.0
    requires var w := DominantCluster(cl.labels);
      var n := MemberCount(cl.labels, w);
      && w < |cl.centroids|
      && n > 0.0
      && cl.centroids[w].red == MemberTotal(Whiten(s.red, pop.red), cl.labels, w) / n
      && cl.centroids[w].green == MemberTotal(Whiten(s.green, pop.green), cl.labels, w) / n
      && cl.centroids[w].blue == MemberTotal(Whiten(s.blue, pop.blue), cl.labels, w) / n
    ensures var w := DominantCluster(cl.labels);
      var n := MemberCount(cl.labels, w);
      && n > 0.0
      && DominantColor(s, k, cl, pop) == Color(MemberTotal(s.red, cl.labels, w) / n / 255.0,
                                               MemberTotal(s.green, cl.labels, w) / n / 255.0,
                                               MemberTotal(s.blue, cl.labels, w) / n / 255.0)
  {
    DominantChannels(s, k, cl, pop);
    var w := DominantCluster(cl.labels);
    MeanChannels(cl.centroids[w], s, cl.labels, w, MemberCount(cl.labels, w), pop);
  }

  /** `UndoWhiten` for all three channels at once. */
  lemma MeanChannels(center: Channels, s: SampleSet, labels: seq<nat>, w: nat, n: real, pop: Channels)
    requires s.WellFormed() && |s.red| == |labels|
    requires n > 0.0 && pop.red > 0.0 && pop.green > 0.0 && pop.blue > 0.0
    requires center.red == MemberTotal(Whiten(s.red, pop.red), labels, w) / n
    requires center.green == MemberTotal(Whiten(s.green, pop.green), labels, w) / n
    requires center.blue == MemberTotal(Whiten(s.blue, pop.blue), labels, w) / n
    ensures Rescale(center, pop)
         == Color(MemberTotal(s.red, labels, w) / n / 255.0,
                  MemberTotal(s.green, labels, w) / n / 255.0,
                  MemberTotal(s.blue, labels, w) / n / 255.0)
  {
    UndoWhiten(center.red, s.red, labels, w, n, pop.red);
    UndoWhiten(center.green, s.green, labels, w, n, pop.green);
    UndoWhiten(center.blue, s.blue, labels, w, n, pop.blue);
  }

  /** The winning centroid is the mean of the whitened samples of its cluster. */
  lemma WinnerCentroid(s: SampleSet, k: nat, cl: Clustering, pop: Channels)
    requires s.WellFormed() && |s.red| > 0 && Fits(cl, k, |s.red|)
    requires pop.red > 0.0 && pop.green > 0.0 && pop.blue > 0.0
    requires CentroidsAreMeans(WhitenSamples(s, pop), cl)
    ensures var w := DominantCluster(cl.labels);
      var n := MemberCount(cl.labels, w);
      && w < |cl.centroids|
      && n > 0.0
      && cl.centroids[w].red == MemberTotal(Whiten(s.red, pop.red), cl.labels, w) / n
      && cl.centroids[w].green == MemberTotal(Whiten(s.green, pop.green), cl.labels, w) / n
      && cl.centroids[w].blue == MemberTotal(Whiten(s.blue, pop.blue), cl.labels, w) / n
  {
    var w := DominantCluster(cl.labels);
    assert w in multiset(cl.labels);
    MemberCountIsOccurrences(cl.labels, w);
  }

  /** The mean of a cluster's whitened values, scaled back by the same
      deviation and divided by 255, is the mean of its values over 255. */
  lemma UndoWhiten(coord: real, xs: seq<real>, labels: seq<nat>, w: nat, n: real, sd: real)
    requires |xs| == |labels| && n > 0.0 && sd > 0.0
    requires coord == MemberTotal(Whiten(xs, sd), labels, w) / n
    ensures coord * sd / 255.0 == MemberTotal(xs, labels, w) / n / 255.0
  {
    MemberTotalWhiten(xs, labels, w, sd);
    ScaleBack(coord, MemberTotal(xs, labels, w), n, sd);
  }

  /** A mean of values divided by `sd`, multiplied back by `sd`. */
  lemma ScaleBack(coord: real, total: real, n: real, sd: real)
    requires n > 0.0 && sd > 0.0 && coord == total / sd / n
    ensures coord * sd / 255.0 == total / n / 255.0
  {
    var u := total / sd;
    assert u * sd == total;
    assert u / n * sd == u * sd / n;
  }

  /** Corrected: with the whitening deviations, samples in [0, 255] give a
      dominant colour with every channel in [0, 1]. */
  lemma WhiteningStdRescaleInRange(s: SampleSet, k: nat, cl: Clustering, pop: Channels)
    requires s.WellFormed() && |s.red| > 0 && Fits(cl, k, |s.red|)
    requires pop.red > 0.0 && pop.green > 0.0 && pop.blue > 0.0
    requires CentroidsAreMeans(WhitenSamples(s, pop), cl)
    requires forall i :: 0 <= i < |s.red| ==> 0.0 <= s.red[i] <= 255.0
    requires forall i :: 0 <= i < |s.green| ==> 0.0 <= s.green[i] <= 255.0
    requires forall i :: 0 <= i < |s.blue| ==> 0.0 <= s.blue[i] <= 255.0
    ensures var c := DominantColor(s, k, cl, pop);
      0.0 <= c.r <= 1.0 && 0.0 <= c.g <= 1.0 && 0.0 <= c.b <= 1.0
  {
    WhiteningStdRescaleIsClusterMean(s, k, cl, pop);
    var w := DominantCluster(cl.labels);
    var n := MemberCount(cl.labels, w);
    MemberTotalBounds(s.red, cl.labels, w);
    MemberTotalBounds(s.green, cl.labels, w);
    MemberTotalBounds(s.blue, cl.labels, w);
    MeanInRange(MemberTotal(s.red, cl.labels, w), n);
    MeanInRange(MemberTotal(s.green, cl.labels, w), n);
    MeanInRange(MemberTotal(s.blue, cl.labels, w), n);
  }

  lemma MeanInRange(total: real, n: real)
    requires n > 0.0 && 0.0 <= total <= 255.0 * n
    ensures 0.0 <= total / n / 255.0 <= 1.0
  {
    assert total / n <= 255.0;
  }
}

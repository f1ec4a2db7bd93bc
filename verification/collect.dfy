/**
 The sample collectors of `PokeData`: turn a decoded sprite (a grid of RGBA
 pixels) or a series of colours mixed with labels into three parallel lists
 of red, green and blue samples on the 0..255 scale.
 */
module Collect {
  import opened Colors
  import opened Filters

  /** Three parallel sample lists; index i across the three is one sample. */
  datatype SampleSet = SampleSet(red: seq<real>, green: seq<real>, blue: seq<real>) {
    predicate WellFormed() {
      |red| == |green| == |blue|
    }

    /** The three lists after one more `append` of a colour scaled by 255. */
    function Append(c: Color): SampleSet {
      SampleSet(red + [c.r * 255.0], green + [c.g * 255.0], blue + [c.b * 255.0])
    }
  }

  /** The reference meaning of a collector's output: one sample per colour,
      in order, each channel multiplied by 255. */
  function SamplesOf(cs: seq<Color>): (s: SampleSet)
    ensures s.WellFormed() && |s.red| == |cs|
  {
    SampleSet(seq(|cs|, i requires 0 <= i < |cs| => cs[i].r * 255.0),
              seq(|cs|, i requires 0 <= i < |cs| => cs[i].g * 255.0),
              seq(|cs|, i requires 0 <= i < |cs| => cs[i].b * 255.0))
  }

  lemma SamplesOfSnoc(cs: seq<Color>, c: Color)
    ensures SamplesOf(cs + [c]) == SamplesOf(cs).Append(c)
  {
    var lhs := SamplesOf(cs + [c]);
    var rhs := SamplesOf(cs).Append(c);
    assert lhs.red == rhs.red;
    assert lhs.green == rhs.green;
    assert lhs.blue == rhs.blue;
  }

  // ---------------------------------------------------------------- images

  type Image = seq<seq<Pixel>>

  /** The pixels of an image in row-major order: row 0 left to right, then row 1, ... */
  function Flatten(image: Image): seq<Pixel>
    decreases |image|
  {
    if |image| == 0 then [] else Flatten(image[..|image| - 1]) + image[|image| - 1]
  }

  /** The test of the image collector: a pixel counts unless its alpha is 0. */
  predicate Opaque(p: Pixel) {
    p.alpha != 0.0
  }

  /** The non-transparent pixels of `ps`, in order. */
  function Visible(ps: seq<Pixel>): seq<Pixel> {
    Keep(ps, Opaque)
  }

  function Paints(ps: seq<Pixel>): seq<Color> {
    seq(|ps|, i requires 0 <= i < |ps| => ps[i].Paint())
  }

  /** What the image collector is meant to produce: the scaled colours of the
      visible pixels, in row-major order. */
  function ImageSamples(image: Image): SampleSet {
    SamplesOf(Paints(Visible(Flatten(image))))
  }

  /** The image collector (the two nested loops of `get_from_image`): every
      pixel with alpha other than 0 contributes r*255, g*255 and b*255 to the
      three lists, in row-major order. */
  method CollectImage(image: Image) returns (s: SampleSet)
    ensures s == ImageSamples(image)
  {
    s := SampleSet([], [], []);
    var i := 0;
    while i < |image|
      invariant 0 <= i <= |image|
      invariant s == SamplesOf(Paints(Visible(Flatten(image[..i]))))
    {
      s := CollectRow(s, Flatten(image[..i]), image[i]);
      assert image[..i + 1][..i] == image[..i];
      assert Flatten(image[..i + 1]) == Flatten(image[..i]) + image[i];
      i := i + 1;
    }
    assert image[..i] == image;
  }

  /** The inner loop of the image collector: extends the lists gathered from
      the pixels `done` by those of one more row. */
  method CollectRow(s0: SampleSet, done: seq<Pixel>, row: seq<Pixel>) returns (s: SampleSet)
    requires s0 == SamplesOf(Paints(Visible(done)))
    ensures s == SamplesOf(Paints(Visible(done + row)))
  {
    s := s0;
    var j := 0;
    assert done + row[..j] == done;
    while j < |row|
      invariant 0 <= j <= |row|
      invariant s == SamplesOf(Paints(Visible(done + row[..j])))
    {
      var p := row[j];
      assert done + row[..j + 1] == (done + row[..j]) + [p];
      VisibleSnoc(done + row[..j], p);
      if Opaque(p) {
        s := s.Append(p.Paint());
      }
      j := j + 1;
    }
    assert row[..j] == row;
  }

  /** One more pixel adds one more sample exactly when it is not transparent. */
  lemma VisibleSnoc(ps: seq<Pixel>, p: Pixel)
    ensures SamplesOf(Paints(Visible(ps + [p]))) ==
      if Opaque(p) then SamplesOf(Paints(Visible(ps))).Append(p.Paint())
      else SamplesOf(Paints(Visible(ps)))
  {
    KeepSnoc(ps, p, Opaque);
    if Opaque(p) {
      assert Paints(Visible(ps) + [p]) == Paints(Visible(ps)) + [p.Paint()];
      SamplesOfSnoc(Paints(Visible(ps)), p.Paint());
    }
  }

  /** The collected lists have equal length, one entry per pixel whose alpha
      is not 0, and entry i is 255 times the channels of the i-th visible
      pixel in row-major order, which sits at a strictly later position than
      the pixel behind entry i - 1; no visible pixel is skipped. */
  lemma ImageSamplesShape(image: Image)
    ensures var s := ImageSamples(image);
      var px := Flatten(image);
      var at := KeptPositions(px, Opaque);
      && s.WellFormed()
      && |s.red| == |Hits(px, Opaque)|
      && |at| == |s.red|
      && (forall i :: 0 <= i < |at| ==>
            && Opaque(px[at[i]])
            && s.red[i] == px[at[i]].r * 255.0
            && s.green[i] == px[at[i]].g * 255.0
            && s.blue[i] == px[at[i]].b * 255.0)
      && (forall i, j :: 0 <= i < j < |at| ==> at[i] < at[j])
      && (forall j :: 0 <= j < |px| && Opaque(px[j]) ==> j in at)
  {
    KeepCount(Flatten(image), Opaque);
    KeptPositionsCover(Flatten(image), Opaque);
    KeptPositionsPick(Flatten(image), Opaque);
    KeptPositionsIncreasing(Flatten(image), Opaque);
  }

  /** The image with every transparent pixel deleted from its row. */
  function DropTransparent(image: Image): (clean: Image)
    ensures |clean| == |image|
    ensures forall i :: 0 <= i < |clean| ==> forall p :: p in clean[i] ==> p in image[i] && Opaque(p)
  {
    seq(|image|, i requires 0 <= i < |image| => Visible(image[i]))
  }

  /** Flattening the cleaned image gives exactly the visible pixels. */
  lemma {:induction false} FlattenDropTransparent(image: Image)
    ensures Flatten(DropTransparent(image)) == Visible(Flatten(image))
    decreases |image|
  {
    if |image| > 0 {
      var n := |image| - 1;
      assert DropTransparent(image)[..n] == DropTransparent(image[..n]);
      FlattenDropTransparent(image[..n]);
      KeepConcat(Flatten(image[..n]), image[n], Opaque);
    }
  }

  /** Transparent pixels contribute nothing: deleting all of them from the
      grid leaves the three collected lists identical. */
  lemma DropTransparentPreservesSamples(image: Image)
    ensures ImageSamples(DropTransparent(image)) == ImageSamples(image)
  {
    FlattenDropTransparent(image);
    KeepIdempotent(Flatten(image), Opaque);
  }

  // ---------------------------------------------------------------- series

  predicate IsLabel(e: Entry) {
    e.Label?
  }

  /** Everything in a series that is not a string label is a colour. */
  predicate NotLabel(e: Entry) {
    !IsLabel(e)
  }

  function ColorsOf(entries: seq<Entry>): seq<Color>
    requires forall i :: 0 <= i < |entries| ==> NotLabel(entries[i])
  {
    seq(|entries|, i requires 0 <= i < |entries| && NotLabel(entries[i]) => entries[i].color)
  }

  /** What the series collector is meant to produce: the scaled colours of the
      non-label entries, in input order. */
  function SeriesSamples(series: seq<Entry>): SampleSet {
    SamplesOf(ColorsOf(Keep(series, NotLabel)))
  }

  /** The series collector (the loop of `get_from_series`): every entry that is
      not a string contributes its r*255, g*255 and b*255. */
  method CollectSeries(series: seq<Entry>) returns (s: SampleSet)
    ensures s == SeriesSamples(series)
  {
    s := SampleSet([], [], []);
    var i := 0;
    while i < |series|
      invariant 0 <= i <= |series|
      invariant s == SeriesSamples(series[..i])
    {
      var e := series[i];
      assert series[..i + 1] == series[..i] + [e];
      SwatchSnoc(series[..i], e);
      if NotLabel(e) {
        s := s.Append(e.color);
      }
      i := i + 1;
    }
    assert series[..i] == series;
  }

  /** One more entry adds one more sample exactly when it is not a label. */
  lemma SwatchSnoc(es: seq<Entry>, e: Entry)
    ensures SeriesSamples(es + [e]) ==
      if IsLabel(e) then SeriesSamples(es) else SeriesSamples(es).Append(e.color)
  {
    KeepSnoc(es, e, NotLabel);
    if NotLabel(e) {
      var kept := Keep(es, NotLabel);
      assert ColorsOf(kept + [e]) == ColorsOf(kept) + [e.color];
      SamplesOfSnoc(ColorsOf(kept), e.color);
    }
  }

  /** The series collector skips exactly the labels: it yields one sample per
      non-label entry, samples plus labels account for every entry, and
      sample i is 255 times the colour at the i-th non-label position, and
      every non-label position is used. */
  lemma SeriesSamplesShape(series: seq<Entry>)
    ensures var s := SeriesSamples(series);
      var at := KeptPositions(series, NotLabel);
      && s.WellFormed()
      && |s.red| == |Hits(series, NotLabel)|
      && |s.red| + |Keep(series, IsLabel)| == |series|
      && |at| == |s.red|
      && (forall i :: 0 <= i < |at| ==>
            && NotLabel(series[at[i]])
            && s.red[i] == series[at[i]].color.r * 255.0
            && s.green[i] == series[at[i]].color.g * 255.0
            && s.blue[i] == series[at[i]].color.b * 255.0)
      && (forall i, j :: 0 <= i < j < |at| ==> at[i] < at[j])
      && (forall j :: 0 <= j < |series| && NotLabel(series[j]) ==> j in at)
  {
    KeepCount(series, NotLabel);
    KeptPositionsCover(series, NotLabel);
    KeepPartition(series, NotLabel, IsLabel);
    KeptPositionsPick(series, NotLabel);
    KeptPositionsIncreasing(series, NotLabel);
  }
}

# PokeData dominant colour, in Dafny

This project models the dominant-colour pipeline of `PokeData` in
`python_files/pokemon_data.py`.

The pipeline collects red, green and blue samples on the 0..255 scale from one of two inputs:

- a decoded sprite: a grid of RGBA pixels, with transparent pixels skipped;
- a series of colours mixed with string labels, with the labels skipped.

It whitens each channel and clusters the samples with `kmeans2` into K clusters. It takes the `np.bincount` of the cluster labels and picks the first cluster with the maximal count, so ties go to the lowest cluster id (`Histogram.FirstMax`, `Histogram.DominantCluster`). It rescales that cluster's whitened centroid by the channel standard deviations divided by 255. The result is returned as a `Color` whose `rgb` is `(r, g, b)`.

Modules:

- `Colors`: pixels, colours and series entries.
- `Filters`: the order-preserving filter shared by both collectors.
- `Collect`: the two collectors, as loops. Each is proved equal to a declarative reference.
- `Histogram`: `np.bincount` and the first-maximum winner.
- `Stats`: whitening, and the predicate `IsStd(xs, sd, ddof)`: `sd >= 0` and `sd * sd` is the sum of squared deviations divided by `n - ddof`. The entry points take the rescaling deviations as arbitrary reals; `IsStd` characterises them only in `RescaleDeviation`.
- `Estimator`: `get_dominant_color`, `get_from_image` and `get_from_series`.
- `RescaleDeviation`: the standard-deviation mismatch described under Findings.

The clustering is not computed. `kmeans2` is randomised floating-point library code, so its result enters as a `Clustering` value: the centroids in whitened space and one label per sample. The rescaling standard deviations are reals given as a separate parameter. The model uses reals, not floats.

## Model

| member | source | states |
|---|---|---|
| Colors.Color.Rgb | python_files/pokemon_data.py:9-14 | the `rgb` triple is (r, g, b) in that order: the colour is rebuilt from it exactly |
| Collect.CollectImage | python_files/pokemon_data.py:23-38 | the nested loops yield exactly the scaled colours of the pixels with alpha other than 0, in row-major order (`ImageSamples`) |
| Collect.ImageSamplesShape | python_files/pokemon_data.py:29-35 | the three lists have equal length, one entry per pixel with alpha other than 0; entry i is 255 times the channels of the i-th such pixel; those pixels rise strictly in row-major position and none is skipped |
| Collect.CollectRow | python_files/pokemon_data.py:30-35 | the inner loop over one row extends the lists gathered so far by exactly the scaled colours of that row's pixels with alpha other than 0 |
| Collect.DropTransparent | python_files/pokemon_data.py:31 | the cleaned grid has as many rows as the original, and each cleaned row holds only non-transparent pixels of the original row |
| Collect.DropTransparentPreservesSamples | python_files/pokemon_data.py:31 | deleting every transparent pixel from the grid leaves the three lists identical |
| Collect.CollectSeries | python_files/pokemon_data.py:41-55 | the loop yields exactly the scaled colours of the non-string entries, in input order (`SeriesSamples`) |
| Collect.SeriesSamplesShape | python_files/pokemon_data.py:47-52 | one sample per non-string entry; samples plus labels account for every entry; sample i is 255 times the colour at the i-th non-string position; positions rise strictly and none is skipped |
| Filters.KeepConcat | python_files/pokemon_data.py:29-35 | filtering rows one after another gives the filter of the whole row-major pixel list |
| Filters.KeepIdempotent | python_files/pokemon_data.py:31 | filtering out transparent pixels a second time removes nothing more |
| Filters.KeepCount | python_files/pokemon_data.py:31 | the number of kept elements equals the number of positions that pass the test |
| Filters.KeepPartition | python_files/pokemon_data.py:48 | the entries kept by a test and by its negation together number the whole input |
| Filters.KeptPositionsPick | python_files/pokemon_data.py:29-35 | the i-th kept element is the input element at the i-th recorded position |
| Filters.KeptPositionsIncreasing | python_files/pokemon_data.py:29-35 | the recorded positions rise strictly, so input order is kept |
| Filters.KeptPositionsCover | python_files/pokemon_data.py:31 | every passing position is recorded, so no passing element is dropped |
| Histogram.Span | python_files/pokemon_data.py:103 | the bincount length bounds every label, is 0 exactly for no labels, and otherwise is one more than a label that occurs |
| Histogram.BinCount | python_files/pokemon_data.py:100-103 | the bincount is one past the largest label long, and entry c is the number of samples labelled c |
| Histogram.TallySum | python_files/pokemon_data.py:103 | for labels below n, the n-entry histogram (the bincount when n is the span) adds up to the number of samples, so every sample is counted exactly once |
| Histogram.MaxOf | python_files/pokemon_data.py:103 | `counts.max()` occurs among the counts and bounds every count |
| Histogram.FirstIndexOf | python_files/pokemon_data.py:103 | `np.where(counts == v)[0][0]` holds v, and no earlier position holds v |
| Histogram.FirstMax | python_files/pokemon_data.py:103 | the selected index has the maximal count; every smaller index has a strictly smaller count, so ties go to the lowest index |
| Histogram.DominantCluster | python_files/pokemon_data.py:99-103 | the winner is a label some sample carries; no label is more frequent; every smaller label is strictly less frequent |
| Estimator.RescaleAll | python_files/pokemon_data.py:91-97 | `dominant_colors` has one colour per centroid, and the i-th colour is the i-th centroid rescaled |
| Estimator.RescaleInvertible | python_files/pokemon_data.py:92-97 | with no deviation 0, multiplying a rescaled centroid by 255 and dividing by the deviation gives the centroid back, channel by channel |
| Estimator.RescaleAllInvertible | python_files/pokemon_data.py:91-97 | with no deviation 0, every entry of `dominant_colors` gives back the centroid at the same position, so no centroid is lost or reordered |
| Estimator.DominantColor | python_files/pokemon_data.py:91-104 | with at least one sample and every label in [0, K), the winner is below K, so the lookup into the K rescaled centroids is in range; the returned colour's rgb is the winner's (red, green, blue) centroid coordinates, each times that channel's deviation / 255, in that order |
| Estimator.GetFromImage | python_files/pokemon_data.py:23-38 | `get_from_image` is the dominant colour of the collected visible-pixel samples |
| Estimator.GetFromSeries | python_files/pokemon_data.py:41-55 | `get_from_series` is the dominant colour of the collected non-string samples |
| Estimator.DropTransparentPreservesColor | python_files/pokemon_data.py:31-38 | a sprite and the same sprite without its transparent pixels collect the same samples (`Collect.DropTransparentPreservesSamples`); the equal dominant colour under the same clustering follows directly |
| Estimator.MemberTotalWhiten | python_files/pokemon_data.py:72-74 | a cluster's total of whitened values is its total of raw values divided by the deviation |
| Estimator.MemberCountIsOccurrences | python_files/pokemon_data.py:103 | the real-valued size of a cluster, the divisor of its mean, is that cluster's bincount entry |
| Estimator.MemberTotalBounds | python_files/pokemon_data.py:33-35 | a cluster's total of samples in [0, 255] lies between 0 and 255 times its population |
| Stats.Whiten | python_files/pokemon_data.py:72-74 | every whitened value times the deviation is the original value |
| Estimator.WhitenSamples | python_files/pokemon_data.py:72-74 | the points given to `kmeans2`: each column divided by its own deviation, in red/green/blue order, so every whitened entry times its channel's deviation is the original entry |
| Stats.PopulationStdBelowSampleStd | python_files/pokemon_data.py:86-88 | pop² · n = smp² · (n − 1); the population deviation is strictly below the sample one unless both are 0 |
| RescaleDeviation.SampleStdRescaleOvershoots | python_files/pokemon_data.py:86-97 | for the sprite of one row white, white, red, black, green, with K = 2 and an assumed clustering {white, white, red}, {black, green} whose centroids are the whitened cluster means: the red channel rescaled by the sample deviation is smp / pop, whose square is 5/4, so it exceeds 1; rescaled by the whitening deviation the colour is (1, 2/3, 2/3) |
| RescaleDeviation.SampleStdRed | python_files/pokemon_data.py:91-97 | two deviations whose squares are in the ratio 5/4 put the sprite's rescaled red channel at their ratio, above 1 |
| RescaleDeviation.WhiteningStdRescaleIsClusterMean | python_files/pokemon_data.py:91-104 | when the centroids are the means of the points whitened by pop, rescaling by pop yields the winning cluster's mean colour divided by 255 |
| RescaleDeviation.WhiteningStdRescaleInRange | python_files/pokemon_data.py:91-104 | in that case, samples in [0, 255] give a dominant colour with every channel in [0, 1] |

## Left out

- Image loading and plotting (`matplotlib`, lines 1-2): I/O and UI. An image enters as a grid of `Pixel` values.
- The pandas DataFrame (lines 67-69): container plumbing. It is modelled as three parallel sequences (`SampleSet`).
- `whiten` and `kmeans2` internals (lines 72-81): randomised floating-point library code. The clustering is a parameter. `Stats.Whiten` requires a positive deviation; the library's zero-variance behaviour is not modelled.
- Computing standard deviations (lines 86-88): square roots and float rounding. The entry points take the rescaling deviations as arbitrary given reals. `Stats.IsStd` characterises deviations only inside `RescaleDeviation`.
- Floating point: all arithmetic is on exact reals. Rounding, NaN and infinity are not modelled.
- `PokeData.__init__` (lines 19-20): it only stores K, which is modelled as the parameter `k`.
- Series entries that are neither `str` nor colour-like: in the source they fail with an attribute error. `Entry` has only the two modelled kinds.
- The stray `np.bincount(clusters)` at line 100: its result is discarded.
- Error results for empty input or an all-transparent sprite: the source checks neither, and the bincount of no labels has no maximum. The model requires at least one sample instead, and every label below K. K > N needs no precondition: neither the source nor the model rejects it, and clusters without members simply never win.
- A single collected sample: every column then has zero variance, so what happens first depends on the zero-variance path of `whiten` (lines 72-74) and on `kmeans2` (lines 79-81) starting from one point, both library code that is not modelled. If lines 86-88 are reached, the pandas `.std()` (ddof 1) of one value is NaN. The model admits one sample, and `Estimator.DominantColor` then returns the finite rescaled centroid for whatever deviations it is given.
- Integer-valued grids: the model takes every channel to be a fraction held as a float, which is what `matplotlib.image.imread` returns for PNG files. Other formats come back as integer arrays, typically uint8. Such a 4-channel grid passes line 30, and `temp_r * 255` at lines 33-35 then wraps modulo 256 (200 becomes 56). `Pixel` holds unbounded reals and multiplies exactly.
- Grids whose pixels are not RGBA: line 30 unpacks four values per pixel, so an RGB image (three channels) raises a ValueError and a greyscale image (scalar pixels) a TypeError. `Pixel` always has four channels.
- Whitening and rescaling use two different standard-deviation conventions in the source; see Findings.

## Findings

| source | as written | input that shows it | evidently intended | confidence | as-written member | corrected member |
|---|---|---|---|---|---|---|
| python_files/pokemon_data.py:86-88 | `whiten` (lines 72-74) divides by the population deviation (ddof 0). The rescale multiplies by the pandas `DataFrame.std()` sample deviation (ddof 1). Every rescaled centroid is therefore inflated by sqrt(n/(n-1)). | A sprite of one row of opaque pixels: white, white, red, black, green. Take K = 2 and assume `kmeans2` returns the clustering {white, white, red}, {black, green}, with each centroid the mean of its whitened members. The red channel of the dominant colour is sqrt(5/4) ≈ 1.118, outside [0, 1], although every member of the winning cluster has red exactly 1. | Rescale by the deviation used for whitening. The result is then the winning cluster's mean colour / 255, here (1, 2/3, 2/3), and in general in [0, 1]. | not executed | RescaleDeviation.SampleStdRescaleOvershoots | RescaleDeviation.WhiteningStdRescaleIsClusterMean |

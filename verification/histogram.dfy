/**
 Cluster population and winner selection of `get_dominant_color`:
 `np.bincount` over the cluster labels, then the first label whose count
 equals the maximum count (`np.where(counts == counts.max())[0][0]`).
 */
module Histogram {

  /** How many samples carry label `c`. */
  function Occurrences(labels: seq<nat>, c: nat): nat {
    multiset(labels)[c]
  }

  /** The length of `np.bincount(labels)`: one past the largest label, or 0
      when there are no labels. */
  function Span(labels: seq<nat>): (n: nat)
    ensures forall i :: 0 <= i < |labels| ==> labels[i] < n
    ensures |labels| == 0 <==> n == 0
    ensures n > 0 ==> n - 1 in labels
    decreases |labels|
  {
    if |labels| == 0 then 0
    else
      var init := labels[..|labels| - 1];
      var last := labels[|labels| - 1];
      assert labels == init + [last];
      var m := Span(init);
      if last + 1 > m then last + 1 else m
  }

  /** The declarative histogram: entry c is the number of samples labelled c. */
  function Tally(labels: seq<nat>, n: nat): seq<nat> {
    seq(n, c requires 0 <= c < n => Occurrences(labels, c))
  }

  function Sum(xs: seq<nat>): nat
    decreases |xs|
  {
    if |xs| == 0 then 0 else Sum(xs[..|xs| - 1]) + xs[|xs| - 1]
  }

  /** Bumping one entry by one bumps the total by one. */
  lemma {:induction false} SumBump(xs: seq<nat>, c: nat)
    requires c < |xs|
    ensures Sum(xs[c := xs[c] + 1]) == Sum(xs) + 1
    decreases |xs|
  {
    var n := |xs| - 1;
    var ys := xs[c := xs[c] + 1];
    assert ys[..n] == if c == n then xs[..n] else xs[..n][c := xs[c] + 1];
    if c < n {
      SumBump(xs[..n], c);
    }
  }

  /** Recording one more label `l` bumps exactly entry `l` of the histogram. */
  lemma TallySnoc(labels: seq<nat>, l: nat, n: nat)
    requires l < n
    ensures Tally(labels + [l], n) == Tally(labels, n)[l := Tally(labels, n)[l] + 1]
  {
    assert multiset(labels + [l]) == multiset(labels) + multiset{l};
  }

  /** Every label below `n` is counted once: the histogram's entries add up to
      the number of samples. */
  lemma {:induction false} TallySum(labels: seq<nat>, n: nat)
    requires forall i :: 0 <= i < |labels| ==> labels[i] < n
    ensures Sum(Tally(labels, n)) == |labels|
    decreases |labels|
  {
    if |labels| == 0 {
      ZerosSum(n);
      assert Tally(labels, n) == seq(n, c => 0);
    } else {
      var init := labels[..|labels| - 1];
      var last := labels[|labels| - 1];
      assert labels == init + [last];
      TallySum(init, n);
      TallySnoc(init, last, n);
      SumBump(Tally(init, n), last);
    }
  }

  lemma {:induction false} ZerosSum(n: nat)
    ensures Sum(seq(n, c => 0)) == 0
  {
    if n > 0 {
      assert seq(n, c => 0)[..n - 1] == seq(n - 1, c => 0);
      ZerosSum(n - 1);
    }
  }

  /** `np.bincount(labels)`: a list one past the largest label long whose
      entry c is the number of samples labelled c. That these entries add up
      to the number of samples is `TallySum`. */
  method BinCount(labels: seq<nat>) returns (counts: seq<nat>)
    ensures |counts| == Span(labels)
    ensures forall c :: 0 <= c < |counts| ==> counts[c] == Occurrences(labels, c)
  {
    var n := Span(labels);
    counts := seq(n, c => 0);
    var i := 0;
    assert counts == Tally(labels[..0], n);
    while i < |labels|
      invariant 0 <= i <= |labels|
      invariant counts == Tally(labels[..i], n)
    {
      var l := labels[i];
      assert labels[..i + 1] == labels[..i] + [l];
      TallySnoc(labels[..i], l, n);
      counts := counts[l := counts[l] + 1];
      i := i + 1;
    }
    assert labels[..i] == labels;
  }

  /** `counts.max()`: a count that occurs in `counts` and bounds all of them. */
  function MaxOf(counts: seq<nat>): (m: nat)
    requires |counts| > 0
    ensures m in counts
    ensures forall i :: 0 <= i < |counts| ==> counts[i] <= m
    decreases |counts|
  {
    if |counts| == 1 then counts[0]
    else
      var rest := MaxOf(counts[1..]);
      assert forall i :: 1 <= i < |counts| ==> counts[i] == counts[1..][i - 1];
      if counts[0] >= rest then counts[0] else rest
  }

  /** `np.where(counts == v)[0][0]`: the first position holding `v`. */
  function FirstIndexOf(counts: seq<nat>, v: nat): (k: nat)
    requires v in counts
    ensures k < |counts| && counts[k] == v
    ensures forall j :: 0 <= j < k ==> counts[j] != v
    decreases |counts|
  {
    if counts[0] == v then 0
    else
      assert v in counts[1..];
      1 + FirstIndexOf(counts[1..], v)
  }

  /** The winner of `np.where(counts == counts.max())[0][0]`: a position with
      the maximal count, and no earlier position reaches that count, so ties
      go to the lowest label. */
  function FirstMax(counts: seq<nat>): (w: nat)
    requires |counts| > 0
    ensures w < |counts|
    ensures forall j :: 0 <= j < |counts| ==> counts[j] <= counts[w]
    ensures forall j :: 0 <= j < w ==> counts[j] < counts[w]
  {
    FirstIndexOf(counts, MaxOf(counts))
  }

  /** The two properties of `FirstMax` pin the winner down: any position with
      them is the one `FirstMax` picks. */
  lemma FirstMaxUnique(counts: seq<nat>, w: nat)
    requires w < |counts|
    requires forall j :: 0 <= j < |counts| ==> counts[j] <= counts[w]
    requires forall j :: 0 <= j < w ==> counts[j] < counts[w]
    ensures w == FirstMax(counts)
  {
  }

  /** Label `w` is the first mode of `labels`: no label is more frequent, and
      every smaller label is strictly less frequent. */
  ghost predicate IsFirstMode(labels: seq<nat>, w: nat) {
    && (forall c: nat :: Occurrences(labels, c) <= Occurrences(labels, w))
    && (forall c: nat :: c < w ==> Occurrences(labels, c) < Occurrences(labels, w))
  }

  /** The most populous cluster, ties to the lowest label: first maximum of
      the bincount. It is a label some sample carries. */
  function DominantCluster(labels: seq<nat>): (w: nat)
    requires |labels| > 0
    ensures w in labels
    ensures IsFirstMode(labels, w)
  {
    var counts := Tally(labels, Span(labels));
    var w := FirstMax(counts);
    assert Occurrences(labels, labels[0]) > 0;
    assert counts[labels[0]] <= counts[w];
    assert w in multiset(labels);
    assert counts[w] == Occurrences(labels, w);
    forall c: nat
      ensures Occurrences(labels, c) <= Occurrences(labels, w)
    {
      if c >= |counts| {
        assert c !in labels;
      } else {
        assert counts[c] <= counts[w];
      }
    }
    forall c: nat | c < w
      ensures Occurrences(labels, c) < Occurrences(labels, w)
    {
      assert counts[c] < counts[w];
    }
    w
  }
}

/**
 Order-preserving filtering of a sequence, the shape shared by both sample
 collectors: walk the input front to back and append every element that
 passes a test. `Keep` is defined by peeling off the LAST element, so one step
 of the definition is one `append` of the collector's loop.
 */
module Filters {

  /** The elements of `xs` that satisfy `f`, in their original order. */
  function Keep<T>(xs: seq<T>, f: T -> bool): (r: seq<T>)
    ensures |r| <= |xs|
    ensures forall i :: 0 <= i < |r| ==> f(r[i])
    ensures forall x :: x in xs && f(x) ==> x in r
    ensures forall x :: x in r ==> x in xs
    decreases |xs|
  {
    if |xs| == 0 then []
    else
      var kept := Keep(xs[..|xs| - 1], f);
      assert xs == xs[..|xs| - 1] + [xs[|xs| - 1]];
      if f(xs[|xs| - 1]) then kept + [xs[|xs| - 1]] else kept
  }

  /** The positions of `xs` whose element satisfies `f`. */
  function Hits<T>(xs: seq<T>, f: T -> bool): set<nat> {
    set j: nat | j < |xs| && f(xs[j])
  }

  /** Appending one element extends `Keep` by that element exactly when it passes. */
  lemma KeepSnoc<T>(xs: seq<T>, x: T, f: T -> bool)
    ensures Keep(xs + [x], f) == if f(x) then Keep(xs, f) + [x] else Keep(xs, f)
  {
    assert (xs + [x])[..|xs|] == xs;
  }

  /** Filtering distributes over concatenation: the kept elements of `a`
      come first, in order, followed by those of `b`. */
  lemma {:induction false} KeepConcat<T>(a: seq<T>, b: seq<T>, f: T -> bool)
    ensures Keep(a + b, f) == Keep(a, f) + Keep(b, f)
    decreases |b|
  {
    if |b| == 0 {
      assert a + b == a;
    } else {
      var init := b[..|b| - 1];
      var last := b[|b| - 1];
      assert b == init + [last];
      assert a + b == (a + init) + [last];
      KeepConcat(a, init, f);
      KeepSnoc(a + init, last, f);
      KeepSnoc(init, last, f);
    }
  }

  /** Filtering twice with the same test changes nothing more. */
  lemma {:induction false} KeepIdempotent<T>(xs: seq<T>, f: T -> bool)
    ensures Keep(Keep(xs, f), f) == Keep(xs, f)
    decreases |xs|
  {
    if |xs| > 0 {
      var init := xs[..|xs| - 1];
      var last := xs[|xs| - 1];
      assert xs == init + [last];
      KeepSnoc(init, last, f);
      KeepIdempotent(init, f);
      if f(last) {
        KeepSnoc(Keep(init, f), last, f);
      }
    }
  }

  /** A test that every element passes keeps the whole input. */
  lemma {:induction false} KeepAll<T>(xs: seq<T>, f: T -> bool)
    requires forall i :: 0 <= i < |xs| ==> f(xs[i])
    ensures Keep(xs, f) == xs
    decreases |xs|
  {
    if |xs| > 0 {
      var n := |xs| - 1;
      assert xs == xs[..n] + [xs[n]];
      KeepSnoc(xs[..n], xs[n], f);
      KeepAll(xs[..n], f);
    }
  }

  /** The number of kept elements is the number of positions that pass. */
  lemma {:induction false} KeepCount<T>(xs: seq<T>, f: T -> bool)
    ensures |Keep(xs, f)| == |Hits(xs, f)|
    decreases |xs|
  {
    if |xs| == 0 {
      assert Hits(xs, f) == {};
    } else {
      var n := |xs| - 1;
      var init := xs[..n];
      assert xs == init + [xs[n]];
      KeepSnoc(init, xs[n], f);
      KeepCount(init, f);
      HitsSnoc(init, xs[n], f);
    }
  }

  /** Appending one element adds its position to the hits exactly when it passes. */
  lemma HitsSnoc<T>(xs: seq<T>, x: T, f: T -> bool)
    ensures |Hits(xs + [x], f)| == |Hits(xs, f)| + (if f(x) then 1 else 0)
  {
    var n := |xs|;
    assert n !in Hits(xs, f);
    HitsSnocSet(xs, x, f);
  }

  lemma HitsSnocSet<T>(xs: seq<T>, x: T, f: T -> bool)
    ensures Hits(xs + [x], f) == Hits(xs, f) + (if f(x) then {|xs|} else {})
  {
    var ys := xs + [x];
    forall j: nat | j < |xs|
      ensures ys[j] == xs[j]
    {
    }
  }

  /** A test and its complement split the input: every element is kept by
      exactly one of the two filters. */
  lemma {:induction false} KeepPartition<T>(xs: seq<T>, f: T -> bool, g: T -> bool)
    requires forall x :: g(x) == !f(x)
    ensures |Keep(xs, f)| + |Keep(xs, g)| == |xs|
    decreases |xs|
  {
    if |xs| > 0 {
      var init := xs[..|xs| - 1];
      var last := xs[|xs| - 1];
      assert xs == init + [last];
      KeepSnoc(init, last, f);
      KeepSnoc(init, last, g);
      KeepPartition(init, f, g);
    }
  }

  /** Where each kept element came from: the positions of `xs` that pass,
      one per kept element. */
  function KeptPositions<T>(xs: seq<T>, f: T -> bool): (idx: seq<nat>)
    ensures |idx| == |Keep(xs, f)|
    ensures forall i :: 0 <= i < |idx| ==> idx[i] < |xs|
    decreases |xs|
  {
    if |xs| == 0 then []
    else
      var n := |xs| - 1;
      assert xs == xs[..n] + [xs[n]];
      KeepSnoc(xs[..n], xs[n], f);
      var prior := KeptPositions(xs[..n], f);
      if f(xs[n]) then prior + [n] else prior
  }

  /** Kept element i is the element of `xs` at position i of `KeptPositions`. */
  lemma {:induction false} KeptPositionsPick<T>(xs: seq<T>, f: T -> bool)
    ensures var idx := KeptPositions(xs, f);
      forall i :: 0 <= i < |idx| ==> xs[idx[i]] == Keep(xs, f)[i]
    decreases |xs|
  {
    if |xs| > 0 {
      var n := |xs| - 1;
      var init := xs[..n];
      assert xs == init + [xs[n]];
      KeepSnoc(init, xs[n], f);
      KeptPositionsPick(init, f);
      var prior := KeptPositions(init, f);
      var idx := KeptPositions(xs, f);
      forall i | 0 <= i < |idx|
        ensures xs[idx[i]] == Keep(xs, f)[i]
      {
        if i < |prior| {
          assert idx[i] == prior[i];
          assert Keep(xs, f)[i] == Keep(init, f)[i];
          assert xs[prior[i]] == init[prior[i]];
        }
      }
    }
  }

  predicate Increasing(idx: seq<nat>) {
    forall i, j :: 0 <= i < j < |idx| ==> idx[i] < idx[j]
  }

  /** The positions rise strictly: the filter preserves order. */
  lemma {:induction false} KeptPositionsIncreasing<T>(xs: seq<T>, f: T -> bool)
    ensures Increasing(KeptPositions(xs, f))
    decreases |xs|
  {
    if |xs| > 0 {
      var n := |xs| - 1;
      var prior := KeptPositions(xs[..n], f);
      var idx := KeptPositions(xs, f);
      assert idx == if f(xs[n]) then prior + [n] else prior;
      KeptPositionsIncreasing(xs[..n], f);
      assert Increasing(prior);
      forall i, j | 0 <= i < j < |idx|
        ensures idx[i] < idx[j]
      {
        assert idx[i] == prior[i];
        if j < |prior| {
          assert idx[j] == prior[j];
          assert prior[i] < prior[j];
        } else {
          assert |xs[..n]| == n;
          assert prior[i] < n;
          assert idx[j] == n;
        }
      }
    }
  }

  /** Every passing position is among the kept positions: nothing is dropped. */
  lemma {:induction false} KeptPositionsCover<T>(xs: seq<T>, f: T -> bool)
    ensures forall j :: 0 <= j < |xs| && f(xs[j]) ==> j in KeptPositions(xs, f)
  {
    forall j | 0 <= j < |xs| && f(xs[j])
      ensures j in KeptPositions(xs, f)
    {
      KeptPosition(xs, f, j);
    }
  }

  /** One passing position is recorded. */
  lemma {:induction false} KeptPosition<T>(xs: seq<T>, f: T -> bool, j: nat)
    requires j < |xs| && f(xs[j])
    ensures j in KeptPositions(xs, f)
    decreases |xs|, 1
  {
    var n := |xs| - 1;
    KeptPositionsExtend(xs, f);
    if j < n {
      KeptPositionPrefix(xs, f, j);
    }
  }

  /** A passing position before the last is recorded for the prefix. */
  lemma {:induction false} KeptPositionPrefix<T>(xs: seq<T>, f: T -> bool, j: nat)
    requires j < |xs| - 1 && f(xs[j])
    ensures j in KeptPositions(xs[..|xs| - 1], f)
    decreases |xs|, 0
  {
    var init := xs[..|xs| - 1];
    assert init[j] == xs[j];
    KeptPosition(init, f, j);
  }

  /** One more element extends the positions by its own exactly when it passes. */
  lemma KeptPositionsExtend<T>(xs: seq<T>, f: T -> bool)
    requires |xs| > 0
    ensures var n := |xs| - 1;
      KeptPositions(xs, f) == if f(xs[n]) then KeptPositions(xs[..n], f) + [n] else KeptPositions(xs[..n], f)
  {
  }
}

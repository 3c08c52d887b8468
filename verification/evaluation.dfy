/**
 * The evaluation of the network on a data set: the samples are forwarded in
 * batches, and a sample counts as correctly classified when the index of the
 * largest output of the network matches the index of the largest expected
 * output. The tensor contents are not modelled, so each sample is known here
 * by these two indexes (its predicted and its expected class); the cost is a
 * floating-point sum and is not modelled.
 */
module Evaluation {
  import opened Layers
  import opened Network
  import opened Tensors
  import opened Passes

  /** The number of samples whose predicted class is the expected one. */
  function Agreements(predicted: seq<nat>, expected: seq<nat>): (n: nat)
    requires |predicted| == |expected|
    ensures n <= |predicted|
    ensures n == |predicted| <==> predicted == expected
    ensures n == 0 <==> forall k :: 0 <= k < |predicted| ==> predicted[k] != expected[k]
    decreases |predicted|
  {
    if |predicted| == 0 then 0
    else
      var m := |predicted| - 1;
      var n := Agreements(predicted[..m], expected[..m]);
      assert n == m <==> predicted[..m] == expected[..m];
      assert predicted == expected <==> predicted[..m] == expected[..m] && predicted[m] == expected[m] by {
        assert predicted == predicted[..m] + [predicted[m]];
        assert expected == expected[..m] + [expected[m]];
      }
      assert (forall k :: 0 <= k < |predicted| ==> predicted[k] != expected[k]) <==>
             (forall k :: 0 <= k < m ==> predicted[..m][k] != expected[..m][k]) && predicted[m] != expected[m];
      n + (if predicted[m] == expected[m] then 1 else 0)
  }

  /** Counting is additive over consecutive runs of samples: counting batch by
      batch gives the count over the whole set. */
  lemma {:induction false} AgreementsAppend(p1: seq<nat>, e1: seq<nat>, p2: seq<nat>, e2: seq<nat>)
    requires |p1| == |e1| && |p2| == |e2|
    ensures Agreements(p1 + p2, e1 + e2) == Agreements(p1, e1) + Agreements(p2, e2)
    decreases |p2|
  {
    if |p2| > 0 {
      var m := |p2| - 1;
      assert (p1 + p2)[..|p1| + m] == p1 + p2[..m];
      assert (e1 + e2)[..|e1| + m] == e1 + e2[..m];
      AgreementsAppend(p1, e1, p2[..m], e2[..m]);
    } else {
      assert p1 + p2 == p1 && e1 + e2 == e1;
    }
  }

  /** The count up to hi is the count up to lo plus the count from lo to hi. */
  lemma AgreementsPrefix(predicted: seq<nat>, expected: seq<nat>, lo: nat, hi: nat)
    requires |predicted| == |expected| && lo <= hi <= |predicted|
    ensures Agreements(predicted[..hi], expected[..hi])
         == Agreements(predicted[..lo], expected[..lo]) + Agreements(predicted[lo..hi], expected[lo..hi])
  {
    var p1, p2, e1, e2 := predicted[..lo], predicted[lo..hi], expected[..lo], expected[lo..hi];
    assert predicted[..hi] == p1 + p2;
    assert expected[..hi] == e1 + e2;
    AgreementsAppend(p1, e1, p2, e2);
  }

  /** Every class index is the index of one of width outputs. */
  predicate Classes(s: seq<nat>, width: nat) {
    forall k :: 0 <= k < |s| ==> s[k] < width
  }

  /** The counting kernel over the rows of one batch (a parallel loop in which
      every match increments a shared counter; here the rows are visited in
      order). */
  method CountClassified(predicted: seq<nat>, expected: seq<nat>) returns (total: nat)
    requires |predicted| == |expected|
    ensures total == Agreements(predicted, expected)
  {
    total := 0;
    var i := 0;
    while i < |predicted|
      invariant 0 <= i <= |predicted|
      invariant total == Agreements(predicted[..i], expected[..i])
    {
      assert predicted[..i + 1][..i] == predicted[..i] && expected[..i + 1][..i] == expected[..i];
      if predicted[i] == expected[i] {
        total := total + 1;
      }
      i := i + 1;
    }
    assert predicted[..i] == predicted && expected[..i] == expected;
  }

  /** One evaluation batch: the inputs x are forwarded through the network, the
      rows are counted against the expected outputs y, and the network output
      is released. Every tensor the batch allocates is released again. */
  method EvaluateBatch(mem: Memory, layers: seq<Layer>, x: Handle, y: Handle, predicted: seq<nat>, expected: seq<nat>)
    returns (classified: nat)
    requires mem.Valid() && ValidChain(layers)
    requires mem.Readable(x) && mem.shapes[x].length == layers[0].inputs
    requires mem.Readable(y) && mem.shapes[y] == Shape(mem.shapes[x].entities, layers[|layers| - 1].outputs)
    requires |predicted| == |expected| == mem.shapes[x].entities
    requires Classes(predicted, layers[|layers| - 1].outputs) && Classes(expected, layers[|layers| - 1].outputs)
    modifies mem
    ensures mem.Valid()
    ensures classified == Agreements(predicted, expected) && classified <= |predicted|
    ensures mem.live == old(mem.live) && mem.views == old(mem.views) && old(mem.next) <= mem.next
    ensures ShapesKept(old(mem.shapes), mem.shapes, old(mem.next))
    ensures |mem.freed| >= |old(mem.freed)| && mem.freed[..|old(mem.freed)|] == old(mem.freed)
    ensures forall h :: h in mem.freed[|old(mem.freed)|..] <==> old(mem.next) <= h < mem.next
  {
    ghost var f0 := mem.freed;
    var yHat, zs, acts, frees := Forward(mem, layers, x);
    classified := CountClassified(predicted, expected);
    mem.Free(yHat);
    assert mem.freed == f0 + (frees + [yHat]);
    assert mem.freed[|f0|..] == frees + [yHat];
  }

  /** A run of consecutive samples: the first index and the number of samples. */
  datatype Span = Span(start: nat, count: nat)

  /** The first n full batches of the given size. */
  function FullSpans(n: nat, size: nat): (r: seq<Span>)
    ensures |r| == n
    ensures forall k :: 0 <= k < n ==> r[k] == Span(k * size, size)
  {
    if n == 0 then [] else FullSpans(n - 1, size) + [Span((n - 1) * size, size)]
  }

  /** The spans a set of h samples is cut into: h / size full batches, then
      the remaining h % size samples, if any. */
  function Spans(h: nat, size: nat): seq<Span>
    requires size > 0
  {
    FullSpans(h / size, size) + (if h % size > 0 then [Span(h / size * size, h % size)] else [])
  }

  lemma MulStep(k: nat, size: nat)
    ensures (k + 1) * size == k * size + size
  {
  }

  /** Full batch i of n batches lies inside the first n batches. */
  lemma BatchFits(n: nat, size: nat, i: nat)
    requires i < n
    ensures i * size + size <= n * size
  {
    MulStep(i, size);
    var d := n - (i + 1);
    assert n * size == (i + 1) * size + d * size;
  }

  /** The full batches and the remainder make up the set. */
  lemma DivSplit(h: nat, size: nat)
    requires size > 0
    ensures h / size * size + h % size == h
  {
  }

  /** Each full batch starts where the one before it ends, and the last one
      ends at n * size. */
  lemma FullSpansChain(n: nat, size: nat)
    ensures var f := FullSpans(n, size);
      && (forall k :: 0 <= k < n - 1 ==> f[k + 1].start == f[k].start + size)
      && (n > 0 ==> f[n - 1].start + size == n * size)
  {
    forall k | 0 <= k < n - 1
      ensures FullSpans(n, size)[k + 1].start == FullSpans(n, size)[k].start + size
    {
      MulStep(k, size);
    }
    if n > 0 {
      MulStep(n - 1, size);
    }
  }

  /** The spans for n full batches and a remainder r shorter than a batch
      follow each other, all holding size samples but a shorter last one. */
  lemma TileSteps(n: nat, r: nat, size: nat)
    requires 0 < size && r < size
    ensures var s := FullSpans(n, size) + (if r > 0 then [Span(n * size, r)] else []);
      && (forall k :: 0 <= k < |s| - 1 ==> s[k + 1].start == s[k].start + s[k].count && s[k].count == size)
      && (forall k :: 0 <= k < |s| ==> 0 < s[k].count <= size)
  {
    var f := FullSpans(n, size);
    var s := f + (if r > 0 then [Span(n * size, r)] else []);
    FullSpansChain(n, size);
    forall k | 0 <= k < |s| - 1
      ensures s[k + 1].start == s[k].start + s[k].count && s[k].count == size
    {
      if k < n - 1 {
        assert s[k] == f[k] && s[k + 1] == f[k + 1];
      } else {
        assert s[k] == f[n - 1];
      }
    }
  }

  /** The same spans start at 0 and end at n * size + r. */
  lemma TileEnds(n: nat, r: nat, size: nat)
    requires 0 < size && r < size
    ensures var s := FullSpans(n, size) + (if r > 0 then [Span(n * size, r)] else []);
      && |s| == n + (if r > 0 then 1 else 0)
      && (|s| > 0 ==> s[0].start == 0)
      && (if |s| == 0 then n * size + r == 0 else s[|s| - 1].start + s[|s| - 1].count == n * size + r)
  {
    FullSpansChain(n, size);
  }

  /** The spans tile the samples: they follow each other without gap or
      overlap from the first sample to the last, all hold size samples except
      a shorter last one, and there are h / size of them plus one for a
      remainder. */
  lemma SpansTile(h: nat, size: nat)
    requires size > 0
    ensures var s := Spans(h, size);
      && |s| == h / size + (if h % size > 0 then 1 else 0)
      && (|s| > 0 ==> s[0].start == 0)
      && (forall k :: 0 <= k < |s| - 1 ==> s[k + 1].start == s[k].start + s[k].count && s[k].count == size)
      && (forall k :: 0 <= k < |s| ==> 0 < s[k].count <= size)
      && (if |s| == 0 then h == 0 else s[|s| - 1].start + s[|s| - 1].count == h)
  {
    DivSplit(h, size);
    TileSteps(h / size, h % size, size);
    TileEnds(h / size, h % size, size);
  }

  /** The accuracy as a percentage; with no samples the source divides zero by
      zero, which in floating point is not a number. */
  datatype Accuracy = NotANumber | Percent(value: real)

  function AccuracyOf(classified: nat, samples: nat): (a: Accuracy)
    ensures a.NotANumber? <==> samples == 0
    ensures a.Percent? && classified <= samples ==> 0.0 <= a.value <= 100.0
    ensures a.Percent? && classified == samples ==> a.value == 100.0
  {
    if samples == 0 then NotANumber
    else Percent(classified as real / samples as real * 100.0)
  }

  /** The evaluation of one span of a data set: the span is fixed as a pair of
      views over the caller's arrays (never released) and evaluated. The
      count over the samples up to the end of the span grows by its count. */
  method EvaluateSpan(mem: Memory, layers: seq<Layer>, s: Span, wx: nat, wy: nat, predicted: seq<nat>, expected: seq<nat>)
    returns (c: nat)
    requires mem.Valid() && ValidChain(layers)
    requires wx == layers[0].inputs && wy == layers[|layers| - 1].outputs
    requires |predicted| == |expected| && s.start + s.count <= |predicted|
    requires Classes(predicted, wy) && Classes(expected, wy)
    modifies mem
    ensures mem.Valid() && mem.live == old(mem.live) && old(mem.views) <= mem.views
    ensures Agreements(predicted[..s.start + s.count], expected[..s.start + s.count])
         == Agreements(predicted[..s.start], expected[..s.start]) + c
  {
    var lo, hi := s.start, s.start + s.count;
    var xSpan := mem.Fix(Shape(s.count, wx));
    var ySpan := mem.Fix(Shape(s.count, wy));
    c := EvaluateBatch(mem, layers, xSpan, ySpan, predicted[lo..hi], expected[lo..hi]);
    AgreementsPrefix(predicted, expected, lo, hi);
  }

  /** The n full batches at the head of a data set. */
  method EvaluateFullBatches(mem: Memory, layers: seq<Layer>, n: nat, size: nat, wx: nat, wy: nat,
                             predicted: seq<nat>, expected: seq<nat>)
    returns (classified: nat, ghost visited: seq<Span>)
    requires mem.Valid() && ValidChain(layers)
    requires wx == layers[0].inputs && wy == layers[|layers| - 1].outputs
    requires |predicted| == |expected| && n * size <= |predicted|
    requires Classes(predicted, wy) && Classes(expected, wy)
    modifies mem
    ensures mem.Valid() && mem.live == old(mem.live) && old(mem.views) <= mem.views
    ensures classified == Agreements(predicted[..n * size], expected[..n * size])
    ensures visited == FullSpans(n, size)
  {
    classified := 0;
    visited := [];
    var i := 0;
    while i < n
      invariant 0 <= i <= n && i * size <= n * size
      invariant mem.Valid() && mem.live == old(mem.live) && old(mem.views) <= mem.views
      invariant classified == Agreements(predicted[..i * size], expected[..i * size])
      invariant visited == FullSpans(i, size)
    {
      BatchFits(n, size, i);
      MulStep(i, size);
      var c := EvaluateSpan(mem, layers, Span(i * size, size), wx, wy, predicted, expected);
      classified := classified + c;
      visited := visited + [Span(i * size, size)];
      i := i + 1;
    }
  }

  /** The evaluation of a data set of h samples of widths wx and wy, in
      batches of the given size: the full batches, then the remainder. The
      count is the count over the whole set, and the spans visited are
      exactly Spans(h, size). */
  method EvaluateSet(mem: Memory, layers: seq<Layer>, h: nat, wx: nat, wy: nat, size: nat,
                     predicted: seq<nat>, expected: seq<nat>)
    returns (classified: nat, accuracy: Accuracy, ghost visited: seq<Span>)
    requires mem.Valid() && ValidChain(layers) && size > 0
    requires wx == layers[0].inputs && wy == layers[|layers| - 1].outputs
    requires |predicted| == |expected| == h
    requires Classes(predicted, wy) && Classes(expected, wy)
    modifies mem
    ensures mem.Valid()
    ensures classified == Agreements(predicted, expected) && classified <= h
    ensures accuracy == AccuracyOf(classified, h)
    ensures visited == Spans(h, size)
    ensures mem.live == old(mem.live) && old(mem.views) <= mem.views
  {
    var batches, batchMod := h / size, h % size;
    DivSplit(h, size);
    classified, visited := EvaluateFullBatches(mem, layers, batches, size, wx, wy, predicted, expected);
    if batchMod > 0 {
      var c := EvaluateSpan(mem, layers, Span(batches * size, batchMod), wx, wy, predicted, expected);
      classified := classified + c;
      visited := visited + [Span(batches * size, batchMod)];
    }
    assert predicted[..h] == predicted && expected[..h] == expected;
    accuracy := AccuracyOf(classified, h);
  }

  /** A training batch as the evaluation sees it: its number of samples, the
      widths of its inputs and outputs, and the classes of its samples. */
  datatype TrainingBatch = TrainingBatch(entities: nat, xWidth: nat, yWidth: nat, predicted: seq<nat>, expected: seq<nat>)

  /** The batch has the widths of the network's input and output. */
  predicate Matches(layers: seq<Layer>, b: TrainingBatch)
    requires |layers| > 0
  {
    b.xWidth == layers[0].inputs && b.yWidth == layers[|layers| - 1].outputs
  }

  /** The samples of a collection of batches. */
  function Samples(batches: seq<TrainingBatch>): nat {
    if |batches| == 0 then 0 else Samples(batches[..|batches| - 1]) + batches[|batches| - 1].entities
  }

  /** Every sample of the batch has a predicted and an expected class, each
      the index of one of the batch's outputs. */
  predicate Labelled(b: TrainingBatch) {
    && |b.predicted| == |b.expected| == b.entities
    && Classes(b.predicted, b.yWidth) && Classes(b.expected, b.yWidth)
  }

  /** The correctly classified samples of a collection of batches. */
  function Classified(batches: seq<TrainingBatch>): (n: nat)
    requires forall k :: 0 <= k < |batches| ==> Labelled(batches[k])
    ensures n <= Samples(batches)
  {
    if |batches| == 0 then 0
    else
      var m := |batches| - 1;
      assert Labelled(batches[m]);
      Classified(batches[..m]) + Agreements(batches[m].predicted, batches[m].expected)
  }

  /** The evaluation of the training batches themselves, batch by batch. */
  method EvaluateBatches(mem: Memory, layers: seq<Layer>, batches: seq<TrainingBatch>)
    returns (classified: nat, accuracy: Accuracy)
    requires mem.Valid() && ValidChain(layers)
    requires forall k :: 0 <= k < |batches| ==> Labelled(batches[k]) && Matches(layers, batches[k])
    modifies mem
    ensures mem.Valid()
    ensures classified == Classified(batches) && classified <= Samples(batches)
    ensures accuracy == AccuracyOf(classified, Samples(batches))
    ensures mem.live == old(mem.live) && old(mem.views) <= mem.views
  {
    classified := 0;
    var i := 0;
    while i < |batches|
      invariant 0 <= i <= |batches|
      invariant mem.Valid() && mem.live == old(mem.live) && old(mem.views) <= mem.views
      invariant classified == Classified(batches[..i])
    {
      var b := batches[i];
      var xSpan := mem.Fix(Shape(b.entities, b.xWidth));
      var ySpan := mem.Fix(Shape(b.entities, b.yWidth));
      var c := EvaluateBatch(mem, layers, xSpan, ySpan, b.predicted, b.expected);
      assert batches[..i + 1][..i] == batches[..i];
      classified := classified + c;
      i := i + 1;
    }
    assert batches[..i] == batches;
    accuracy := AccuracyOf(classified, Samples(batches));
  }
}

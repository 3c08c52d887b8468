/**
 * The two weight updaters the network trains with. Both receive, for one
 * weighted layer, the weight and bias gradients of a batch and change the
 * layer's weights and biases in place, element by element. Parameters and
 * gradients are modelled as reals (the source uses single-precision floats).
 */
module Optimizers {
  import opened Layers
  import opened Network

  /** One descent step for one parameter: the parameter minus its own decay
      and the scaled gradient. */
  function DescendOne(v: real, g: real, alpha: real, decay: real): real {
    v - (decay * v + alpha * g)
  }

  /** A descent step over a whole vector of parameters. */
  function Descend(v: seq<real>, g: seq<real>, alpha: real, decay: real): (r: seq<real>)
    requires |v| == |g|
    ensures |r| == |v|
    ensures forall x :: 0 <= x < |r| ==> r[x] == DescendOne(v[x], g[x], alpha, decay)
  {
    seq(|v|, x requires 0 <= x < |v| => DescendOne(v[x], g[x], alpha, decay))
  }

  /** The descent is elementwise: descending two parts is descending the whole,
      so the parameters may be updated in any order or in parallel. */
  lemma DescendSplit(v1: seq<real>, g1: seq<real>, v2: seq<real>, g2: seq<real>, alpha: real, decay: real)
    requires |v1| == |g1| && |v2| == |g2|
    ensures Descend(v1 + v2, g1 + g2, alpha, decay) == Descend(v1, g1, alpha, decay) + Descend(v2, g2, alpha, decay)
  {
    var l := Descend(v1 + v2, g1 + g2, alpha, decay);
    var r := Descend(v1, g1, alpha, decay) + Descend(v2, g2, alpha, decay);
    forall x | 0 <= x < |l|
      ensures l[x] == r[x]
    {
      if x < |v1| {
        assert (v1 + v2)[x] == v1[x] && (g1 + g2)[x] == g1[x];
      } else {
        assert (v1 + v2)[x] == v2[x - |v1|] && (g1 + g2)[x] == g2[x - |v1|];
      }
    }
  }

  /** The sign of a product of reals. */
  lemma ProductSign(a: real, b: real)
    requires a >= 0.0
    ensures b >= 0.0 ==> a * b >= 0.0
    ensures b <= 0.0 ==> a * b <= 0.0
  {
  }

  /** Without a gradient, a decay in [0, 1] moves every parameter towards zero
      and never past it; without decay either, nothing moves. */
  lemma DescendDecays(v: seq<real>, g: seq<real>, alpha: real, decay: real)
    requires |v| == |g| && forall x :: 0 <= x < |g| ==> g[x] == 0.0
    requires 0.0 <= decay <= 1.0
    ensures var r := Descend(v, g, alpha, decay);
      forall x :: 0 <= x < |v| ==>
        && (v[x] >= 0.0 ==> 0.0 <= r[x] <= v[x])
        && (v[x] <= 0.0 ==> v[x] <= r[x] <= 0.0)
        && (decay == 0.0 ==> r[x] == v[x])
  {
    var r := Descend(v, g, alpha, decay);
    forall x | 0 <= x < |v|
      ensures v[x] >= 0.0 ==> 0.0 <= r[x] <= v[x]
      ensures v[x] <= 0.0 ==> v[x] <= r[x] <= 0.0
    {
      assert r[x] == (1.0 - decay) * v[x];
      ProductSign(1.0 - decay, v[x]);
      ProductSign(decay, v[x]);
    }
  }

  /** A gradient of a given sign moves the parameter the other way, apart
      from its decay. */
  lemma DescendOpposes(v: real, g: real, alpha: real, decay: real)
    requires alpha > 0.0
    ensures g > 0.0 ==> DescendOne(v, g, alpha, decay) < v - decay * v
    ensures g < 0.0 ==> DescendOne(v, g, alpha, decay) > v - decay * v
    ensures g == 0.0 ==> DescendOne(v, g, alpha, decay) == v - decay * v
  {
    if g > 0.0 {
      assert alpha * g > 0.0;
    } else if g < 0.0 {
      assert alpha * g < 0.0;
    }
  }

  /** The update loop over one parameter array. */
  method DescendInPlace(a: array<real>, g: seq<real>, alpha: real, decay: real)
    requires |g| == a.Length
    modifies a
    ensures a[..] == Descend(old(a[..]), g, alpha, decay)
  {
    var x := 0;
    while x < a.Length
      invariant 0 <= x <= a.Length
      invariant forall k :: 0 <= k < x ==> a[k] == DescendOne(old(a[k]), g[k], alpha, decay)
      invariant forall k :: x <= k < a.Length ==> a[k] == old(a[k])
    {
      a[x] := a[x] - (decay * a[x] + alpha * g[x]);
      x := x + 1;
    }
  }

  /** Gradient descent with L2 regularisation: the learning rate and the L2
      factor are divided by the number of samples in the batch; the weights
      decay, the biases do not. */
  method SgdMinimize(weights: array<real>, biases: array<real>, dJdw: seq<real>, dJdb: seq<real>,
                     eta: real, lambda: real, samples: nat)
    requires samples > 0 && weights != biases
    requires |dJdw| == weights.Length && |dJdb| == biases.Length
    modifies weights, biases
    ensures weights[..] == Descend(old(weights[..]), dJdw, eta / samples as real, eta * lambda / samples as real)
    ensures biases[..] == Descend(old(biases[..]), dJdb, eta / samples as real, 0.0)
  {
    var alpha, l2Factor := eta / samples as real, eta * lambda / samples as real;
    DescendInPlace(weights, dJdw, alpha, l2Factor);
    DescendInPlace(biases, dJdb, alpha, 0.0);
  }

  /** The Adadelta hyper-parameters: the decay rate of the running averages,
      the constant that keeps the square roots away from zero, and the L2
      factor. */
  datatype Hyper = Hyper(rho: real, epsilon: real, l2: real)

  /** The hyper-parameters and the square root the update relies on: a decay
      rate in [0, 1], a positive epsilon, and a square root that is positive
      on positive numbers. */
  ghost predicate Admissible(sqrt: real -> real, h: Hyper) {
    && 0.0 <= h.rho <= 1.0
    && h.epsilon > 0.0
    && (forall x :: x > 0.0 ==> sqrt(x) > 0.0)
  }

  /** One parameter with its two running averages: of the squared gradient and
      of the squared update. */
  datatype Cell = Cell(param: real, eg: real, edx: real)

  /** The running averages are averages of squares, hence never negative. */
  predicate Averages(c: Cell) {
    c.eg >= 0.0 && c.edx >= 0.0
  }

  /** The running average of a square: rho parts of the old value and 1 - rho
      parts of the new square. */
  function Decayed(rho: real, e: real, v: real): (r: real)
    requires 0.0 <= rho <= 1.0 && e >= 0.0
    ensures r >= 0.0
    ensures rho == 1.0 ==> r == e
  {
    assert rho * e >= 0.0 && (1.0 - rho) * (v * v) >= 0.0;
    rho * e + (1.0 - rho) * v * v
  }

  /** The Adadelta step of one parameter for the gradient g: the squared
      gradient is averaged in first, the step is the ratio of the two root
      mean squares times the gradient, against the gradient, and the step is
      then averaged in; the parameter moves by the step and its L2 decay. */
  function AdadeltaOne(sqrt: real -> real, h: Hyper, c: Cell, g: real): (r: Cell)
    requires Admissible(sqrt, h) && Averages(c)
    ensures Averages(r)
  {
    var eg := Decayed(h.rho, c.eg, g);
    var rmsDx, rmsGt := sqrt(c.edx + h.epsilon), sqrt(eg + h.epsilon);
    var dx := -(rmsDx / rmsGt) * g;
    Cell(c.param + dx - h.l2 * c.param, eg, Decayed(h.rho, c.edx, dx))
  }

  /** The step is taken against the gradient, and without a gradient only the
      L2 decay moves the parameter while the averages merely decay. */
  lemma AdadeltaOpposes(sqrt: real -> real, h: Hyper, c: Cell, g: real)
    requires Admissible(sqrt, h) && Averages(c)
    ensures var r := AdadeltaOne(sqrt, h, c, g);
      && (g > 0.0 ==> r.param < c.param - h.l2 * c.param)
      && (g < 0.0 ==> r.param > c.param - h.l2 * c.param)
      && (g == 0.0 ==> r == Cell(c.param - h.l2 * c.param, h.rho * c.eg, h.rho * c.edx))
  {
    var eg := Decayed(h.rho, c.eg, g);
    var rmsDx, rmsGt := sqrt(c.edx + h.epsilon), sqrt(eg + h.epsilon);
    assert rmsDx > 0.0 && rmsGt > 0.0;
    var q := rmsDx / rmsGt;
    assert q > 0.0;
    if g > 0.0 {
      assert q * g > 0.0;
    } else if g < 0.0 {
      assert q * g < 0.0;
    }
  }

  /** All running averages of a vector of accumulators are averages of squares. */
  predicate AllAverages(eg: seq<real>, edx: seq<real>) {
    |eg| == |edx| && forall x :: 0 <= x < |eg| ==> eg[x] >= 0.0 && edx[x] >= 0.0
  }

  /** The update loop over one parameter array and its two running averages. */
  method AdadeltaInPlace(p: array<real>, eg: seq<real>, edx: seq<real>, g: seq<real>, sqrt: real -> real, h: Hyper)
    returns (eg': seq<real>, edx': seq<real>)
    requires Admissible(sqrt, h) && AllAverages(eg, edx)
    requires |eg| == p.Length && |g| == p.Length
    modifies p
    ensures AllAverages(eg', edx') && |eg'| == p.Length
    ensures forall x :: 0 <= x < p.Length ==>
      Cell(p[x], eg'[x], edx'[x]) == AdadeltaOne(sqrt, h, Cell(old(p[x]), eg[x], edx[x]), g[x])
  {
    eg', edx' := eg, edx;
    var x := 0;
    while x < p.Length
      invariant 0 <= x <= p.Length && |eg'| == |edx'| == p.Length
      invariant forall k :: 0 <= k < x ==>
        Cell(p[k], eg'[k], edx'[k]) == AdadeltaOne(sqrt, h, Cell(old(p[k]), eg[k], edx[k]), g[k])
      invariant forall k :: x <= k < p.Length ==> p[k] == old(p[k]) && eg'[k] == eg[k] && edx'[k] == edx[k]
      invariant AllAverages(eg', edx')
    {
      var c := AdadeltaOne(sqrt, h, Cell(p[x], eg'[x], edx'[x]), g[x]);
      eg' := eg'[x := c.eg];
      edx' := edx'[x := c.edx];
      p[x] := c.param;
      x := x + 1;
    }
  }

  /** The four running averages of one weighted layer: of the squared
      gradients and of the squared updates, for its weights and for its biases. */
  datatype Accumulators = Accumulators(egW: seq<real>, edxW: seq<real>, egB: seq<real>, edxB: seq<real>)

  /** Averages of squares, sized in pairs. */
  predicate AccumulatorsOk(a: Accumulators) {
    AllAverages(a.egW, a.edxW) && AllAverages(a.egB, a.edxB)
  }

  /** The shapes of one weighted layer: its number of weights and of biases. */
  datatype Sizes = Sizes(weights: nat, biases: nat)

  /** Zeroed accumulators for a layer of the given sizes. */
  function Zeroed(s: Sizes): (a: Accumulators)
    ensures AccumulatorsOk(a)
    ensures |a.egW| == s.weights && |a.egB| == s.biases
    ensures forall x :: 0 <= x < s.weights ==> a.egW[x] == 0.0 && a.edxW[x] == 0.0
    ensures forall x :: 0 <= x < s.biases ==> a.egB[x] == 0.0 && a.edxB[x] == 0.0
  {
    var w, b := seq(s.weights, _ => 0.0), seq(s.biases, _ => 0.0);
    Accumulators(w, w, b, b)
  }

  /** Dimension d of an array with the given dimension lengths; a dimension
      out of range makes the runtime throw (None). */
  function DimensionOf(dims: seq<nat>, d: nat): Option<nat> {
    if d < |dims| then Some(dims[d]) else None
  }

  /** The accumulator shape of one weighted layer as the optimizer's set-up
      asks for it: GetLength(0) rows by GetLength(1) columns of the weights
      array, and one row of biases. Only an array of two or more dimensions
      answers; for a two-dimensional one the shape holds every weight. */
  function ShapeAsWritten(dims: seq<nat>, biases: nat): (r: Option<Sizes>)
    ensures r.Some? <==> |dims| >= 2
    ensures |dims| == 2 ==> r == Some(Sizes(dims[0] * dims[1], biases))
  {
    match (DimensionOf(dims, 0), DimensionOf(dims, 1))
    case (Some(rows), Some(columns)) => Some(Sizes(rows * columns, biases))
    case _ => None
  }

  /** The set-up loop over the weighted layers: every shape, in order, or
      None as soon as one of them throws. */
  function AllShapes(s: seq<Option<Sizes>>): (r: Option<seq<Sizes>>)
    ensures r.Some? <==> forall k :: 0 <= k < |s| ==> s[k].Some?
    ensures r.Some? ==> |r.value| == |s| && forall k :: 0 <= k < |s| ==> r.value[k] == s[k].value
  {
    if |s| == 0 then Some([])
    else match (s[0], AllShapes(s[1..]))
      case (Some(first), Some(rest)) => Some([first] + rest)
      case _ => None
  }

  /** The shapes of the accumulators of the network's weighted layers as
      written: each layer's weights are a flat array of weightCount floats. */
  function ShapesAsWritten(net: NeuralNetwork): Option<seq<Sizes>>
    requires Built(net)
  {
    var w := net.weightedIndexes;
    AllShapes(seq(|w|, k requires 0 <= k < |w| =>
      ShapeAsWritten([net.layers[w[k]].weightCount], net.layers[w[k]].biasCount)))
  }

  /** As written, the Adadelta set-up throws for every network that has a
      weighted layer, and succeeds only when there is nothing to train. */
  lemma AdadeltaSetupThrows(net: NeuralNetwork)
    requires Built(net)
    ensures ShapesAsWritten(net).None? <==> |WeightedIndexes(net.layers)| > 0
  {
  }

  /** The Adadelta updater: one set of accumulators per weighted layer, created
      zeroed when the optimizer starts and kept for the whole session. */
  class Adadelta {
    const hyper: Hyper
    const sqrt: real -> real
    var slots: seq<Accumulators>

    ghost predicate Valid()
      reads this
    {
      Admissible(sqrt, hyper) && forall i :: 0 <= i < |slots| ==> AccumulatorsOk(slots[i])
    }

    /** Zeroed accumulators for every weighted layer of the network, in the
        order of its weighted-layer indexes, each sized by that layer's weights
        and biases. */
    constructor (hyper: Hyper, sqrt: real -> real, net: NeuralNetwork)
      requires Admissible(sqrt, hyper) && Built(net)
      ensures Valid()
      ensures this.hyper == hyper && this.sqrt == sqrt
      ensures |slots| == |WeightedIndexes(net.layers)|
      ensures forall i :: 0 <= i < |slots| ==>
        var l := net.layers[WeightedIndexes(net.layers)[i]];
        slots[i] == Zeroed(Sizes(l.weightCount, l.biasCount))
    {
      this.hyper := hyper;
      this.sqrt := sqrt;
      var w := net.weightedIndexes;
      var s: seq<Accumulators> := [];
      var i := 0;
      while i < |w|
        invariant 0 <= i <= |w| && |s| == i
        invariant forall k :: 0 <= k < i ==> s[k] == Zeroed(Sizes(net.layers[w[k]].weightCount, net.layers[w[k]].biasCount))
      {
        var l := net.layers[w[i]];
        s := s + [Zeroed(Sizes(l.weightCount, l.biasCount))];
        i := i + 1;
      }
      slots := s;
    }

    /** The update of weighted layer i: its weights and biases take the
        Adadelta step with the running averages of slot i, which keep their
        new values for the next batch; no other slot changes. */
    method Minimize(i: nat, weights: array<real>, biases: array<real>, dJdw: seq<real>, dJdb: seq<real>)
      requires Valid() && i < |slots| && weights != biases
      requires weights.Length == |slots[i].egW| && |dJdw| == weights.Length
      requires biases.Length == |slots[i].egB| && |dJdb| == biases.Length
      modifies this, weights, biases
      ensures Valid()
      ensures |slots| == |old(slots)| && forall j :: 0 <= j < |slots| && j != i ==> slots[j] == old(slots[j])
      ensures var a, a' := old(slots[i]), slots[i];
        && |a'.egW| == |a.egW| && |a'.egB| == |a.egB|
        && (forall x :: 0 <= x < weights.Length ==>
              Cell(weights[x], a'.egW[x], a'.edxW[x]) == AdadeltaOne(sqrt, hyper, Cell(old(weights[x]), a.egW[x], a.edxW[x]), dJdw[x]))
        && (forall x :: 0 <= x < biases.Length ==>
              Cell(biases[x], a'.egB[x], a'.edxB[x]) == AdadeltaOne(sqrt, hyper, Cell(old(biases[x]), a.egB[x], a.edxB[x]), dJdb[x]))
    {
      var a := slots[i];
      var egW, edxW := AdadeltaInPlace(weights, a.egW, a.edxW, dJdw, sqrt, hyper);
      var egB, edxB := AdadeltaInPlace(biases, a.egB, a.edxB, dJdb, sqrt, hyper);
      slots := slots[i := Accumulators(egW, edxW, egB, edxB)];
    }
  }
}

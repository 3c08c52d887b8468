/**
 * The network descriptor: the layer-chain validation performed when a network is
 * built, the derived input and output sizes, the indexes of the weighted layers,
 * and structural equality between two networks.
 */
module Network {
  import opened Layers

  /** The configuration errors the constructor raises, with the index of the
      layer whose check failed. */
  datatype ConfigError =
    | EmptyNetwork                          // no layers at all
    | OutputNotLast(index: nat)             // an output layer before the last position
    | LastNotOutput(index: nat)             // the last layer is not an output layer
    | InputsMismatch(index: nat)            // layer index does not accept the previous outputs
    | PoolingAfterConvolution(index: nat)   // pooling after a non-Identity convolution

  datatype Option<T> = None | Some(value: T)

  datatype Result<T> = Success(value: T) | Failure(error: ConfigError)

  /** A built network: its input and output sizes, its layers, and the indexes
      of the layers that own weights and biases (in increasing order). */
  datatype NeuralNetwork = NeuralNetwork(
    inputs: nat,
    outputs: nat,
    layers: seq<Layer>,
    weightedIndexes: seq<nat>)

  /** Layer i accepts what layer i - 1 produces. */
  predicate Fits(layers: seq<Layer>, i: nat)
    requires 0 < i < |layers|
  {
    layers[i - 1].outputs == layers[i].inputs
  }

  /** A convolution feeding the pooling layer i defers its activation to after
      the pooling (Identity). */
  predicate PoolingOk(layers: seq<Layer>, i: nat)
    requires 0 < i < |layers|
  {
    layers[i].kind == Pooling && layers[i - 1].kind == Convolutional ==> layers[i - 1].activation == Identity
  }

  /** What a well-formed chain of layers satisfies: it is not empty, the output
      layer is exactly the last one, every layer accepts what the previous one
      produces, and pooling follows a convolution only as above. */
  predicate ValidChain(layers: seq<Layer>) {
    && |layers| > 0
    && IsOutput(layers[|layers| - 1])
    && (forall i :: 0 <= i < |layers| - 1 ==> !IsOutput(layers[i]))
    && (forall i :: 0 < i < |layers| ==> Fits(layers, i) && PoolingOk(layers, i))
  }

  /** Every check the constructor's loop makes at position i passes. */
  predicate LayerOk(layers: seq<Layer>, i: nat)
    requires i < |layers|
  {
    && (i != |layers| - 1 ==> !IsOutput(layers[i]))
    && (i == |layers| - 1 ==> IsOutput(layers[i]))
    && (i > 0 ==> Fits(layers, i) && PoolingOk(layers, i))
  }

  /** The per-position checks, all passing, are exactly a valid chain. */
  lemma AllLayersOkIffValid(layers: seq<Layer>)
    requires |layers| > 0
    ensures (forall j :: 0 <= j < |layers| ==> LayerOk(layers, j)) <==> ValidChain(layers)
  {
    if forall j :: 0 <= j < |layers| ==> LayerOk(layers, j) {
      assert LayerOk(layers, |layers| - 1);
      forall i | 0 < i < |layers|
        ensures Fits(layers, i) && PoolingOk(layers, i)
      {
        assert LayerOk(layers, i);
      }
      forall i | 0 <= i < |layers| - 1
        ensures !IsOutput(layers[i])
      {
        assert LayerOk(layers, i);
      }
    }
  }

  /** The layer index an error names (0 for the empty network). */
  function ErrorIndex(e: ConfigError): nat {
    match e
    case EmptyNetwork => 0
    case OutputNotLast(i) => i
    case LastNotOutput(i) => i
    case InputsMismatch(i) => i
    case PoolingAfterConvolution(i) => i
  }

  /** The checks at position i, in the order the loop body makes them; the first
      failing one is reported. */
  function CheckLayer(layers: seq<Layer>, i: nat): (r: Option<ConfigError>)
    requires i < |layers|
    ensures r.None? <==> LayerOk(layers, i)
    ensures r.Some? ==> ErrorIndex(r.value) == i && r.value != EmptyNetwork
  {
    if i != |layers| - 1 && IsOutput(layers[i]) then Some(OutputNotLast(i))
    else if i == |layers| - 1 && !IsOutput(layers[i]) then Some(LastNotOutput(i))
    else if i > 0 && layers[i - 1].outputs != layers[i].inputs then Some(InputsMismatch(i))
    else if i > 0 && layers[i].kind == Pooling && layers[i - 1].kind == Convolutional
            && layers[i - 1].activation != Identity then Some(PoolingAfterConvolution(i))
    else None
  }

  /** The constructor's loop from position i on: the first failing layer, in
      increasing index order, decides the error. */
  function CheckFrom(layers: seq<Layer>, i: nat): (r: Option<ConfigError>)
    requires i <= |layers|
    ensures r.None? <==> forall j :: i <= j < |layers| ==> LayerOk(layers, j)
    ensures r.Some? ==>
      && i <= ErrorIndex(r.value) < |layers|
      && CheckLayer(layers, ErrorIndex(r.value)) == r
      && forall j :: i <= j < ErrorIndex(r.value) ==> LayerOk(layers, j)
    decreases |layers| - i
  {
    if i == |layers| then None
    else match CheckLayer(layers, i)
      case Some(e) => Some(e)
      case None => CheckFrom(layers, i + 1)
  }

  /** The indexes, from position i on, of the layers that own weights. */
  function WeightedFrom(layers: seq<Layer>, i: nat): (r: seq<nat>)
    requires i <= |layers|
    ensures |r| <= |layers| - i
    ensures forall k :: 0 <= k < |r| ==> i <= r[k] < |layers|
    ensures forall k, k' :: 0 <= k < k' < |r| ==> r[k] < r[k']
    ensures forall j :: i <= j < |layers| ==> (j in r <==> layers[j].weighted)
    decreases |layers| - i
  {
    if i == |layers| then []
    else if layers[i].weighted then [i] + WeightedFrom(layers, i + 1)
    else WeightedFrom(layers, i + 1)
  }

  /** The indexes of the weighted layers of the whole chain. */
  function WeightedIndexes(layers: seq<Layer>): (r: seq<nat>)
    ensures |r| <= |layers|
    ensures forall k :: 0 <= k < |r| ==> r[k] < |layers| && layers[r[k]].weighted
    ensures forall k, k' :: 0 <= k < k' < |r| ==> r[k] < r[k']
    ensures forall j :: j in r <==> 0 <= j < |layers| && layers[j].weighted
  {
    WeightedFrom(layers, 0)
  }

  /** The network constructor: validates the chain, then derives the input and
      output sizes and the weighted-layer indexes. */
  function Create(layers: seq<Layer>): (r: Result<NeuralNetwork>)
    ensures |layers| == 0 ==> r == Failure(EmptyNetwork)
    ensures r.Success? <==> ValidChain(layers)
    ensures r.Success? ==>
      && r.value.inputs == layers[0].inputs
      && r.value.outputs == layers[|layers| - 1].outputs
      && r.value.layers == layers
      && r.value.weightedIndexes == WeightedIndexes(layers)
    ensures r.Failure? && |layers| > 0 ==>
      var k := ErrorIndex(r.error);
      && k < |layers|
      && CheckLayer(layers, k) == Some(r.error)
      && forall j :: 0 <= j < k ==> LayerOk(layers, j)
  {
    if |layers| < 1 then Failure(EmptyNetwork)
    else match CheckFrom(layers, 0)
      case Some(e) =>
        AllLayersOkIffValid(layers);
        Failure(e)
      case None =>
        AllLayersOkIffValid(layers);
        Success(NeuralNetwork(layers[0].inputs, layers[|layers| - 1].outputs, layers, WeightedIndexes(layers)))
  }

  /** The network was produced by the constructor from its own layers. */
  predicate Built(net: NeuralNetwork) {
    Create(net.layers) == Success(net)
  }

  /** An output layer anywhere but last is rejected; when every earlier layer
      passes its checks, the error names that layer. */
  lemma OutputLayerNotLastRejected(layers: seq<Layer>, i: nat)
    requires i < |layers| - 1 && IsOutput(layers[i])
    ensures Create(layers).Failure?
    ensures (forall j :: 0 <= j < i ==> LayerOk(layers, j)) ==> Create(layers) == Failure(OutputNotLast(i))
  {
    var r := Create(layers);
    assert !LayerOk(layers, i);
    if forall j :: 0 <= j < i ==> LayerOk(layers, j) {
      var k := ErrorIndex(r.error);
      assert !LayerOk(layers, k);
    }
  }

  /** A chain whose last layer is not an output layer is rejected. */
  lemma LastLayerNotOutputRejected(layers: seq<Layer>)
    requires |layers| > 0 && !IsOutput(layers[|layers| - 1])
    ensures Create(layers).Failure?
    ensures (forall j :: 0 <= j < |layers| - 1 ==> LayerOk(layers, j)) ==>
      Create(layers) == Failure(LastNotOutput(|layers| - 1))
  {
  }

  /** Adjacent layers whose sizes disagree make the constructor fail. */
  lemma SizeMismatchRejected(layers: seq<Layer>, i: nat)
    requires 0 < i < |layers| && layers[i - 1].outputs != layers[i].inputs
    ensures Create(layers).Failure?
  {
    assert !Fits(layers, i);
  }

  /** A pooling layer right after a convolution that does not use Identity is
      rejected; any other placement of a pooling layer passes that check. */
  lemma PoolingPlacement(layers: seq<Layer>, i: nat)
    requires 0 < i < |layers| && layers[i].kind == Pooling
    ensures layers[i - 1].kind == Convolutional && layers[i - 1].activation != Identity
      ==> Create(layers).Failure?
    ensures !(layers[i - 1].kind == Convolutional && layers[i - 1].activation != Identity)
      ==> CheckLayer(layers, i) != Some(PoolingAfterConvolution(i))
  {
    if layers[i - 1].kind == Convolutional && layers[i - 1].activation != Identity {
      assert !PoolingOk(layers, i);
    }
  }

  /** Every weighted layer of a built network is listed once, in order, and
      nothing else is. */
  lemma WeightedIndexesOfNetwork(layers: seq<Layer>)
    requires Create(layers).Success?
    ensures var w := Create(layers).value.weightedIndexes;
      && |w| <= |layers|
      && (forall k :: 0 <= k < |w| ==> w[k] < |layers| && layers[w[k]].weighted)
      && (forall j :: 0 <= j < |layers| && layers[j].weighted ==> j in w)
      && (forall k, k' :: 0 <= k < k' < |w| ==> w[k] < w[k'])
  {
    var w := Create(layers).value.weightedIndexes;
    forall k | 0 <= k < |w|
      ensures w[k] < |layers| && layers[w[k]].weighted
    {
      assert w[k] in w;
    }
  }

  /** Zip-and-All over two equally long layer lists. */
  function AllPairs(a: seq<Layer>, b: seq<Layer>, same: (Layer, Layer) -> bool): (r: bool)
    requires |a| == |b|
    ensures r <==> forall i :: 0 <= i < |a| ==> same(a[i], b[i])
  {
    if |a| == 0 then true
    else same(a[0], b[0]) && AllPairs(a[1..], b[1..], same)
  }

  /** Network equality: same input and output sizes, same number of layers, and
      pairwise equal layers under the layers' own equality. */
  function Equals(n: NeuralNetwork, other: NeuralNetwork, same: (Layer, Layer) -> bool): (r: bool)
    ensures r ==> n.inputs == other.inputs && n.outputs == other.outputs && |n.layers| == |other.layers|
    ensures r <==> && n.inputs == other.inputs && n.outputs == other.outputs
                   && |n.layers| == |other.layers|
                   && forall i :: 0 <= i < |n.layers| ==> same(n.layers[i], other.layers[i])
  {
    if other.inputs == n.inputs && other.outputs == n.outputs && |n.layers| == |other.layers| then
      AllPairs(n.layers, other.layers, same)
    else false
  }

  /** Network equality inherits reflexivity and symmetry from layer equality. */
  lemma {:induction false} EqualsIsReflexiveAndSymmetric(n: NeuralNetwork, m: NeuralNetwork, same: (Layer, Layer) -> bool)
    requires forall l :: same(l, l)
    requires forall l, l' :: same(l, l') ==> same(l', l)
    ensures Equals(n, n, same)
    ensures Equals(n, m, same) ==> Equals(m, n, same)
  {
    if Equals(n, m, same) {
      forall i | 0 <= i < |m.layers|
        ensures same(m.layers[i], n.layers[i])
      {
        assert same(n.layers[i], m.layers[i]);
      }
    }
  }

  /** Two built networks are equal under structural layer equality exactly when
      they were built from the same layers. */
  lemma BuiltNetworksEqualIffSameLayers(a: seq<Layer>, b: seq<Layer>)
    requires Create(a).Success? && Create(b).Success?
    ensures Equals(Create(a).value, Create(b).value, (l: Layer, l': Layer) => l == l') <==> a == b
  {
    var same := (l: Layer, l': Layer) => l == l';
    if Equals(Create(a).value, Create(b).value, same) {
      assert |a| == |b|;
      forall i | 0 <= i < |a|
        ensures a[i] == b[i]
      {
        assert same(a[i], b[i]);
      }
    }
  }
}

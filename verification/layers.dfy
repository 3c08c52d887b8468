/**
 * The abstract description of one network layer, as the network class sees it:
 * which kind of layer it is, whether it owns weights and biases, the flat sizes
 * of its input and output, the tag of its activation function and the lengths
 * of its weight and bias arrays.
 * The layer's numeric kernels are not part of this record (see module Kernels).
 */
module Layers {

  /** The layer type tag. The two output variants (plain and softmax) derive from
      the output-layer base class and report their own type tags. */
  datatype LayerKind = FullyConnected | Convolutional | Pooling | Output | Softmax

  /** Activation function tag. Only Identity is ever singled out by the network class;
      the other members of the enumeration are folded into Other. */
  datatype ActivationType = Identity | Other(code: nat)

  datatype Layer = Layer(
    kind: LayerKind,
    weighted: bool,          // the layer derives from the weighted-layer base class
    inputs: nat,             // flat input size
    outputs: nat,            // flat output size
    activation: ActivationType,
    weightCount: nat,        // length of the flat weights array (0 when not weighted)
    biasCount: nat)          // length of the biases array (0 when not weighted)

  /** The layer is an output layer (plain or softmax). */
  predicate IsOutput(l: Layer) {
    l.kind == Output || l.kind == Softmax
  }
}

/**
 * The unmanaged tensor memory the network works on. A tensor is known only by
 * an opaque handle and its shape (entities = rows, length = columns); its
 * contents are not modelled. A handle is either an owned tensor, which must be
 * released exactly once, or a view fixed over a caller's array, which must
 * never be released. Handles are numbered in allocation order.
 */
module Tensors {
  import opened Layers

  type Handle = nat

  datatype Shape = Shape(entities: nat, length: nat)

  /** One slot of a zero-initialised stack array of tensors: empty (a null
      reference) or holding a tensor. */
  datatype Slot = Empty | Tensor(handle: Handle)

  /** One call of a layer kernel, with the tensors it read and the tensor it
      wrote: a layer's forward step (z and a new), the in-place product of
      target with other, the output delta written into a, a hidden delta
      written into z from the next layer's delta, a gradient pair computed
      from an input and a delta, and one call of the weights updater with the
      gradient slot, the gradients, the batch size and the layer index. */
  datatype Call =
    | ForwardCall(layer: Layer, input: Handle, z: Handle, a: Handle)
    | HadamardCall(target: Handle, other: Handle)
    | OutputDeltaCall(layer: Layer, a: Handle, y: Handle, z: Handle)
    | LayerDeltaCall(layer: Layer, deltaNext: Handle, z: Handle, activationPrime: ActivationType)
    | GradientCall(layer: Layer, input: Handle, delta: Handle, dJdw: Handle, dJdb: Handle)
    | UpdateCall(slot: nat, dJdw: Handle, dJdb: Handle, samples: nat, layerIndex: nat)

  /** The bookkeeping of the tensor memory at one moment. */
  datatype Snapshot = Snapshot(next: Handle, live: set<Handle>, views: set<Handle>, shapes: map<Handle, Shape>, freed: seq<Handle>)

  class Memory {
    var next: Handle                 // the handle the next allocation receives
    var live: set<Handle>            // owned tensors not yet released
    var views: set<Handle>           // non-owning views over caller buffers
    var shapes: map<Handle, Shape>
    ghost var freed: seq<Handle>     // every release, in order
    ghost var calls: seq<Call>       // every kernel call, in order

    /** Handles are below the counter; owned and view handles are apart; a
        released handle is neither live nor a view, and nothing is released twice. */
    ghost predicate Valid()
      reads this
    {
      && live !! views
      && live + views <= shapes.Keys
      && (forall h :: h in live ==> h < next)
      && (forall h :: h in views ==> h < next)
      && (forall k :: 0 <= k < |freed| ==> freed[k] < next && freed[k] !in live && freed[k] !in views)
      && (forall k, k' :: 0 <= k < k' < |freed| ==> freed[k] != freed[k'])
    }

    ghost function Snap(): Snapshot
      reads this
    {
      Snapshot(next, live, views, shapes, freed)
    }

    /** The tensor may be read: it is owned and not released, or it is a view. */
    predicate Readable(h: Handle)
      reads this
    {
      h in live || h in views
    }

    constructor ()
      ensures Valid()
      ensures next == 0 && live == {} && views == {} && shapes == map[] && freed == [] && calls == []
    {
      next := 0;
      live := {};
      views := {};
      shapes := map[];
      freed := [];
      calls := [];
    }

    /** Fixes a caller's buffer as a non-owning view of the given shape. */
    method Fix(s: Shape) returns (h: Handle)
      requires Valid()
      modifies this
      ensures Valid()
      ensures h == old(next) && next == old(next) + 1
      ensures views == old(views) + {h} && live == old(live)
      ensures shapes == old(shapes)[h := s] && freed == old(freed) && calls == old(calls)
    {
      h := next;
      next := next + 1;
      views := views + {h};
      shapes := shapes[h := s];
    }

    /** Allocates a new owned tensor of the given shape. */
    method Alloc(s: Shape) returns (h: Handle)
      requires Valid()
      modifies this
      ensures Valid()
      ensures h == old(next) && next == old(next) + 1
      ensures live == old(live) + {h} && views == old(views)
      ensures shapes == old(shapes)[h := s] && freed == old(freed) && calls == old(calls)
    {
      h := next;
      next := next + 1;
      live := live + {h};
      shapes := shapes[h := s];
    }

    /** Releases an owned tensor. Only an owned, not yet released tensor may be
        released: this is what makes a double release or the release of a
        caller's view a verification error. */
    method Free(h: Handle)
      requires Valid() && h in live
      modifies this
      ensures Valid()
      ensures live == old(live) - {h} && freed == old(freed) + [h]
      ensures views == old(views) && next == old(next) && shapes == old(shapes) && calls == old(calls)
    {
      live := live - {h};
      freed := freed + [h];
    }
  }
}

/**
 * The layer kernels the network calls, as uninterpreted operations on tensor
 * handles. Their numeric effect is not modelled; what is modelled is which
 * tensors they read, which they overwrite in place (only owned, live tensors)
 * and which new owned tensors they return, with the shapes these have.
 */
module Kernels {
  import opened Layers
  import opened Tensors

  /** Layer forward: z (pre-activation) and a (activation), both new, with the
      input's entities and the layer's output width. */
  method LayerForward(mem: Memory, layer: Layer, input: Handle) returns (z: Handle, a: Handle)
    requires mem.Valid() && mem.Readable(input) && mem.shapes[input].length == layer.inputs
    modifies mem
    ensures mem.Valid()
    ensures z == old(mem.next) && a == z + 1 && mem.next == a + 1
    ensures mem.live == old(mem.live) + {z, a} && mem.views == old(mem.views) && mem.freed == old(mem.freed)
    ensures mem.shapes == old(mem.shapes)[z := Shape(old(mem.shapes)[input].entities, layer.outputs)]
                                         [a := Shape(old(mem.shapes)[input].entities, layer.outputs)]
    ensures mem.calls == old(mem.calls) + [ForwardCall(layer, input, z, a)]
  {
    var s := Shape(mem.shapes[input].entities, layer.outputs);
    z := mem.Alloc(s);
    a := mem.Alloc(s);
    mem.calls := mem.calls + [ForwardCall(layer, input, z, a)];
  }

  /** Elementwise product written into target, an owned tensor. */
  method InPlaceHadamardProduct(mem: Memory, target: Handle, other: Handle)
    requires mem.Valid() && target in mem.live && mem.Readable(other)
    requires mem.shapes[target] == mem.shapes[other]
    modifies mem
    ensures mem.Valid() && mem.Snap() == old(mem.Snap()) && mem.calls == old(mem.calls) + [HadamardCall(target, other)]
  {
    mem.calls := mem.calls + [HadamardCall(target, other)];
  }

  /** Output-layer delta: overwrites the activation a in place with the cost
      gradient (times the activation derivative unless the cost simplifies it). */
  method OutputBackpropagate(mem: Memory, layer: Layer, a: Handle, y: Handle, z: Handle)
    requires mem.Valid() && a in mem.live && mem.Readable(y) && mem.Readable(z)
    requires mem.shapes[a] == mem.shapes[y] == mem.shapes[z]
    modifies mem
    ensures mem.Valid() && mem.Snap() == old(mem.Snap()) && mem.calls == old(mem.calls) + [OutputDeltaCall(layer, a, y, z)]
  {
    mem.calls := mem.calls + [OutputDeltaCall(layer, a, y, z)];
  }

  /** Hidden-layer delta: z of the previous layer is overwritten in place with
      (deltaNext times the transposed weights of this layer) Hadamard
      activationPrime(z). */
  method LayerBackpropagate(mem: Memory, layer: Layer, deltaNext: Handle, z: Handle, activationPrime: ActivationType)
    requires mem.Valid() && z in mem.live && mem.Readable(deltaNext)
    requires mem.shapes[deltaNext].length == layer.outputs && mem.shapes[z].length == layer.inputs
    requires mem.shapes[deltaNext].entities == mem.shapes[z].entities
    modifies mem
    ensures mem.Valid() && mem.Snap() == old(mem.Snap())
    ensures mem.calls == old(mem.calls) + [LayerDeltaCall(layer, deltaNext, z, activationPrime)]
  {
    mem.calls := mem.calls + [LayerDeltaCall(layer, deltaNext, z, activationPrime)];
  }

  /** Weight and bias gradients of a weighted layer: two new owned tensors. */
  method ComputeGradient(mem: Memory, layer: Layer, a: Handle, delta: Handle) returns (dJdw: Handle, dJdb: Handle)
    requires mem.Valid() && mem.Readable(a) && mem.Readable(delta)
    requires mem.shapes[a].length == layer.inputs && mem.shapes[delta].length == layer.outputs
    modifies mem
    ensures mem.Valid()
    ensures dJdw == old(mem.next) && dJdb == dJdw + 1 && mem.next == dJdb + 1
    ensures mem.live == old(mem.live) + {dJdw, dJdb} && mem.views == old(mem.views) && mem.freed == old(mem.freed)
    ensures mem.shapes == old(mem.shapes)[dJdw := Shape(layer.inputs, layer.outputs)][dJdb := Shape(1, layer.outputs)]
    ensures mem.calls == old(mem.calls) + [GradientCall(layer, a, delta, dJdw, dJdb)]
  {
    dJdw := mem.Alloc(Shape(layer.inputs, layer.outputs));
    dJdb := mem.Alloc(Shape(1, layer.outputs));
    mem.calls := mem.calls + [GradientCall(layer, a, delta, dJdw, dJdb)];
  }

  /** The weights updater, called for gradient slot i with both gradients of
      the weighted layer at layerIndex, which must still be alive. Its effect
      on the layer parameters is modelled by module Optimizers. */
  method ApplyUpdate(mem: Memory, slot: nat, dJdw: Handle, dJdb: Handle, samples: nat, layerIndex: nat)
    requires mem.Valid() && dJdw in mem.live && dJdb in mem.live
    modifies mem
    ensures mem.Valid() && mem.Snap() == old(mem.Snap())
    ensures mem.calls == old(mem.calls) + [UpdateCall(slot, dJdw, dJdb, samples, layerIndex)]
  {
    mem.calls := mem.calls + [UpdateCall(slot, dJdw, dJdb, samples, layerIndex)];
  }
}

/**
 * The two passes of the network over a batch held in tensor memory: the
 * inference forward pass, and the training pass (feedforward with dropout,
 * backward deltas, gradients, weight updates and cleanup). What is modelled
 * is which tensors each step creates, which kernels it calls on which
 * tensors (the memory's call log), and which tensors it releases. The proofs
 * show that every tensor a pass owns is released exactly once, that the
 * caller's buffers are never released, that only the result of the forward
 * pass survives it, and that the kernel calls of a training pass read every
 * tensor only once all its writes are done.
 */
module Passes {
  import opened Layers
  import opened Network
  import opened Tensors
  import opened Kernels

  /** Tensors allocated before the bound keep their shapes. */
  ghost predicate ShapesKept(before: map<Handle, Shape>, after: map<Handle, Shape>, bound: Handle) {
    forall h :: h < bound && h in before ==> h in after && after[h] == before[h]
  }

  /** One layer of the inference forward pass: the layer's pre-activation is
      released at once, and its input too unless it is the caller's x (the
      first layer). */
  method ForwardLayer(mem: Memory, layer: Layer, input: Handle, first: bool) returns (z: Handle, a: Handle)
    requires mem.Valid() && mem.Readable(input) && mem.shapes[input].length == layer.inputs
    requires !first ==> input in mem.live
    modifies mem
    ensures mem.Valid()
    ensures z == old(mem.next) && a == z + 1 && mem.next == a + 1
    ensures mem.live == old(mem.live) - (if first then {} else {input}) + {a}
    ensures mem.freed == old(mem.freed) + [z] + (if first then [] else [input])
    ensures mem.views == old(mem.views)
    ensures mem.shapes == old(mem.shapes)[z := Shape(old(mem.shapes)[input].entities, layer.outputs)]
                                         [a := Shape(old(mem.shapes)[input].entities, layer.outputs)]
    ensures mem.calls == old(mem.calls) + [ForwardCall(layer, input, z, a)]
  {
    z, a := LayerForward(mem, layer, input);
    mem.Free(z);
    if !first {
      mem.Free(input);
    }
  }

  /** Where the inference forward pass stands, in the memory state s, after
      its first |zs| layers run from the memory state s0 with the caller's
      input x: each layer took the next two handles, input is the one
      activation still alive (or x before the first layer), and every other
      new tensor was released. */
  ghost predicate Forwarded(s: Snapshot, s0: Snapshot, layers: seq<Layer>, x: Handle, e: nat,
                            zs: seq<Handle>, acts: seq<Handle>, input: Handle, frees: seq<Handle>)
  {
    && |layers| > 0 && |zs| == |acts| <= |layers| && s.next == s0.next + 2 * |zs|
    && (forall h :: h in s0.live ==> h < s0.next) && x < s0.next
    && (forall k :: 0 <= k < |zs| ==> zs[k] == s0.next + 2 * k && acts[k] == zs[k] + 1)
    && input == (if |zs| == 0 then x else acts[|zs| - 1])
    && (input in s.live || input in s.views) && input in s.shapes
    && s.shapes[input] == Shape(e, if |zs| == 0 then layers[0].inputs else layers[|zs| - 1].outputs)
    && s.live == s0.live + (if |zs| == 0 then {} else {input})
    && s.views == s0.views && ShapesKept(s0.shapes, s.shapes, s0.next)
    && s.freed == s0.freed + frees
    && (forall h :: h in frees <==> s0.next <= h < s.next && h != input)
  }

  /** One more layer takes the forward pass one layer further. */
  lemma ForwardedStep(s0: Snapshot, before: Snapshot, after: Snapshot, layers: seq<Layer>, x: Handle, e: nat,
                      zs: seq<Handle>, acts: seq<Handle>, input: Handle, frees: seq<Handle>, z: Handle, a: Handle)
    requires |zs| < |layers| && Forwarded(before, s0, layers, x, e, zs, acts, input, frees)
    requires z == before.next && a == z + 1 && after.next == a + 1
    requires after.live == before.live - (if |zs| == 0 then {} else {input}) + {a}
    requires after.freed == before.freed + [z] + (if |zs| == 0 then [] else [input])
    requires after.views == before.views
    requires after.shapes == before.shapes[z := Shape(e, layers[|zs|].outputs)][a := Shape(e, layers[|zs|].outputs)]
    ensures Forwarded(after, s0, layers, x, e, zs + [z], acts + [a], a,
                      frees + [z] + (if |zs| == 0 then [] else [input]))
  {
    var zs', acts' := zs + [z], acts + [a];
    assert forall k :: 0 <= k < |zs| ==> zs'[k] == zs[k] && acts'[k] == acts[k];
  }

  /** The body of the inference forward loop: layer i runs on input and its
      kernel call joins the log c0 of the earlier layers' calls. */
  method ForwardNext(mem: Memory, layers: seq<Layer>, x: Handle, i: nat, input: Handle, ghost e: nat,
                     ghost s0: Snapshot, ghost zs: seq<Handle>, ghost acts: seq<Handle>, ghost frees: seq<Handle>,
                     ghost c0: seq<Call>)
    returns (z: Handle, a: Handle)
    requires i == |zs| < |layers| && (i > 0 ==> Fits(layers, i))
    requires mem.Valid() && Forwarded(mem.Snap(), s0, layers, x, e, zs, acts, input, frees)
    requires mem.calls == c0 + FeedCalls(layers, x, zs, acts, NoMasks(i))
    modifies mem
    ensures mem.Valid()
    ensures Forwarded(mem.Snap(), s0, layers, x, e, zs + [z], acts + [a], a, frees + [z] + (if i == 0 then [] else [input]))
    ensures mem.calls == c0 + FeedCalls(layers, x, zs + [z], acts + [a], NoMasks(i + 1))
  {
    ghost var before, log := mem.Snap(), mem.calls;
    z, a := ForwardLayer(mem, layers[i], input, i == 0);
    ForwardedStep(s0, before, mem.Snap(), layers, x, e, zs, acts, input, frees, z, a);
    ForwardCallsStep(c0, log, mem.calls, layers, x, zs, acts, input, z, a);
  }

  /** The inference forward pass: each layer's pre-activation is released at
      once, each intermediate activation as soon as the next layer has read it;
      the caller's input is never released. zs and acts are the tensors each
      layer produced, frees the releases in order. */
  method Forward(mem: Memory, layers: seq<Layer>, x: Handle)
    returns (yHat: Handle, ghost zs: seq<Handle>, ghost acts: seq<Handle>, ghost frees: seq<Handle>)
    requires mem.Valid() && ValidChain(layers)
    requires mem.Readable(x) && mem.shapes[x].length == layers[0].inputs
    modifies mem
    ensures mem.Valid()
    ensures |zs| == |layers| && |acts| == |layers| && yHat == acts[|layers| - 1]
    // every tensor of the pass is new, and the result is the only one still alive
    ensures forall k :: 0 <= k < |layers| ==> old(mem.next) <= zs[k] < acts[k] < mem.next
    ensures mem.live == old(mem.live) + {yHat} && yHat !in old(mem.live)
    ensures mem.views == old(mem.views)
    ensures yHat in mem.shapes && mem.shapes[yHat] == Shape(old(mem.shapes)[x].entities, layers[|layers| - 1].outputs)
    ensures ShapesKept(old(mem.shapes), mem.shapes, old(mem.next))
    // the releases: exactly the new tensors other than the result, every
    // pre-activation and every activation but the last among them
    ensures mem.freed == old(mem.freed) + frees
    ensures forall h :: h in frees <==> old(mem.next) <= h < mem.next && h != yHat
    ensures forall k :: 0 <= k < |layers| ==> zs[k] in frees
    ensures forall k :: 0 <= k < |layers| - 1 ==> acts[k] in frees
    ensures x !in frees
    // the kernels: each layer's forward step, fed with x, then with the
    // previous layer's activation
    ensures mem.calls == old(mem.calls) + FeedCalls(layers, x, zs, acts, NoMasks(|layers|))
  {
    ghost var c0 := mem.calls;
    ghost var s0 := mem.Snap();
    ghost var e := mem.shapes[x].entities;
    var input := x;
    var i := 0;
    zs, acts, frees := [], [], [];
    while i < |layers|
      invariant 0 <= i <= |layers| && |zs| == i
      invariant mem.Valid() && Forwarded(mem.Snap(), s0, layers, x, e, zs, acts, input, frees)
      invariant mem.calls == c0 + FeedCalls(layers, x, zs, acts, NoMasks(i))
    {
      assert i > 0 ==> Fits(layers, i);
      var z, a := ForwardNext(mem, layers, x, i, input, e, s0, zs, acts, frees, c0);
      frees := frees + [z] + (if i == 0 then [] else [input]);
      input := a;
      zs, acts := zs + [z], acts + [a];
      i := i + 1;
    }
    yHat := input;
  }

  /** How many handles a feedforward step takes after its pre-activation and
      activation: one more when it allocated a dropout mask. */
  function Width(mask: Slot): (w: nat)
    ensures w == 1 || w == 2
    ensures mask.Tensor? <==> w == 2
  {
    if mask.Tensor? then 2 else 1
  }

  /** The input of layer k: the batch x for the first layer, the previous
      layer's activation otherwise. */
  function InputOf(x: Handle, acts: seq<Handle>, k: nat): Handle
    requires k <= |acts|
  {
    if k == 0 then x else acts[k - 1]
  }

  /** n slots without a dropout mask. */
  function NoMasks(n: nat): (r: seq<Slot>)
    ensures |r| == n
  {
    if n == 0 then [] else NoMasks(n - 1) + [Empty]
  }

  /** The kernel calls of one feedforward step: the layer's forward step, then
      the product of the activation with its dropout mask when it has one. */
  function StepCalls(layer: Layer, input: Handle, z: Handle, a: Handle, mask: Slot): seq<Call> {
    [ForwardCall(layer, input, z, a)] + (if mask.Tensor? then [HadamardCall(a, mask.handle)] else [])
  }

  /** The kernel calls of the first |zs| feedforward steps, layer after layer. */
  function FeedCalls(layers: seq<Layer>, x: Handle, zs: seq<Handle>, acts: seq<Handle>, ms: seq<Slot>): seq<Call>
    requires |zs| <= |layers| && |acts| == |zs| && |ms| == |zs|
    decreases |zs|
  {
    if |zs| == 0 then []
    else
      var k := |zs| - 1;
      FeedCalls(layers, x, zs[..k], acts[..k], ms[..k]) + StepCalls(layers[k], InputOf(x, acts, k), zs[k], acts[k], ms[k])
  }

  /** One more step adds its calls. */
  lemma FeedCallsExtend(layers: seq<Layer>, x: Handle, zs: seq<Handle>, acts: seq<Handle>, ms: seq<Slot>,
                        z: Handle, a: Handle, mask: Slot)
    requires |zs| < |layers| && |acts| == |zs| && |ms| == |zs|
    ensures FeedCalls(layers, x, zs + [z], acts + [a], ms + [mask])
         == FeedCalls(layers, x, zs, acts, ms) + StepCalls(layers[|zs|], InputOf(x, acts, |zs|), z, a, mask)
  {
    var zs', acts', ms', k := zs + [z], acts + [a], ms + [mask], |zs|;
    assert zs'[..k] == zs && acts'[..k] == acts && ms'[..k] == ms;
    assert zs'[k] == z && acts'[k] == a && ms'[k] == mask;
    assert InputOf(x, acts', k) == InputOf(x, acts, k);
  }

  /** A call log that held the calls of the first |zs| feedforward steps,
      extended by the calls of the next step, holds the calls of one more
      step. */
  lemma FeedCallsStep(log: seq<Call>, before: seq<Call>, after: seq<Call>, layers: seq<Layer>, x: Handle,
                      zs: seq<Handle>, acts: seq<Handle>, ms: seq<Slot>, z: Handle, a: Handle, mask: Slot)
    requires |zs| < |layers| && |acts| == |zs| && |ms| == |zs|
    requires before == log + FeedCalls(layers, x, zs, acts, ms)
    requires after == before + StepCalls(layers[|zs|], InputOf(x, acts, |zs|), z, a, mask)
    ensures after == log + FeedCalls(layers, x, zs + [z], acts + [a], ms + [mask])
  {
    FeedCallsExtend(layers, x, zs, acts, ms, z, a, mask);
    AppendTwice(log, FeedCalls(layers, x, zs, acts, ms), StepCalls(layers[|zs|], InputOf(x, acts, |zs|), z, a, mask));
  }

  /** The same for a step of the inference forward pass, which takes no
      dropout mask. */
  lemma ForwardCallsStep(log: seq<Call>, before: seq<Call>, after: seq<Call>, layers: seq<Layer>, x: Handle,
                         zs: seq<Handle>, acts: seq<Handle>, input: Handle, z: Handle, a: Handle)
    requires |zs| < |layers| && |acts| == |zs| && input == InputOf(x, acts, |zs|)
    requires before == log + FeedCalls(layers, x, zs, acts, NoMasks(|zs|))
    requires after == before + [ForwardCall(layers[|zs|], input, z, a)]
    ensures after == log + FeedCalls(layers, x, zs + [z], acts + [a], NoMasks(|zs| + 1))
  {
    assert StepCalls(layers[|zs|], input, z, a, Empty) == [ForwardCall(layers[|zs|], input, z, a)];
    FeedCallsStep(log, before, after, layers, x, zs, acts, NoMasks(|zs|), z, a, Empty);
  }

  /** Appending to a call log in two steps appends the two parts at once. */
  lemma AppendTwice(log: seq<Call>, first: seq<Call>, second: seq<Call>)
    ensures log + first + second == log + (first + second)
  {
  }

  /** The handles the first |zs| feedforward steps took, in the range lo up to
      hi: for each layer its pre-activation, then its activation, then its
      dropout mask when it has one, layer after layer. */
  ghost predicate Steps(zs: seq<Handle>, acts: seq<Handle>, masks: seq<Slot>, lo: Handle, hi: Handle) {
    && |acts| == |zs| && |masks| == |zs|
    && (|zs| == 0 ==> hi == lo)
    && (|zs| > 0 ==> zs[0] == lo && hi == acts[|zs| - 1] + Width(masks[|zs| - 1]))
    && (forall k {:trigger acts[k]} :: 0 <= k < |zs| ==> acts[k] == zs[k] + 1)
    && (forall k :: 0 <= k < |zs| && masks[k].Tensor? ==> masks[k].handle == acts[k] + 1)
    && (forall k {:trigger masks[k]} :: 0 <= k < |zs| - 1 ==> zs[k + 1] == acts[k] + Width(masks[k]))
  }

  /** One more step continues the layout. */
  lemma StepsExtend(zs: seq<Handle>, acts: seq<Handle>, masks: seq<Slot>, lo: Handle, hi: Handle,
                    z: Handle, a: Handle, mask: Slot)
    requires Steps(zs, acts, masks, lo, hi)
    requires z == hi && a == z + 1 && (mask.Tensor? ==> mask.handle == a + 1)
    ensures Steps(zs + [z], acts + [a], masks + [mask], lo, a + Width(mask))
  {
    var zs', acts', masks' := zs + [z], acts + [a], masks + [mask];
    forall k | 0 <= k < |zs'| - 1
      ensures zs'[k + 1] == acts'[k] + Width(masks'[k])
    {
      if k + 1 < |zs| {
        assert masks[k] == masks'[k];
      }
    }
  }

  /** The steps of a layout start at lo and go up: step k starts at lo or above. */
  lemma {:induction false} StepLower(zs: seq<Handle>, acts: seq<Handle>, masks: seq<Slot>, lo: Handle, hi: Handle, k: nat)
    requires Steps(zs, acts, masks, lo, hi) && k < |zs|
    ensures lo <= zs[k]
    decreases k
  {
    if k > 0 {
      StepLower(zs, acts, masks, lo, hi, k - 1);
      assert zs[k] == acts[k - 1] + Width(masks[k - 1]);
    }
  }

  /** The steps of a layout end at hi: step k ends at hi or below. */
  lemma {:induction false} StepUpper(zs: seq<Handle>, acts: seq<Handle>, masks: seq<Slot>, lo: Handle, hi: Handle, k: nat)
    requires Steps(zs, acts, masks, lo, hi) && k < |zs|
    ensures acts[k] + Width(masks[k]) <= hi
    decreases |zs| - k
  {
    if k + 1 < |zs| {
      StepUpper(zs, acts, masks, lo, hi, k + 1);
      assert zs[k + 1] == acts[k] + Width(masks[k]);
      assert acts[k + 1] == zs[k + 1] + 1;
    }
  }

  /** Every handle of a layout lies in the range lo up to hi. */
  lemma StepsBounds(zs: seq<Handle>, acts: seq<Handle>, masks: seq<Slot>, lo: Handle, hi: Handle)
    requires Steps(zs, acts, masks, lo, hi)
    ensures forall k :: 0 <= k < |zs| ==> lo <= zs[k] && acts[k] < hi
    ensures forall k :: 0 <= k < |zs| && masks[k].Tensor? ==> masks[k].handle < hi
    ensures lo <= hi
  {
    forall k | 0 <= k < |zs|
      ensures lo <= zs[k] && acts[k] < hi
      ensures masks[k].Tensor? ==> masks[k].handle < hi
    {
      StepLower(zs, acts, masks, lo, hi, k);
      StepUpper(zs, acts, masks, lo, hi, k);
    }
    if |zs| > 0 {
      StepLower(zs, acts, masks, lo, hi, |zs| - 1);
    }
  }

  /** Step k of a layout takes the handles from its pre-activation up to the
      next step's, all within lo up to hi. */
  lemma StepWithin(zs: seq<Handle>, acts: seq<Handle>, masks: seq<Slot>, lo: Handle, hi: Handle, k: nat)
    requires Steps(zs, acts, masks, lo, hi) && k < |zs|
    ensures lo <= zs[k] && acts[k] == zs[k] + 1 && acts[k] + Width(masks[k]) <= hi
    ensures masks[k].Tensor? ==> masks[k].handle == acts[k] + 1
    ensures k + 1 < |zs| ==> zs[k + 1] == acts[k] + Width(masks[k])
    ensures k + 1 == |zs| ==> hi == acts[k] + Width(masks[k])
  {
    StepLower(zs, acts, masks, lo, hi, k);
    StepUpper(zs, acts, masks, lo, hi, k);
  }


  /** Where the feedforward phase of a training pass leaves its tensors: the
      steps of all layers, where the output layer took no mask. */
  ghost predicate Layout(zs: seq<Handle>, acts: seq<Handle>, masks: seq<Slot>, lo: Handle, hi: Handle) {
    && |zs| > 0 && |masks| == |zs| - 1
    && Steps(zs, acts, masks + [Empty], lo, hi)
  }

  /** The tensors of a layout are distinct and lie in the range lo up to hi. */
  lemma LayoutBounds(zs: seq<Handle>, acts: seq<Handle>, masks: seq<Slot>, lo: Handle, hi: Handle)
    requires Layout(zs, acts, masks, lo, hi)
    ensures forall k :: 0 <= k < |zs| ==> lo <= zs[k] && acts[k] == zs[k] + 1 && acts[k] < hi
    ensures forall k :: 0 <= k < |masks| && masks[k].Tensor? ==> masks[k].handle == acts[k] + 1 && masks[k].handle < hi
  {
    StepsBounds(zs, acts, masks + [Empty], lo, hi);
    forall k | 0 <= k < |masks|
      ensures masks[k].Tensor? ==> masks[k].handle == acts[k] + 1 && masks[k].handle < hi
    {
      assert (masks + [Empty])[k] == masks[k];
    }
  }

  /** The pre-activation, the activation and the mask (when there is one)
      of a step all have the shape s. */
  ghost predicate Shaped(shapes: map<Handle, Shape>, z: Handle, a: Handle, mask: Slot, s: Shape) {
    && z in shapes && shapes[z] == s
    && a in shapes && shapes[a] == s
    && (mask.Tensor? ==> mask.handle in shapes && shapes[mask.handle] == s)
  }

  /** Each of the first |zs| layers' tensors has the entities e and that
      layer's output width. */
  ghost predicate LayerShapes(shapes: map<Handle, Shape>, zs: seq<Handle>, acts: seq<Handle>, masks: seq<Slot>,
                              layers: seq<Layer>, e: nat)
  {
    && |acts| == |zs| && |masks| == |zs| && |zs| <= |layers|
    && forall k :: 0 <= k < |zs| ==> Shaped(shapes, zs[k], acts[k], masks[k], Shape(e, layers[k].outputs))
  }

  /** The tensors one feedforward step allocates. */
  function StepHandles(z: Handle, a: Handle, mask: Slot): set<Handle> {
    {z, a} + (if mask.Tensor? then {mask.handle} else {})
  }

  /** The shapes after one feedforward step gave its tensors the shape s. */
  function StepShapes(shapes: map<Handle, Shape>, z: Handle, a: Handle, mask: Slot, s: Shape): map<Handle, Shape> {
    var m := shapes[z := s][a := s];
    if mask.Tensor? then m[mask.handle := s] else m
  }

  /** The handles a step allocates are exactly the next ones in order. */
  lemma StepRange(z: Handle, a: Handle, mask: Slot)
    requires a == z + 1 && (mask.Tensor? ==> mask.handle == a + 1)
    ensures forall h :: h in StepHandles(z, a, mask) <==> z <= h < a + Width(mask)
  {
  }

  /** A step allocating from hi on gives its tensors their shape and keeps the
      shapes of everything below hi. */
  lemma StepShapesKept(origin: map<Handle, Shape>, before: map<Handle, Shape>, n0: Handle, hi: Handle,
                       z: Handle, a: Handle, mask: Slot, s: Shape)
    requires ShapesKept(origin, before, n0) && n0 <= hi
    requires z == hi && a == z + 1 && (mask.Tensor? ==> mask.handle == a + 1)
    ensures ShapesKept(before, StepShapes(before, z, a, mask, s), hi)
    ensures ShapesKept(origin, StepShapes(before, z, a, mask, s), n0)
    ensures Shaped(StepShapes(before, z, a, mask, s), z, a, mask, s)
  {
  }

  /** A step allocating from hi on extends the per-layer shapes, and the
      earlier tensors, all below hi, keep theirs. */
  lemma LayerShapesExtend(before: map<Handle, Shape>, zs: seq<Handle>, acts: seq<Handle>, masks: seq<Slot>,
                          layers: seq<Layer>, e: nat, lo: Handle, hi: Handle, z: Handle, a: Handle, mask: Slot)
    requires LayerShapes(before, zs, acts, masks, layers, e) && Steps(zs, acts, masks, lo, hi) && |zs| < |layers|
    requires z == hi && a == z + 1 && (mask.Tensor? ==> mask.handle == a + 1)
    ensures LayerShapes(StepShapes(before, z, a, mask, Shape(e, layers[|zs|].outputs)),
                        zs + [z], acts + [a], masks + [mask], layers, e)
  {
    var s := Shape(e, layers[|zs|].outputs);
    var after := StepShapes(before, z, a, mask, s);
    StepsBounds(zs, acts, masks, lo, hi);
    StepShapesKept(before, before, hi, hi, z, a, mask, s);
    var zs', acts', masks' := zs + [z], acts + [a], masks + [mask];
    forall k | 0 <= k < |zs'|
      ensures Shaped(after, zs'[k], acts'[k], masks'[k], Shape(e, layers[k].outputs))
    {
      if k < |zs| {
        assert Shaped(before, zs[k], acts[k], masks[k], Shape(e, layers[k].outputs));
        assert zs'[k] == zs[k] && acts'[k] == acts[k] && masks'[k] == masks[k];
      }
    }
  }

  /** One layer of the feedforward phase: the layer's pre-activation and
      activation, then, for a fully connected layer with dropout on, a new
      dropout mask of the activation's shape multiplied into it in place. */
  method ForwardStep(mem: Memory, layer: Layer, input: Handle, dropout: real)
    returns (z: Handle, a: Handle, mask: Slot)
    requires mem.Valid() && mem.Readable(input) && mem.shapes[input].length == layer.inputs
    modifies mem
    ensures mem.Valid()
    ensures z == old(mem.next) && a == z + 1
    ensures mask.Tensor? <==> layer.kind == FullyConnected && dropout > 0.0
    ensures mask.Tensor? ==> mask.handle == a + 1
    ensures mem.next == a + Width(mask)
    ensures mem.live == old(mem.live) + StepHandles(z, a, mask)
    ensures mem.views == old(mem.views) && mem.freed == old(mem.freed)
    ensures mem.shapes == StepShapes(old(mem.shapes), z, a, mask, Shape(old(mem.shapes)[input].entities, layer.outputs))
    ensures mem.calls == old(mem.calls) + StepCalls(layer, input, z, a, mask)
  {
    z, a := LayerForward(mem, layer, input);
    mask := Empty;
    if layer.kind == FullyConnected && dropout > 0.0 {
      var m := mem.Alloc(Shape(mem.shapes[a].entities, mem.shapes[a].length));
      mask := Tensor(m);
      InPlaceHadamardProduct(mem, a, m);
    }
  }

  /** From the memory state s0 to s, tensors were only allocated: the owned
      tensors are those of s0 and the new ones, nothing was released, and the
      tensors of s0 kept their shapes. */
  ghost predicate Grew(s0: Snapshot, s: Snapshot) {
    && s0.next <= s.next
    && (forall h :: h in s.live <==> h in s0.live || s0.next <= h < s.next)
    && s.views == s0.views && s.freed == s0.freed
    && ShapesKept(s0.shapes, s.shapes, s0.next)
  }

  /** Growing twice is growing. */
  lemma GrewTwice(s0: Snapshot, s1: Snapshot, s2: Snapshot)
    requires Grew(s0, s1) && Grew(s1, s2)
    ensures Grew(s0, s2)
  {
  }

  /** The memory grew from the state s0 on and is consistent. */
  ghost predicate Grown(mem: Memory, s0: Snapshot)
    reads mem
  {
    mem.Valid() && Grew(s0, mem.Snap())
  }

  /** Where the feedforward phase stands, in the memory state s, after its
      first |zs| layers run from the memory state s0: only the steps' tensors
      were allocated, in layout order, each shaped for its layer, and nothing
      was released. */
  ghost predicate Fed(s: Snapshot, layers: seq<Layer>, dropout: real, e: nat, s0: Snapshot,
                      zs: seq<Handle>, acts: seq<Handle>, ms: seq<Slot>)
  {
    && |zs| <= |layers| && Grew(s0, s)
    && Steps(zs, acts, ms, s0.next, s.next)
    && (forall k :: 0 <= k < |zs| ==> (ms[k].Tensor? <==> layers[k].kind == FullyConnected && dropout > 0.0))
    && LayerShapes(s.shapes, zs, acts, ms, layers, e)
  }

  /** After the whole feedforward phase, its tensors follow the layout from
      where it started, and a layer has a dropout mask exactly when it is
      fully connected and dropout is on. */
  lemma FedLayout(s: Snapshot, layers: seq<Layer>, dropout: real, e: nat, s0: Snapshot,
                  zs: seq<Handle>, acts: seq<Handle>, masks: seq<Slot>)
    requires |zs| == |layers| > 0 && |masks| == |layers| - 1
    requires Fed(s, layers, dropout, e, s0, zs, acts, masks + [Empty])
    ensures Layout(zs, acts, masks, s0.next, s.next)
    ensures forall k :: 0 <= k < |layers| - 1 ==> (masks[k].Tensor? <==> layers[k].kind == FullyConnected && dropout > 0.0)
  {
    forall k | 0 <= k < |layers| - 1
      ensures masks[k].Tensor? <==> layers[k].kind == FullyConnected && dropout > 0.0
    {
      assert (masks + [Empty])[k] == masks[k];
    }
  }

  /** A tensor that existed before the memory grew is still readable, with the
      same shape. */
  lemma GrewKeeps(s0: Snapshot, s: Snapshot, h: Handle)
    requires Grew(s0, s) && h < s0.next && (h in s0.live || h in s0.views) && h in s0.shapes
    ensures (h in s.live || h in s.views) && h in s.shapes && s.shapes[h] == s0.shapes[h]
  {
  }

  /** After the whole feedforward phase, its tensors are owned and alive. */
  lemma FedAlive(s: Snapshot, layers: seq<Layer>, dropout: real, e: nat, s0: Snapshot,
                 zs: seq<Handle>, acts: seq<Handle>, masks: seq<Slot>)
    requires |zs| == |layers| > 0 && |masks| == |layers| - 1
    requires Fed(s, layers, dropout, e, s0, zs, acts, masks + [Empty])
    ensures forall k :: 0 <= k < |layers| ==> zs[k] in s.live && acts[k] in s.live
    ensures forall k :: 0 <= k < |layers| - 1 && masks[k].Tensor? ==> masks[k].handle in s.live
  {
    var ms := masks + [Empty];
    forall k | 0 <= k < |layers|
      ensures zs[k] in s.live && acts[k] in s.live
      ensures k < |layers| - 1 && masks[k].Tensor? ==> masks[k].handle in s.live
    {
      StepWithin(zs, acts, ms, s0.next, s.next, k);
      if k < |layers| - 1 {
        assert ms[k] == masks[k];
      }
    }
  }

  /** A feedforward step that allocates right after the layout so far, with
      the shape of its layer, takes the phase one layer further. */
  lemma FedExtend(layers: seq<Layer>, dropout: real, e: nat, s0: Snapshot, before: Snapshot, after: Snapshot,
                  zs: seq<Handle>, acts: seq<Handle>, ms: seq<Slot>, z: Handle, a: Handle, mask: Slot)
    requires |zs| < |layers| && Fed(before, layers, dropout, e, s0, zs, acts, ms)
    requires z == before.next && a == z + 1 && (mask.Tensor? ==> mask.handle == a + 1) && after.next == a + Width(mask)
    requires mask.Tensor? <==> layers[|zs|].kind == FullyConnected && dropout > 0.0
    requires after.live == before.live + StepHandles(z, a, mask)
    requires after.views == before.views && after.freed == before.freed
    requires after.shapes == StepShapes(before.shapes, z, a, mask, Shape(e, layers[|zs|].outputs))
    ensures Fed(after, layers, dropout, e, s0, zs + [z], acts + [a], ms + [mask])
  {
    StepsExtend(zs, acts, ms, s0.next, z, z, a, mask);
    StepShapesKept(s0.shapes, before.shapes, s0.next, before.next, z, a, mask, Shape(e, layers[|zs|].outputs));
    GrewStep(s0, before, after, z, a, mask);
    LayerShapesExtend(before.shapes, zs, acts, ms, layers, e, s0.next, before.next, z, a, mask);
    var ms' := ms + [mask];
    assert forall k :: 0 <= k < |zs| ==> ms'[k] == ms[k];
  }

  /** A step that allocates its tensors right after the ones before keeps
      the memory growing from s0. */
  lemma GrewStep(s0: Snapshot, before: Snapshot, after: Snapshot, z: Handle, a: Handle, mask: Slot)
    requires Grew(s0, before) && z == before.next && a == z + 1 && (mask.Tensor? ==> mask.handle == a + 1)
    requires after.next == a + Width(mask) && after.live == before.live + StepHandles(z, a, mask)
    requires after.views == before.views && after.freed == before.freed
    requires ShapesKept(s0.shapes, after.shapes, s0.next)
    ensures Grew(s0, after)
  {
    StepRange(z, a, mask);
  }

  /** The body of the feedforward loop: one more layer, fed with the caller's
      input x for the first layer and with the previous activation after that;
      its kernel calls join the log c0 of the earlier layers' calls. */
  method FeedLayer(mem: Memory, layers: seq<Layer>, i: nat, dropout: real, x: Handle, input: Handle,
                   ghost e: nat, ghost s0: Snapshot, ghost zs: seq<Handle>, ghost acts: seq<Handle>, ghost ms: seq<Slot>,
                   ghost c0: seq<Call>)
    returns (z: Handle, a: Handle, mask: Slot)
    requires i == |zs| < |layers| && (i > 0 ==> Fits(layers, i))
    requires mem.Valid() && Fed(mem.Snap(), layers, dropout, e, s0, zs, acts, ms)
    requires |zs| == 0 ==> input < s0.next && (input in s0.live || input in s0.views)
                           && input in s0.shapes && s0.shapes[input] == Shape(e, layers[0].inputs)
    requires input == InputOf(x, acts, i)
    requires mem.calls == c0 + FeedCalls(layers, x, zs, acts, ms)
    modifies mem
    ensures mem.Valid() && Fed(mem.Snap(), layers, dropout, e, s0, zs + [z], acts + [a], ms + [mask])
    ensures mem.calls == c0 + FeedCalls(layers, x, zs + [z], acts + [a], ms + [mask])
  {
    ghost var before, log := mem.Snap(), mem.calls;
    if i > 0 {
      StepWithin(zs, acts, ms, s0.next, before.next, i - 1);
      assert Shaped(before.shapes, zs[i - 1], acts[i - 1], ms[i - 1], Shape(e, layers[i - 1].outputs));
    }
    z, a, mask := ForwardStep(mem, layers[i], input, dropout);
    FedExtend(layers, dropout, e, s0, before, mem.Snap(), zs, acts, ms, z, a, mask);
    FeedCallsStep(c0, log, mem.calls, layers, x, zs, acts, ms, z, a, mask);
  }

  /** The feedforward phase of a training pass: every layer's pre-activation
      and activation are kept, and after a fully connected layer, when dropout
      is on, a dropout mask is kept too. The output layer never gets a mask,
      which is why the mask list needs one slot fewer than there are layers. */
  method FeedForward(mem: Memory, layers: seq<Layer>, x: Handle, dropout: real)
    returns (zList: seq<Handle>, aList: seq<Handle>, masks: seq<Slot>)
    requires mem.Valid() && ValidChain(layers)
    requires mem.Readable(x) && mem.shapes[x].length == layers[0].inputs
    modifies mem
    ensures |zList| == |layers| && |masks| == |layers| - 1
    ensures mem.Valid() && Fed(mem.Snap(), layers, dropout, old(mem.shapes)[x].entities, old(mem.Snap()), zList, aList, masks + [Empty])
    ensures mem.calls == old(mem.calls) + FeedCalls(layers, x, zList, aList, masks + [Empty])
  {
    var L := |layers|;
    ghost var c0 := mem.calls;
    ghost var s0 := mem.Snap();
    ghost var e := mem.shapes[x].entities;
    zList, aList := [], [];
    var ms := [];
    var i := 0;
    while i < L
      invariant 0 <= i <= L && |zList| == i
      invariant mem.Valid() && Fed(mem.Snap(), layers, dropout, e, s0, zList, aList, ms)
      invariant mem.calls == c0 + FeedCalls(layers, x, zList, aList, ms)
    {
      var input := if i == 0 then x else aList[i - 1];
      assert i > 0 ==> Fits(layers, i);
      var z, a, mask := FeedLayer(mem, layers, i, dropout, x, input, e, s0, zList, aList, ms, c0);
      zList, aList, ms := zList + [z], aList + [a], ms + [mask];
      i := i + 1;
    }
    // the output layer is not fully connected, so it took no mask
    assert IsOutput(layers[L - 1]) && !ms[L - 1].Tensor?;
    masks := ms[..L - 1];
    assert masks + [Empty] == ms;
  }

  /** The tensor holding the delta of layer k once the backward phase is
      done: the output activation for the last layer, the layer's
      pre-activation for the others. */
  function DeltaOf(zs: seq<Handle>, acts: seq<Handle>, k: nat): Handle
    requires |acts| == |zs| && k < |zs|
  {
    if k == |zs| - 1 then acts[k] else zs[k]
  }

  /** The kernel calls of the backward step of hidden layer l: layer l + 1
      writes the delta of layer l into its pre-activation from its own delta,
      then the dropout mask of layer l is applied again when there is one. */
  function DeltaStepCalls(layers: seq<Layer>, zs: seq<Handle>, acts: seq<Handle>, masks: seq<Slot>, l: nat): seq<Call>
    requires |zs| == |layers| && |acts| == |layers| && |masks| == |layers| - 1 && l < |layers| - 1
  {
    [LayerDeltaCall(layers[l + 1], DeltaOf(zs, acts, l + 1), zs[l], layers[l].activation)]
      + (if masks[l].Tensor? then [HadamardCall(zs[l], masks[l].handle)] else [])
  }

  /** The kernel calls of the backward steps from the last hidden layer down
      to layer l. */
  function HiddenDeltaCalls(layers: seq<Layer>, zs: seq<Handle>, acts: seq<Handle>, masks: seq<Slot>, l: nat): seq<Call>
    requires |zs| == |layers| && |acts| == |layers| && |masks| == |layers| - 1 && l <= |layers| - 1
    decreases |layers| - 1 - l
  {
    if l == |layers| - 1 then []
    else HiddenDeltaCalls(layers, zs, acts, masks, l + 1) + DeltaStepCalls(layers, zs, acts, masks, l)
  }

  /** The kernel calls of the backward phase: the output delta against the
      expected outputs y, then the hidden layers from the last down to the
      first. */
  function DeltaCalls(layers: seq<Layer>, y: Handle, zs: seq<Handle>, acts: seq<Handle>, masks: seq<Slot>): seq<Call>
    requires |layers| > 0 && |zs| == |layers| && |acts| == |layers| && |masks| == |layers| - 1
  {
    var L := |layers|;
    [OutputDeltaCall(layers[L - 1], acts[L - 1], y, zs[L - 1])] + HiddenDeltaCalls(layers, zs, acts, masks, 0)
  }

  /** The backward step of hidden layer l: layer l + 1 overwrites the
      pre-activation of layer l with that layer's delta, computed from its own
      delta, and the dropout mask of layer l is applied again when there is
      one. Nothing is allocated or released. */
  method HiddenDelta(mem: Memory, layers: seq<Layer>, l: nat, zList: seq<Handle>, aList: seq<Handle>, masks: seq<Slot>, ghost e: nat)
    requires mem.Valid() && ValidChain(layers) && l < |layers| - 1
    requires |zList| == |layers| && |aList| == |layers| && |masks| == |layers| - 1
    requires forall k :: 0 <= k < |layers| ==> zList[k] in mem.live && aList[k] in mem.live
    requires forall k :: 0 <= k < |layers| - 1 && masks[k].Tensor? ==> mem.Readable(masks[k].handle)
    requires LayerShapes(mem.shapes, zList, aList, masks + [Empty], layers, e)
    modifies mem
    ensures mem.Valid() && mem.Snap() == old(mem.Snap())
    ensures mem.calls == old(mem.calls) + DeltaStepCalls(layers, zList, aList, masks, l)
  {
    var ms := masks + [Empty];
    assert Shaped(mem.shapes, zList[l], aList[l], ms[l], Shape(e, layers[l].outputs));
    assert Shaped(mem.shapes, zList[l + 1], aList[l + 1], ms[l + 1], Shape(e, layers[l + 1].outputs));
    assert Fits(layers, l + 1);
    var deltaNext := if l + 1 == |layers| - 1 then aList[l + 1] else zList[l + 1];
    LayerBackpropagate(mem, layers[l + 1], deltaNext, zList[l], layers[l].activation);
    if masks[l].Tensor? {
      assert ms[l] == masks[l];
      InPlaceHadamardProduct(mem, zList[l], masks[l].handle);
    }
  }

  /** The backward phase: the output layer turns its activation into the
      output delta in place; then, from the last hidden layer down to the
      first, layer l + 1 turns the pre-activation of layer l into that layer's
      delta in place, masked again by the dropout mask when there is one.
      Nothing is allocated or released. deltas[l] is the tensor holding the
      delta of layer l. */
  method BackwardDeltas(mem: Memory, layers: seq<Layer>, y: Handle,
                        zList: seq<Handle>, aList: seq<Handle>, masks: seq<Slot>, ghost e: nat)
    returns (deltas: seq<Handle>)
    requires mem.Valid() && ValidChain(layers)
    requires |zList| == |layers| && |aList| == |layers| && |masks| == |layers| - 1
    requires forall k :: 0 <= k < |layers| ==> zList[k] in mem.live && aList[k] in mem.live
    requires forall k :: 0 <= k < |layers| - 1 && masks[k].Tensor? ==> mem.Readable(masks[k].handle)
    requires LayerShapes(mem.shapes, zList, aList, masks + [Empty], layers, e)
    requires mem.Readable(y) && y in mem.shapes && mem.shapes[y] == Shape(e, layers[|layers| - 1].outputs)
    modifies mem
    ensures mem.Valid() && mem.Snap() == old(mem.Snap())
    ensures mem.calls == old(mem.calls) + DeltaCalls(layers, y, zList, aList, masks)
    ensures |deltas| == |layers|
    ensures deltas[|layers| - 1] == aList[|layers| - 1]
    ensures forall l :: 0 <= l < |layers| - 1 ==> deltas[l] == zList[l]
  {
    var L := |layers|;
    ghost var s0 := mem.Snap();
    var ms := masks + [Empty];
    assert Shaped(mem.shapes, zList[L - 1], aList[L - 1], ms[L - 1], Shape(e, layers[L - 1].outputs));
    OutputBackpropagate(mem, layers[L - 1], aList[L - 1], y, zList[L - 1]);
    ghost var head := mem.calls;
    deltas := [aList[L - 1]];
    var l := L - 2;
    while l >= 0
      invariant -1 <= l <= L - 2
      invariant mem.Valid() && mem.Snap() == s0
      invariant mem.calls == head + HiddenDeltaCalls(layers, zList, aList, masks, l + 1)
      invariant |deltas| == L - 1 - l
      invariant deltas[|deltas| - 1] == aList[L - 1]
      invariant forall k :: l < k < L - 1 ==> deltas[k - l - 1] == zList[k]
    {
      HiddenDelta(mem, layers, l, zList, aList, masks, e);
      AppendTwice(head, HiddenDeltaCalls(layers, zList, aList, masks, l + 1), DeltaStepCalls(layers, zList, aList, masks, l));
      deltas := [zList[l]] + deltas;
      l := l - 1;
    }
  }


  /** In the memory state s, the tensor h may be read and has rows of the
      given length. */
  ghost predicate Ready(s: Snapshot, h: Handle, length: nat) {
    (h in s.live || h in s.views) && h in s.shapes && s.shapes[h].length == length
  }

  /** The tensors the gradient phase reads are readable and have the widths
      of their layers: the batch x, every activation and every delta. */
  ghost predicate Sources(s: Snapshot, layers: seq<Layer>, x: Handle, aList: seq<Handle>, deltas: seq<Handle>)
    requires |layers| > 0 && |aList| == |layers| && |deltas| == |layers|
  {
    && Ready(s, x, layers[0].inputs)
    && forall k :: 0 <= k < |layers| ==> Ready(s, aList[k], layers[k].outputs) && Ready(s, deltas[k], layers[k].outputs)
  }

  /** After the backward phase, the batch, every activation and every delta
      may be read by the gradient phase. */
  lemma DeltaSources(s: Snapshot, layers: seq<Layer>, dropout: real, e: nat, s0: Snapshot, x: Handle,
                     zs: seq<Handle>, acts: seq<Handle>, masks: seq<Slot>, deltas: seq<Handle>)
    requires |zs| == |layers| > 0 && |masks| == |layers| - 1
    requires Fed(s, layers, dropout, e, s0, zs, acts, masks + [Empty]) && Ready(s, x, layers[0].inputs)
    requires |deltas| == |layers| && deltas[|layers| - 1] == acts[|layers| - 1]
    requires forall l :: 0 <= l < |layers| - 1 ==> deltas[l] == zs[l]
    ensures Sources(s, layers, x, acts, deltas)
  {
    FedAlive(s, layers, dropout, e, s0, zs, acts, masks);
    var ms := masks + [Empty];
    forall k | 0 <= k < |layers|
      ensures Ready(s, acts[k], layers[k].outputs) && Ready(s, deltas[k], layers[k].outputs)
    {
      assert Shaped(s.shapes, zs[k], acts[k], ms[k], Shape(e, layers[k].outputs));
    }
  }

  /** Every weighted layer is a layer of the chain and takes the previous
      layer's output. */
  lemma WeightedFit(layers: seq<Layer>)
    requires ValidChain(layers)
    ensures var w := WeightedIndexes(layers);
      forall j :: 0 <= j < |w| ==> w[j] < |layers| && (w[j] > 0 ==> Fits(layers, w[j]))
  {
  }

  /** The body of the gradient loop: the gradient pair of the j-th weighted
      layer, read from that layer's input and delta. */
  method GradientStep(mem: Memory, layers: seq<Layer>, i: nat, x: Handle,
                      aList: seq<Handle>, deltas: seq<Handle>, ghost s0: Snapshot)
    returns (w: Handle, b: Handle)
    requires i < |layers| && (i > 0 ==> Fits(layers, i))
    requires |aList| == |layers| && |deltas| == |layers| && Sources(mem.Snap(), layers, x, aList, deltas)
    requires Grown(mem, s0)
    modifies mem
    ensures Grown(mem, s0) && Sources(mem.Snap(), layers, x, aList, deltas)
    ensures w == old(mem.next) && b == w + 1 && mem.next == b + 1
    ensures mem.calls == old(mem.calls) + [GradientCall(layers[i], InputOf(x, aList, i), deltas[i], w, b)]
  {
    w, b := ComputeGradient(mem, layers[i], if i == 0 then x else aList[i - 1], deltas[i]);
  }

  /** The kernel calls of the gradient phase for its first |dJdw| weighted
      layers: for weighted layer j, the gradient pair dJdw[j], dJdb[j] computed
      from that layer's input and delta. */
  function GradientCalls(layers: seq<Layer>, weighted: seq<nat>, x: Handle, acts: seq<Handle>, deltas: seq<Handle>,
                         dJdw: seq<Handle>, dJdb: seq<Handle>): seq<Call>
    requires |acts| == |layers| && |deltas| == |layers| && |dJdb| == |dJdw| <= |weighted|
    requires forall j :: 0 <= j < |weighted| ==> weighted[j] < |layers|
    decreases |dJdw|
  {
    if |dJdw| == 0 then []
    else
      var j := |dJdw| - 1;
      var w := weighted[j];
      GradientCalls(layers, weighted, x, acts, deltas, dJdw[..j], dJdb[..j])
        + [GradientCall(layers[w], InputOf(x, acts, w), deltas[w], dJdw[j], dJdb[j])]
  }

  /** The gradient phase: for each weighted layer, in index order, the weight
      and bias gradients, computed from the layer's input (the batch for the
      first layer, the previous activation otherwise) and the layer's delta. */
  method Gradients(mem: Memory, layers: seq<Layer>, weighted: seq<nat>, x: Handle,
                   aList: seq<Handle>, deltas: seq<Handle>)
    returns (dJdw: seq<Handle>, dJdb: seq<Handle>)
    requires mem.Valid() && |layers| > 0
    requires forall j :: 0 <= j < |weighted| ==> weighted[j] < |layers| && (weighted[j] > 0 ==> Fits(layers, weighted[j]))
    requires |aList| == |layers| && |deltas| == |layers| && Sources(mem.Snap(), layers, x, aList, deltas)
    modifies mem
    ensures Grown(mem, old(mem.Snap()))
    ensures |dJdw| == |weighted| && |dJdb| == |weighted|
    ensures mem.next == old(mem.next) + 2 * |weighted|
    ensures forall j :: 0 <= j < |weighted| ==> dJdw[j] == old(mem.next) + 2 * j && dJdb[j] == dJdw[j] + 1
    ensures mem.calls == old(mem.calls) + GradientCalls(layers, weighted, x, aList, deltas, dJdw, dJdb)
  {
    ghost var s0, c0 := mem.Snap(), mem.calls;
    dJdw, dJdb := [], [];
    var j := 0;
    while j < |weighted|
      invariant 0 <= j <= |weighted|
      invariant Grown(mem, s0) && Sources(mem.Snap(), layers, x, aList, deltas)
      invariant |dJdw| == j && |dJdb| == j
      invariant mem.next == s0.next + 2 * j
      invariant forall k :: 0 <= k < j ==> dJdw[k] == s0.next + 2 * k && dJdb[k] == dJdw[k] + 1
      invariant mem.calls == c0 + GradientCalls(layers, weighted, x, aList, deltas, dJdw, dJdb)
    {
      ghost var log := mem.calls;
      var w, b := GradientStep(mem, layers, weighted[j], x, aList, deltas, s0);
      GradientCallsStep(c0, log, mem.calls, layers, weighted, x, aList, deltas, dJdw, dJdb, w, b);
      dJdw, dJdb := dJdw + [w], dJdb + [b];
      j := j + 1;
    }
  }

  /** A call log that held the calls for the first |dJdw| gradient pairs,
      extended by the call for the next pair, holds the calls for one pair
      more. */
  lemma GradientCallsStep(log: seq<Call>, before: seq<Call>, after: seq<Call>, layers: seq<Layer>, weighted: seq<nat>,
                          x: Handle, acts: seq<Handle>, deltas: seq<Handle>, dJdw: seq<Handle>, dJdb: seq<Handle>,
                          w: Handle, b: Handle)
    requires |acts| == |layers| && |deltas| == |layers| && |dJdb| == |dJdw| < |weighted|
    requires forall j :: 0 <= j < |weighted| ==> weighted[j] < |layers|
    requires before == log + GradientCalls(layers, weighted, x, acts, deltas, dJdw, dJdb)
    requires after == before + [GradientCall(layers[weighted[|dJdw|]], InputOf(x, acts, weighted[|dJdw|]), deltas[weighted[|dJdw|]], w, b)]
    ensures after == log + GradientCalls(layers, weighted, x, acts, deltas, dJdw + [w], dJdb + [b])
  {
    var j := |dJdw|;
    assert (dJdw + [w])[..j] == dJdw && (dJdb + [b])[..j] == dJdb;
    AppendTwice(log, GradientCalls(layers, weighted, x, acts, deltas, dJdw, dJdb),
                [GradientCall(layers[weighted[j]], InputOf(x, acts, weighted[j]), deltas[weighted[j]], w, b)]);
  }

  /** The updater calls for the first n weighted layers: slot j gets the
      gradient pair j, the batch size and the index of weighted layer j. */
  function UpdateCalls(weighted: seq<nat>, dJdw: seq<Handle>, dJdb: seq<Handle>, samples: nat, n: nat): seq<Call>
    requires n <= |weighted| && |dJdw| == |weighted| && |dJdb| == |weighted|
  {
    if n == 0 then []
    else UpdateCalls(weighted, dJdw, dJdb, samples, n - 1) + [UpdateCall(n - 1, dJdw[n - 1], dJdb[n - 1], samples, weighted[n - 1])]
  }

  /** The update phase: the updater is called once per weighted layer with
      that layer's gradients, which are released right after. The gradients
      are the handles lo up to lo + 2 * |weighted|, in pairs. The updater may
      only be handed live tensors, so each call precedes the release of its
      pair. */
  method UpdateAndRelease(mem: Memory, weighted: seq<nat>, dJdw: seq<Handle>, dJdb: seq<Handle>, samples: nat, ghost lo: Handle)
    returns (ghost frees: seq<Handle>)
    requires mem.Valid()
    requires |dJdw| == |weighted| && |dJdb| == |weighted|
    requires forall j :: 0 <= j < |weighted| ==> dJdw[j] == lo + 2 * j && dJdb[j] == dJdw[j] + 1
    requires forall h :: lo <= h < lo + 2 * |weighted| ==> h in mem.live
    modifies mem
    ensures mem.Valid()
    ensures mem.calls == old(mem.calls) + UpdateCalls(weighted, dJdw, dJdb, samples, |weighted|)
    ensures forall h :: h in mem.live <==> h in old(mem.live) && !(lo <= h < lo + 2 * |weighted|)
    ensures mem.freed == old(mem.freed) + frees
    ensures forall h :: h in frees <==> lo <= h < lo + 2 * |weighted|
    ensures mem.views == old(mem.views) && mem.next == old(mem.next) && mem.shapes == old(mem.shapes)
  {
    frees := [];
    var i := 0;
    while i < |weighted|
      invariant 0 <= i <= |weighted|
      invariant mem.Valid()
      invariant mem.calls == old(mem.calls) + UpdateCalls(weighted, dJdw, dJdb, samples, i)
      invariant forall h :: h in mem.live <==> h in old(mem.live) && !(lo <= h < lo + 2 * i)
      invariant mem.freed == old(mem.freed) + frees
      invariant forall h :: h in frees <==> lo <= h < lo + 2 * i
      invariant mem.views == old(mem.views) && mem.next == old(mem.next) && mem.shapes == old(mem.shapes)
    {
      ApplyUpdate(mem, i, dJdw[i], dJdb[i], samples, weighted[i]);
      mem.Free(dJdw[i]);
      mem.Free(dJdb[i]);
      frees := frees + [dJdw[i], dJdb[i]];
      i := i + 1;
    }
  }

  /** Releases the tensors of one feedforward step: its pre-activation, its
      activation and its dropout mask when it has one. */
  method ReleaseStep(mem: Memory, z: Handle, a: Handle, mask: Slot) returns (ghost frees: seq<Handle>)
    requires mem.Valid() && a == z + 1 && (mask.Tensor? ==> mask.handle == a + 1)
    requires forall h :: z <= h < a + Width(mask) ==> h in mem.live
    modifies mem
    ensures mem.Valid()
    ensures forall h :: h in mem.live <==> h in old(mem.live) && !(z <= h < a + Width(mask))
    ensures mem.freed == old(mem.freed) + frees
    ensures forall h :: h in frees <==> z <= h < a + Width(mask)
    ensures mem.views == old(mem.views) && mem.next == old(mem.next) && mem.shapes == old(mem.shapes)
    ensures mem.calls == old(mem.calls)
  {
    mem.Free(z);
    mem.Free(a);
    frees := [z, a];
    if mask.Tensor? {
      mem.Free(mask.handle);
      frees := frees + [mask.handle];
    }
  }

  /** The cleanup phase: for every layer but the last its pre-activation, its
      activation and its dropout mask when it has one; then the last layer's
      pre-activation and activation. These are exactly the feedforward
      tensors, the handles lo up to hi. */
  method Release(mem: Memory, zList: seq<Handle>, aList: seq<Handle>, masks: seq<Slot>, ghost lo: Handle, ghost hi: Handle)
    returns (ghost frees: seq<Handle>)
    requires mem.Valid()
    requires |zList| > 0 && |masks| == |zList| - 1 && Steps(zList, aList, masks + [Empty], lo, hi)
    requires forall h :: lo <= h < hi ==> h in mem.live
    modifies mem
    ensures mem.Valid()
    ensures forall h :: h in mem.live <==> h in old(mem.live) && !(lo <= h < hi)
    ensures mem.freed == old(mem.freed) + frees
    ensures forall h :: h in frees <==> lo <= h < hi
    ensures mem.views == old(mem.views) && mem.next == old(mem.next) && mem.shapes == old(mem.shapes)
    ensures mem.calls == old(mem.calls)
  {
    var L := |zList|;
    ghost var ms := masks + [Empty];
    StepWithin(zList, aList, ms, lo, hi, 0);
    frees := [];
    var i := 0;
    while i < L - 1
      invariant 0 <= i <= L - 1
      invariant mem.Valid()
      invariant lo <= zList[i]
      invariant forall h :: h in mem.live <==> h in old(mem.live) && !(lo <= h < zList[i])
      invariant mem.freed == old(mem.freed) + frees
      invariant forall h :: h in frees <==> lo <= h < zList[i]
      invariant mem.views == old(mem.views) && mem.next == old(mem.next) && mem.shapes == old(mem.shapes)
      invariant mem.calls == old(mem.calls)
    {
      StepWithin(zList, aList, ms, lo, hi, i);
      assert ms[i] == masks[i];
      var step := ReleaseStep(mem, zList[i], aList[i], masks[i]);
      frees := frees + step;
      i := i + 1;
    }
    StepWithin(zList, aList, ms, lo, hi, L - 1);
    assert ms[L - 1] == Empty;
    var step := ReleaseStep(mem, zList[L - 1], aList[L - 1], Empty);
    frees := frees + step;
  }

  /** What one training pass did, for the contract of Backpropagate: the
      feedforward tensors, which take the handles lo up to hi, the dropout
      masks, the deltas, the gradients, the kernel calls in order and the
      releases. */
  datatype Pass = Pass(
    zs: seq<Handle>, acts: seq<Handle>, masks: seq<Slot>, deltas: seq<Handle>,
    dJdw: seq<Handle>, dJdb: seq<Handle>, lo: Handle, hi: Handle,
    calls: seq<Call>, frees: seq<Handle>)

  /** How the phases of a pass are wired together: one pre-activation and
      activation per layer, laid out from lo, a dropout mask exactly after the
      fully connected layers when dropout is on, the deltas held in the output
      activation and the hidden pre-activations, one gradient pair per
      weighted layer after the feedforward tensors, and the kernel calls:
      feedforward layer after layer from x, the output delta against y and
      the hidden deltas from the last layer down, one gradient per weighted
      layer from its input and its delta, and one updater call per weighted
      layer with the batch size. The caller's x and y come before lo. */
  ghost predicate Wired(p: Pass, layers: seq<Layer>, weighted: seq<nat>, x: Handle, y: Handle, dropout: real, samples: nat)
    requires ValidChain(layers) && weighted == WeightedIndexes(layers)
  {
    && |p.zs| == |layers| && |p.acts| == |layers| && |p.masks| == |layers| - 1 && |p.deltas| == |layers|
    && (forall k :: 0 <= k < |layers| - 1 ==> (p.masks[k].Tensor? <==> layers[k].kind == FullyConnected && dropout > 0.0))
    && p.deltas[|layers| - 1] == p.acts[|layers| - 1]
    && (forall l :: 0 <= l < |layers| - 1 ==> p.deltas[l] == p.zs[l])
    && x < p.lo && y < p.lo && Layout(p.zs, p.acts, p.masks, p.lo, p.hi)
    && |p.dJdw| == |weighted| && |p.dJdb| == |weighted|
    && (forall j :: 0 <= j < |weighted| ==> p.dJdw[j] == p.hi + 2 * j && p.dJdb[j] == p.dJdw[j] + 1)
    && p.calls == FeedCalls(layers, x, p.zs, p.acts, p.masks + [Empty])
                + DeltaCalls(layers, y, p.zs, p.acts, p.masks)
                + GradientCalls(layers, weighted, x, p.acts, p.deltas, p.dJdw, p.dJdb)
                + UpdateCalls(weighted, p.dJdw, p.dJdb, samples, |weighted|)
  }

  /** Every tensor the pass allocated appears among its releases. */
  ghost predicate AllReleased(p: Pass) {
    && (forall k :: 0 <= k < |p.zs| ==> p.zs[k] in p.frees)
    && (forall k :: 0 <= k < |p.acts| ==> p.acts[k] in p.frees)
    && (forall k :: 0 <= k < |p.masks| && p.masks[k].Tensor? ==> p.masks[k].handle in p.frees)
    && (forall j :: 0 <= j < |p.dJdw| ==> p.dJdw[j] in p.frees)
    && (forall j :: 0 <= j < |p.dJdb| ==> p.dJdb[j] in p.frees)
  }

  /** When the releases are exactly the range from the first feedforward
      tensor to the last gradient, every tensor of the pass is released. */
  lemma ReleasedByRange(p: Pass, lo: Handle, mid: Handle, hi: Handle)
    requires |p.zs| > 0 && |p.masks| == |p.zs| - 1 && Steps(p.zs, p.acts, p.masks + [Empty], lo, mid)
    requires |p.dJdb| == |p.dJdw| && hi == mid + 2 * |p.dJdw|
    requires forall j :: 0 <= j < |p.dJdw| ==> p.dJdw[j] == mid + 2 * j && p.dJdb[j] == p.dJdw[j] + 1
    requires forall h :: h in p.frees <==> lo <= h < hi
    ensures AllReleased(p)
  {
    var ms := p.masks + [Empty];
    StepsBounds(p.zs, p.acts, ms, lo, mid);
    forall k | 0 <= k < |p.masks| && p.masks[k].Tensor?
      ensures p.masks[k].handle in p.frees
    {
      assert ms[k] == p.masks[k];
    }
  }

  /** A pass that, after fixing its views (s0 to s1), only allocates from lo
      on (s1 to s2) and then releases the gradients hi up to top (s2 to s3)
      and the feedforward tensors lo up to hi (s3 to s4), leaves the owned
      tensors as they were, and has released exactly the range lo up to top. */
  lemma Balanced(s0: Snapshot, s1: Snapshot, s2: Snapshot, s3: Snapshot, s4: Snapshot,
                 lo: Handle, hi: Handle, f1: seq<Handle>, f2: seq<Handle>)
    requires forall h :: h in s0.live ==> h < s0.next
    requires s1.live == s0.live && s0.next <= s1.next == lo
    requires Grew(s1, s2) && lo <= hi <= s2.next
    requires forall h :: h in s3.live <==> h in s2.live && !(hi <= h < s2.next)
    requires forall h :: h in s4.live <==> h in s3.live && !(lo <= h < hi)
    requires forall h :: h in f1 <==> hi <= h < s2.next
    requires forall h :: h in f2 <==> lo <= h < hi
    requires s3.freed == s2.freed + f1 && s4.freed == s3.freed + f2
    requires s4.views == s3.views == s2.views
    ensures s4.live == s0.live && s4.views == s1.views && s4.freed == s1.freed + (f1 + f2)
    ensures forall h :: h in f1 + f2 <==> lo <= h < s2.next
  {
    assert forall h :: h in s4.live <==> h in s0.live;
  }

  /** The backward and gradient phases, after the feedforward phase ran from
      the memory state s0: the deltas are computed in place, then one
      gradient pair is allocated per weighted layer. */
  method DeltasAndGradients(mem: Memory, layers: seq<Layer>, weighted: seq<nat>, x: Handle, y: Handle, dropout: real,
                            zList: seq<Handle>, aList: seq<Handle>, masks: seq<Slot>, ghost e: nat, ghost s0: Snapshot)
    returns (deltas: seq<Handle>, dJdw: seq<Handle>, dJdb: seq<Handle>)
    requires mem.Valid() && ValidChain(layers) && weighted == WeightedIndexes(layers)
    requires |zList| == |layers| && |masks| == |layers| - 1
    requires Fed(mem.Snap(), layers, dropout, e, s0, zList, aList, masks + [Empty])
    requires Ready(mem.Snap(), x, layers[0].inputs)
    requires mem.Readable(y) && y in mem.shapes && mem.shapes[y] == Shape(e, layers[|layers| - 1].outputs)
    modifies mem
    ensures Grown(mem, old(mem.Snap()))
    ensures |deltas| == |layers| && deltas[|layers| - 1] == aList[|layers| - 1]
    ensures forall l :: 0 <= l < |layers| - 1 ==> deltas[l] == zList[l]
    ensures |dJdw| == |weighted| && |dJdb| == |weighted| && mem.next == old(mem.next) + 2 * |weighted|
    ensures forall j :: 0 <= j < |weighted| ==> dJdw[j] == old(mem.next) + 2 * j && dJdb[j] == dJdw[j] + 1
    ensures mem.calls == old(mem.calls) + DeltaCalls(layers, y, zList, aList, masks)
                                         + GradientCalls(layers, weighted, x, aList, deltas, dJdw, dJdb)
  {
    ghost var s1 := mem.Snap();
    FedAlive(s1, layers, dropout, e, s0, zList, aList, masks);
    deltas := BackwardDeltas(mem, layers, y, zList, aList, masks, e);
    DeltaSources(s1, layers, dropout, e, s0, x, zList, aList, masks, deltas);
    WeightedFit(layers);
    dJdw, dJdb := Gradients(mem, layers, weighted, x, aList, deltas);
  }

  /** The three phases of a pass that compute: feedforward from the view x,
      the backward deltas against the view y, and the gradients. They allocate
      the handles from the first feedforward tensor on, in layout order with
      the gradient pairs after the feedforward tensors, and release nothing. */
  method Phases(mem: Memory, layers: seq<Layer>, weighted: seq<nat>, x: Handle, y: Handle, dropout: real)
    returns (zList: seq<Handle>, aList: seq<Handle>, masks: seq<Slot>, deltas: seq<Handle>,
             dJdw: seq<Handle>, dJdb: seq<Handle>, ghost hi: Handle)
    requires mem.Valid() && ValidChain(layers) && weighted == WeightedIndexes(layers)
    requires mem.Readable(x) && mem.shapes[x].length == layers[0].inputs
    requires mem.Readable(y) && mem.shapes[y] == Shape(mem.shapes[x].entities, layers[|layers| - 1].outputs)
    modifies mem
    ensures Grown(mem, old(mem.Snap()))
    ensures |zList| == |layers| && |masks| == |layers| - 1 && Layout(zList, aList, masks, old(mem.next), hi)
    ensures forall k :: 0 <= k < |layers| - 1 ==> (masks[k].Tensor? <==> layers[k].kind == FullyConnected && dropout > 0.0)
    ensures |deltas| == |layers| && deltas[|layers| - 1] == aList[|layers| - 1]
    ensures forall l :: 0 <= l < |layers| - 1 ==> deltas[l] == zList[l]
    ensures |dJdw| == |weighted| && |dJdb| == |weighted|
    ensures old(mem.next) <= hi && mem.next == hi + 2 * |weighted|
    ensures forall j :: 0 <= j < |weighted| ==> dJdw[j] == hi + 2 * j && dJdb[j] == dJdw[j] + 1
    ensures mem.calls == old(mem.calls) + FeedCalls(layers, x, zList, aList, masks + [Empty])
                                         + DeltaCalls(layers, y, zList, aList, masks)
                                         + GradientCalls(layers, weighted, x, aList, deltas, dJdw, dJdb)
  {
    ghost var s0, c0 := mem.Snap(), mem.calls;
    ghost var e := mem.shapes[x].entities;
    zList, aList, masks := FeedForward(mem, layers, x, dropout);
    hi := mem.next;
    ghost var s1, c1 := mem.Snap(), mem.calls;
    FedLayout(s1, layers, dropout, e, s0, zList, aList, masks);
    GrewKeeps(s0, s1, x);
    GrewKeeps(s0, s1, y);
    deltas, dJdw, dJdb := DeltasAndGradients(mem, layers, weighted, x, y, dropout, zList, aList, masks, e, s0);
    GrewTwice(s0, s1, mem.Snap());
    AppendTwice(c1, DeltaCalls(layers, y, zList, aList, masks), GradientCalls(layers, weighted, x, aList, deltas, dJdw, dJdb));
  }

  /** The pass proper over the views x and y: the three phases, the
      updates, then cleanup. Every tensor it allocates is released exactly
      once and nothing else is. */
  method TrainOn(mem: Memory, layers: seq<Layer>, weighted: seq<nat>, x: Handle, y: Handle, dropout: real)
    returns (ghost p: Pass)
    requires mem.Valid() && ValidChain(layers) && weighted == WeightedIndexes(layers)
    requires mem.Readable(x) && mem.shapes[x].length == layers[0].inputs
    requires mem.Readable(y) && mem.shapes[y] == Shape(mem.shapes[x].entities, layers[|layers| - 1].outputs)
    modifies mem
    ensures mem.Valid() && mem.live == old(mem.live) && mem.views == old(mem.views)
    ensures mem.freed == old(mem.freed) + p.frees
    ensures forall h :: h in p.frees <==> old(mem.next) <= h < mem.next
    ensures AllReleased(p)
    ensures Wired(p, layers, weighted, x, y, dropout, old(mem.shapes)[x].entities)
    ensures mem.calls == old(mem.calls) + p.calls
  {
    ghost var s1, c1 := mem.Snap(), mem.calls;
    ghost var lo := mem.next;
    var samples := mem.shapes[x].entities;
    var zList, aList, masks, deltas, dJdw, dJdb, hi := Phases(mem, layers, weighted, x, y, dropout);
    ghost var s2 := mem.Snap();
    ghost var f1 := UpdateAndRelease(mem, weighted, dJdw, dJdb, samples, hi);
    ghost var s3 := mem.Snap();
    ghost var f2 := Release(mem, zList, aList, masks, lo, hi);
    ghost var feed := FeedCalls(layers, x, zList, aList, masks + [Empty]);
    ghost var back := DeltaCalls(layers, y, zList, aList, masks);
    ghost var grads := GradientCalls(layers, weighted, x, aList, deltas, dJdw, dJdb);
    ghost var updates := UpdateCalls(weighted, dJdw, dJdb, samples, |weighted|);
    p := Pass(zList, aList, masks, deltas, dJdw, dJdb, lo, hi, feed + back + grads + updates, f1 + f2);
    AppendTwice(c1, feed, back);
    AppendTwice(c1, feed + back, grads);
    AppendTwice(c1, feed + back + grads, updates);
    Balanced(s1, s1, s2, s3, mem.Snap(), lo, hi, f1, f2);
    ReleasedByRange(p, lo, hi, mem.next);
  }

  /** One training step on a batch: the batch arrays are fixed as two views x
      and y, then feedforward, backward deltas, gradients and updates, then
      cleanup. Every tensor the pass allocates is released exactly once, the
      two views are never released, and memory is left as it was found apart
      from the two views. The kernel calls it makes are those of the pass. */
  method Backpropagate(mem: Memory, net: NeuralNetwork, xs: Shape, ys: Shape, dropout: real)
    returns (x: Handle, y: Handle, ghost p: Pass)
    requires mem.Valid() && Built(net)
    requires xs.length == net.inputs && ys == Shape(xs.entities, net.outputs)
    modifies mem
    ensures mem.Valid()
    // nothing leaks and the caller's buffers are never released
    ensures mem.live == old(mem.live)
    ensures mem.views == old(mem.views) + {x, y} && x !in mem.freed && y !in mem.freed
    ensures mem.freed == old(mem.freed) + p.frees
    ensures forall h :: h in p.frees <==> old(mem.next) + 2 <= h < mem.next
    ensures AllReleased(p)
    ensures ValidChain(net.layers) && net.weightedIndexes == WeightedIndexes(net.layers)
    ensures Wired(p, net.layers, net.weightedIndexes, x, y, dropout, xs.entities)
    ensures mem.calls == old(mem.calls) + p.calls
  {
    x := mem.Fix(xs);
    y := mem.Fix(ys);
    p := TrainOn(mem, net.layers, net.weightedIndexes, x, y, dropout);
  }
}

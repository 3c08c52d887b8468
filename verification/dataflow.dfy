/**
 * What the kernel call log of a training pass says about the data the
 * kernels exchange. Each call overwrites some tensors in place and only reads
 * others; the pass is ordered so that every tensor a kernel only reads has
 * already received every write it will ever receive. So the gradient of a
 * layer sees the same activation the next layer consumed in the feedforward
 * phase, and every delta and gradient is read in its final form.
 */
module Dataflow {
  import opened Layers
  import opened Network
  import opened Tensors
  import opened Passes

  /** The tensors a kernel call overwrites. */
  function Writes(c: Call): set<Handle> {
    match c
    case ForwardCall(_, _, z, a) => {z, a}
    case HadamardCall(target, _) => {target}
    case OutputDeltaCall(_, a, _, _) => {a}
    case LayerDeltaCall(_, _, z, _) => {z}
    case GradientCall(_, _, _, dJdw, dJdb) => {dJdw, dJdb}
    case UpdateCall(_, _, _, _, _) => {}
  }

  /** The tensors a kernel call reads without writing them. */
  function Reads(c: Call): set<Handle> {
    match c
    case ForwardCall(_, input, _, _) => {input}
    case HadamardCall(_, other) => {other}
    case OutputDeltaCall(_, _, y, z) => {y, z}
    case LayerDeltaCall(_, deltaNext, _, _) => {deltaNext}
    case GradientCall(_, input, delta, _, _) => {input, delta}
    case UpdateCall(_, dJdw, dJdb, _, _) => {dJdw, dJdb}
  }

  /** The tensors some call of the log only reads. */
  function ReadBy(cs: seq<Call>): set<Handle>
    decreases |cs|
  {
    if |cs| == 0 then {} else ReadBy(cs[..|cs| - 1]) + Reads(cs[|cs| - 1])
  }

  /** The tensors some call of the log overwrites. */
  function WrittenBy(cs: seq<Call>): set<Handle>
    decreases |cs|
  {
    if |cs| == 0 then {} else WrittenBy(cs[..|cs| - 1]) + Writes(cs[|cs| - 1])
  }

  /** Call after call, no call overwrites a tensor that it or an earlier call
      only read. */
  ghost predicate Settled(cs: seq<Call>)
    decreases |cs|
  {
    |cs| == 0 || (Settled(cs[..|cs| - 1]) && Writes(cs[|cs| - 1]) !! ReadBy(cs))
  }

  /** Every write to a tensor comes before every call that only reads it. */
  ghost predicate ReadAfterWrite(cs: seq<Call>) {
    forall i, j, h :: 0 <= i < |cs| && 0 <= j < |cs| && h in Writes(cs[i]) && h in Reads(cs[j]) ==> i < j
  }

  /** What each call reads is among what the log reads. */
  lemma {:induction false} ReadByHas(cs: seq<Call>, j: nat)
    requires j < |cs|
    ensures Reads(cs[j]) <= ReadBy(cs)
    decreases |cs|
  {
    if j < |cs| - 1 {
      ReadByHas(cs[..|cs| - 1], j);
      assert cs[..|cs| - 1][j] == cs[j];
    }
  }

  /** A settled log reads every tensor only after its writes. */
  lemma {:induction false} SettledMeans(cs: seq<Call>)
    requires Settled(cs)
    ensures ReadAfterWrite(cs)
    decreases |cs|
  {
    if |cs| > 0 {
      var n := |cs| - 1;
      var front := cs[..n];
      SettledMeans(front);
      forall i, j, h | 0 <= i < |cs| && 0 <= j < |cs| && h in Writes(cs[i]) && h in Reads(cs[j])
        ensures i < j
      {
        ReadByHas(cs, j);
        if i < n && j < n {
          assert front[i] == cs[i] && front[j] == cs[j];
        }
      }
    }
  }

  /** The reads of two logs one after the other. */
  lemma {:induction false} ReadByAppend(a: seq<Call>, b: seq<Call>)
    ensures ReadBy(a + b) == ReadBy(a) + ReadBy(b)
    decreases |b|
  {
    if |b| == 0 {
      assert a + b == a;
    } else {
      var n := |b| - 1;
      assert (a + b)[..|a + b| - 1] == a + b[..n];
      ReadByAppend(a, b[..n]);
    }
  }

  /** The writes of two logs one after the other. */
  lemma {:induction false} WrittenByAppend(a: seq<Call>, b: seq<Call>)
    ensures WrittenBy(a + b) == WrittenBy(a) + WrittenBy(b)
    decreases |b|
  {
    if |b| == 0 {
      assert a + b == a;
    } else {
      var n := |b| - 1;
      assert (a + b)[..|a + b| - 1] == a + b[..n];
      WrittenByAppend(a, b[..n]);
    }
  }

  /** Two settled logs stay settled one after the other when the second
      writes nothing the first reads. */
  lemma {:induction false} SettledAppend(a: seq<Call>, b: seq<Call>)
    requires Settled(a) && Settled(b) && WrittenBy(b) !! ReadBy(a)
    ensures Settled(a + b)
    decreases |b|
  {
    if |b| == 0 {
      assert a + b == a;
    } else {
      var n := |b| - 1;
      assert (a + b)[..|a + b| - 1] == a + b[..n];
      SettledAppend(a, b[..n]);
      ReadByAppend(a, b);
      assert (a + b)[|a + b| - 1] == b[n];
    }
  }

  /** A single call is settled when it reads nothing it writes. */
  lemma SettledOne(c: Call)
    requires Writes(c) !! Reads(c)
    ensures Settled([c]) && ReadBy([c]) == Reads(c) && WrittenBy([c]) == Writes(c)
  {
    assert [c][..0] == [];
    assert Settled([]) && ReadBy([]) == {} && WrittenBy([]) == {};
  }

  /** Two calls are settled when neither reads what it writes and the second
      writes nothing the first reads. */
  lemma SettledTwo(c: Call, d: Call)
    requires Writes(c) !! Reads(c) && Writes(d) !! Reads(d) && Writes(d) !! Reads(c)
    ensures Settled([c, d]) && ReadBy([c, d]) == Reads(c) + Reads(d) && WrittenBy([c, d]) == Writes(c) + Writes(d)
  {
    SettledOne(c);
    assert [c, d][..1] == [c];
  }

  /** In a layout, every step ends before the next ones begin. */
  lemma {:induction false} StepsOrdered(zs: seq<Handle>, acts: seq<Handle>, ms: seq<Slot>, lo: Handle, hi: Handle, m: nat, n: nat)
    requires Steps(zs, acts, ms, lo, hi) && m < n < |zs|
    ensures acts[m] + Width(ms[m]) <= zs[n]
    decreases n - m
  {
    StepWithin(zs, acts, ms, lo, hi, n - 1);
    if m < n - 1 {
      StepsOrdered(zs, acts, ms, lo, hi, m, n - 1);
      StepWithin(zs, acts, ms, lo, hi, m);
    }
  }

  /** The calls of one feedforward step, as reads and writes. */
  lemma StepFlow(layer: Layer, input: Handle, z: Handle, a: Handle, mask: Slot)
    requires a == z + 1 && input < z && (mask.Tensor? ==> mask.handle == a + 1)
    ensures Settled(StepCalls(layer, input, z, a, mask))
    ensures ReadBy(StepCalls(layer, input, z, a, mask)) == {input} + (if mask.Tensor? then {mask.handle} else {})
    ensures WrittenBy(StepCalls(layer, input, z, a, mask)) == {z, a}
  {
    if mask.Tensor? {
      SettledTwo(ForwardCall(layer, input, z, a), HadamardCall(a, mask.handle));
    } else {
      SettledOne(ForwardCall(layer, input, z, a));
    }
  }

  /** Where the handles read by the first k feedforward steps end: at the
      start of step k, or at hi after the last step. */
  function FeedBound(zs: seq<Handle>, hi: Handle, k: nat): Handle
    requires k <= |zs|
  {
    if k < |zs| then zs[k] else hi
  }

  /** What the first k feedforward steps read, as FeedFlow states it: only
      handles below FeedBound, never a pre-activation, and no activation from
      step k - 1 on. */
  ghost predicate FeedReads(zs: seq<Handle>, acts: seq<Handle>, hi: Handle, k: nat, r: set<Handle>)
    requires |acts| == |zs| && k <= |zs|
  {
    && (forall h :: h in r ==> h < FeedBound(zs, hi, k))
    && (forall m :: 0 <= m < |zs| ==> zs[m] !in r)
    && (forall m :: 0 <= m < |zs| && k <= m + 1 ==> acts[m] !in r)
  }

  /** A handle step j reads, its input or its dropout mask, is not the
      pre-activation of step m, nor its activation when m is j or later. */
  lemma ReadNotStep(zs: seq<Handle>, acts: seq<Handle>, ms: seq<Slot>, lo: Handle, hi: Handle, x: Handle,
                    j: nat, h: Handle, m: nat)
    requires Steps(zs, acts, ms, lo, hi) && x < lo && j < |zs| && m < |zs|
    requires h == InputOf(x, acts, j) || (ms[j].Tensor? && h == ms[j].handle)
    ensures zs[m] != h && (j <= m ==> acts[m] != h)
  {
    StepWithin(zs, acts, ms, lo, hi, j);
    StepWithin(zs, acts, ms, lo, hi, m);
    if j > 0 {
      StepWithin(zs, acts, ms, lo, hi, j - 1);
    }
    if m < j {
      StepsOrdered(zs, acts, ms, lo, hi, m, j);
      if m < j - 1 {
        StepsOrdered(zs, acts, ms, lo, hi, m, j - 1);
      }
    } else if m > j {
      StepsOrdered(zs, acts, ms, lo, hi, j, m);
    }
  }

  /** A handle step j reads lies below the end of step j and is neither a
      pre-activation nor an activation from step j on. */
  lemma StepReadFresh(zs: seq<Handle>, acts: seq<Handle>, ms: seq<Slot>, lo: Handle, hi: Handle, x: Handle, j: nat, h: Handle)
    requires Steps(zs, acts, ms, lo, hi) && x < lo && j < |zs|
    requires h == InputOf(x, acts, j) || (ms[j].Tensor? && h == ms[j].handle)
    ensures h < FeedBound(zs, hi, j + 1)
    ensures forall m :: 0 <= m < |zs| ==> zs[m] != h
    ensures forall m :: j <= m < |zs| ==> acts[m] != h
  {
    StepWithin(zs, acts, ms, lo, hi, j);
    if j > 0 {
      StepWithin(zs, acts, ms, lo, hi, j - 1);
    }
    forall m | 0 <= m < |zs|
      ensures zs[m] != h
      ensures j <= m ==> acts[m] != h
    {
      ReadNotStep(zs, acts, ms, lo, hi, x, j, h, m);
    }
  }

  /** One more feedforward step keeps the calls settled and their reads as
      FeedReads states them. */
  lemma FeedStepFlow(layers: seq<Layer>, x: Handle, zs: seq<Handle>, acts: seq<Handle>, ms: seq<Slot>,
                     lo: Handle, hi: Handle, j: nat, front: seq<Call>)
    requires Steps(zs, acts, ms, lo, hi) && |zs| <= |layers| && x < lo && j < |zs|
    requires Settled(front) && FeedReads(zs, acts, hi, j, ReadBy(front))
    ensures Settled(front + StepCalls(layers[j], InputOf(x, acts, j), zs[j], acts[j], ms[j]))
    ensures FeedReads(zs, acts, hi, j + 1, ReadBy(front + StepCalls(layers[j], InputOf(x, acts, j), zs[j], acts[j], ms[j])))
  {
    var input := InputOf(x, acts, j);
    var step := StepCalls(layers[j], input, zs[j], acts[j], ms[j]);
    StepWithin(zs, acts, ms, lo, hi, j);
    StepReadFresh(zs, acts, ms, lo, hi, x, j, input);
    if ms[j].Tensor? {
      StepReadFresh(zs, acts, ms, lo, hi, x, j, ms[j].handle);
    }
    StepFlow(layers[j], input, zs[j], acts[j], ms[j]);
    SettledAppend(front, step);
    ReadByAppend(front, step);
  }

  /** The first k feedforward steps are settled and read as FeedReads
      states. */
  lemma {:induction false} FeedFlow(layers: seq<Layer>, x: Handle, zs: seq<Handle>, acts: seq<Handle>, ms: seq<Slot>,
                                    lo: Handle, hi: Handle, k: nat)
    requires Steps(zs, acts, ms, lo, hi) && |zs| <= |layers| && x < lo && k <= |zs|
    ensures Settled(FeedCalls(layers, x, zs[..k], acts[..k], ms[..k]))
    ensures FeedReads(zs, acts, hi, k, ReadBy(FeedCalls(layers, x, zs[..k], acts[..k], ms[..k])))
    decreases k
  {
    if k == 0 {
      assert zs[..0] == [];
      StepsBounds(zs, acts, ms, lo, hi);
    } else {
      var j := k - 1;
      FeedFlow(layers, x, zs, acts, ms, lo, hi, j);
      assert zs[..k][..j] == zs[..j] && acts[..k][..j] == acts[..j] && ms[..k][..j] == ms[..j];
      assert InputOf(x, acts[..k], j) == InputOf(x, acts, j);
      FeedStepFlow(layers, x, zs, acts, ms, lo, hi, j, FeedCalls(layers, x, zs[..j], acts[..j], ms[..j]));
    }
  }

  /** Where the handles of backward step l lie: its pre-activation after lo
      and before the output layer's, the delta it reads and its dropout mask
      after its pre-activation and below hi. */
  lemma DeltaStepHandles(zs: seq<Handle>, acts: seq<Handle>, masks: seq<Slot>, lo: Handle, hi: Handle, l: nat)
    requires Layout(zs, acts, masks, lo, hi) && l < |zs| - 1
    ensures lo <= zs[l] < zs[l + 1] <= DeltaOf(zs, acts, l + 1) < hi && zs[l] < zs[|zs| - 1]
    ensures masks[l].Tensor? ==> zs[l] < masks[l].handle < hi
  {
    var ms := masks + [Empty];
    LayoutBounds(zs, acts, masks, lo, hi);
    StepsOrdered(zs, acts, ms, lo, hi, l, l + 1);
    if l + 1 < |zs| - 1 {
      StepsOrdered(zs, acts, ms, lo, hi, l + 1, |zs| - 1);
    }
  }

  /** Backward step l after the steps above it: still settled, reading only
      handles above zs[l] and below hi, writing only hidden pre-activations
      from layer l on, none of them in r. */
  lemma HiddenStepFlow(layers: seq<Layer>, zs: seq<Handle>, acts: seq<Handle>, masks: seq<Slot>,
                       lo: Handle, hi: Handle, l: nat, r: set<Handle>, rest: seq<Call>)
    requires Layout(zs, acts, masks, lo, hi) && |zs| == |layers| && l < |layers| - 1
    requires zs[l] !in r
    requires Settled(rest)
    requires forall h :: h in ReadBy(rest) ==> zs[l + 1] < h < hi
    requires forall h :: h in WrittenBy(rest) ==> lo <= h < zs[|zs| - 1] && h !in r
    ensures Settled(rest + DeltaStepCalls(layers, zs, acts, masks, l))
    ensures forall h :: h in ReadBy(rest + DeltaStepCalls(layers, zs, acts, masks, l)) ==> zs[l] < h < hi
    ensures forall h :: h in WrittenBy(rest + DeltaStepCalls(layers, zs, acts, masks, l)) ==> lo <= h < zs[|zs| - 1] && h !in r
  {
    var step := DeltaStepCalls(layers, zs, acts, masks, l);
    DeltaStepHandles(zs, acts, masks, lo, hi, l);
    var c := LayerDeltaCall(layers[l + 1], DeltaOf(zs, acts, l + 1), zs[l], layers[l].activation);
    if masks[l].Tensor? {
      SettledTwo(c, HadamardCall(zs[l], masks[l].handle));
    } else {
      SettledOne(c);
    }
    SettledAppend(rest, step);
    ReadByAppend(rest, step);
    WrittenByAppend(rest, step);
  }

  /** The backward steps from the last hidden layer down to layer l are
      settled, read only handles above zs[l] and below hi, and write only
      hidden pre-activations from layer l on, none of them in r. */
  lemma {:induction false} HiddenFlow(layers: seq<Layer>, zs: seq<Handle>, acts: seq<Handle>, masks: seq<Slot>,
                                      lo: Handle, hi: Handle, l: nat, r: set<Handle>)
    requires Layout(zs, acts, masks, lo, hi) && |zs| == |layers| && l <= |layers| - 1
    requires forall m :: 0 <= m < |zs| ==> zs[m] !in r
    ensures Settled(HiddenDeltaCalls(layers, zs, acts, masks, l))
    ensures forall h :: h in ReadBy(HiddenDeltaCalls(layers, zs, acts, masks, l)) ==> zs[l] < h < hi
    ensures forall h :: h in WrittenBy(HiddenDeltaCalls(layers, zs, acts, masks, l)) ==> lo <= h < zs[|zs| - 1] && h !in r
    decreases |layers| - 1 - l
  {
    if l < |layers| - 1 {
      HiddenFlow(layers, zs, acts, masks, lo, hi, l + 1, r);
      HiddenStepFlow(layers, zs, acts, masks, lo, hi, l, r, HiddenDeltaCalls(layers, zs, acts, masks, l + 1));
    }
  }

  /** The backward phase is settled; it reads only y and handles below hi,
      and writes only the output activation and hidden pre-activations, none
      of them in r. */
  lemma DeltaFlow(layers: seq<Layer>, y: Handle, zs: seq<Handle>, acts: seq<Handle>, masks: seq<Slot>,
                  lo: Handle, hi: Handle, r: set<Handle>)
    requires Layout(zs, acts, masks, lo, hi) && |zs| == |layers| && y < lo
    requires forall m :: 0 <= m < |zs| ==> zs[m] !in r
    requires acts[|zs| - 1] !in r
    ensures Settled(DeltaCalls(layers, y, zs, acts, masks))
    ensures forall h :: h in ReadBy(DeltaCalls(layers, y, zs, acts, masks)) ==> h < hi
    ensures WrittenBy(DeltaCalls(layers, y, zs, acts, masks)) !! r
  {
    var L := |layers|;
    var out := OutputDeltaCall(layers[L - 1], acts[L - 1], y, zs[L - 1]);
    var hidden := HiddenDeltaCalls(layers, zs, acts, masks, 0);
    HiddenFlow(layers, zs, acts, masks, lo, hi, 0, r);
    LayoutBounds(zs, acts, masks, lo, hi);
    SettledOne(out);
    SettledAppend([out], hidden);
    ReadByAppend([out], hidden);
    WrittenByAppend([out], hidden);
  }

  /** The gradient phase for the first |dJdw| weighted layers is settled; it
      reads only handles below hi and writes only its own gradient pairs,
      which start at hi. */
  lemma {:induction false} GradientFlow(layers: seq<Layer>, weighted: seq<nat>, x: Handle, acts: seq<Handle>,
                                        deltas: seq<Handle>, dJdw: seq<Handle>, dJdb: seq<Handle>, hi: Handle)
    requires |acts| == |layers| && |deltas| == |layers| && |dJdb| == |dJdw| <= |weighted|
    requires forall j :: 0 <= j < |weighted| ==> weighted[j] < |layers|
    requires x < hi && (forall k :: 0 <= k < |layers| ==> acts[k] < hi && deltas[k] < hi)
    requires forall j :: 0 <= j < |dJdw| ==> hi <= dJdw[j] && hi <= dJdb[j]
    ensures Settled(GradientCalls(layers, weighted, x, acts, deltas, dJdw, dJdb))
    ensures forall h :: h in ReadBy(GradientCalls(layers, weighted, x, acts, deltas, dJdw, dJdb)) ==> h < hi
    ensures forall h :: h in WrittenBy(GradientCalls(layers, weighted, x, acts, deltas, dJdw, dJdb)) ==> hi <= h
    decreases |dJdw|
  {
    if |dJdw| > 0 {
      var j := |dJdw| - 1;
      GradientFlow(layers, weighted, x, acts, deltas, dJdw[..j], dJdb[..j], hi);
      var w := weighted[j];
      var c := GradientCall(layers[w], InputOf(x, acts, w), deltas[w], dJdw[j], dJdb[j]);
      var front := GradientCalls(layers, weighted, x, acts, deltas, dJdw[..j], dJdb[..j]);
      SettledOne(c);
      SettledAppend(front, [c]);
      ReadByAppend(front, [c]);
      WrittenByAppend(front, [c]);
    }
  }

  /** The updater calls write no tensor. */
  lemma {:induction false} UpdateFlow(weighted: seq<nat>, dJdw: seq<Handle>, dJdb: seq<Handle>, samples: nat, n: nat)
    requires n <= |weighted| && |dJdw| == |weighted| && |dJdb| == |weighted|
    ensures Settled(UpdateCalls(weighted, dJdw, dJdb, samples, n))
    ensures WrittenBy(UpdateCalls(weighted, dJdw, dJdb, samples, n)) == {}
  {
    if n > 0 {
      var front := UpdateCalls(weighted, dJdw, dJdb, samples, n - 1);
      var c := UpdateCall(n - 1, dJdw[n - 1], dJdb[n - 1], samples, weighted[n - 1]);
      UpdateFlow(weighted, dJdw, dJdb, samples, n - 1);
      SettledOne(c);
      SettledAppend(front, [c]);
      WrittenByAppend(front, [c]);
    }
  }

  /** The feedforward and backward phases of a wired pass together are
      settled and read only handles below hi. */
  lemma ForwardBackFlow(p: Pass, layers: seq<Layer>, weighted: seq<nat>, x: Handle, y: Handle, dropout: real, samples: nat)
    requires ValidChain(layers) && weighted == WeightedIndexes(layers)
    requires Wired(p, layers, weighted, x, y, dropout, samples)
    ensures Settled(FeedCalls(layers, x, p.zs, p.acts, p.masks + [Empty]) + DeltaCalls(layers, y, p.zs, p.acts, p.masks))
    ensures forall h :: h in ReadBy(FeedCalls(layers, x, p.zs, p.acts, p.masks + [Empty]) + DeltaCalls(layers, y, p.zs, p.acts, p.masks)) ==> h < p.hi
  {
    var L := |layers|;
    var ms := p.masks + [Empty];
    assert p.zs[..L] == p.zs && p.acts[..L] == p.acts && ms[..L] == ms;
    FeedFlow(layers, x, p.zs, p.acts, ms, p.lo, p.hi, L);
    var feed := FeedCalls(layers, x, p.zs, p.acts, ms);
    var back := DeltaCalls(layers, y, p.zs, p.acts, p.masks);
    DeltaFlow(layers, y, p.zs, p.acts, p.masks, p.lo, p.hi, ReadBy(feed));
    SettledAppend(feed, back);
    ReadByAppend(feed, back);
  }

  /** In the kernel calls of a wired training pass, every tensor is read
      only after the last write to it: the feedforward phase, the backward
      phase, the gradients and the updates one after the other never
      overwrite a tensor an earlier call has read. */
  lemma PassDataflow(p: Pass, layers: seq<Layer>, weighted: seq<nat>, x: Handle, y: Handle, dropout: real, samples: nat)
    requires ValidChain(layers) && weighted == WeightedIndexes(layers)
    requires Wired(p, layers, weighted, x, y, dropout, samples)
    ensures ReadAfterWrite(p.calls)
  {
    var feedBack := FeedCalls(layers, x, p.zs, p.acts, p.masks + [Empty]) + DeltaCalls(layers, y, p.zs, p.acts, p.masks);
    var grads := GradientCalls(layers, weighted, x, p.acts, p.deltas, p.dJdw, p.dJdb);
    var updates := UpdateCalls(weighted, p.dJdw, p.dJdb, samples, |weighted|);
    ForwardBackFlow(p, layers, weighted, x, y, dropout, samples);
    LayoutBounds(p.zs, p.acts, p.masks, p.lo, p.hi);
    GradientFlow(layers, weighted, x, p.acts, p.deltas, p.dJdw, p.dJdb, p.hi);
    UpdateFlow(weighted, p.dJdw, p.dJdb, samples, |weighted|);
    SettledAppend(feedBack, grads);
    SettledAppend(feedBack + grads, updates);
    assert p.calls == feedBack + grads + updates;
    SettledMeans(p.calls);
  }
}

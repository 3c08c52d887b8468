# NeuralNetwork.NET network core, modelled in Dafny

This project models the network class of NeuralNetwork.NET
(`NeuralNetwork.NET/Networks/Implementations/NeuralNetwork.cs`) and proves
properties of it. The network class is a feed-forward stack of layers
(fully connected, convolutional, pooling, output and softmax) that can:

- validate its layer chain;
- forward a batch of samples through the layers;
- train on a batch by backpropagation, using unmanaged tensors that it
  allocates and releases itself;
- run a training session of epochs with early stopping;
- evaluate its accuracy on a data set in batches;
- update its weights with gradient descent or with Adadelta.

The model is split into modules, one per part of the class:

| file | module | what it holds |
|---|---|---|
| `layers.dfy` | `Layers` | the abstract layer record: kind, weighted or not, flat input and output sizes, activation tag, lengths of the weight and bias arrays |
| `network.dfy` | `Network` | the constructor's checks, in the loop's order, as a function returning an error or a network; the weighted-layer indexes; network equality |
| `tensors.dfy` | `Tensors`, `Kernels` | the tensor memory as a class with a ghost log of releases and a ghost log of kernel calls; the layer kernels as operations that only allocate, read and overwrite tensor handles, each appending its call to the log |
| `passes.dfy` | `Passes` | the inference forward pass and the training pass (`Backpropagate`), phase by phase, over that memory, with the exact sequence of kernel calls of each phase |
| `dataflow.dfy` | `Dataflow` | which tensors each kernel call reads and overwrites, and the proof that in a training pass every tensor is read only after every write to it |
| `training.dfy` | `Training` | the training session (`Optimize`) as a loop over epochs and batches, with cancellation, weight validation and convergence as oracles |
| `evaluation.dfy` | `Evaluation` | the evaluation of a data set in batches and the count of correctly classified samples |
| `optimizers.dfy` | `Optimizers` | the gradient-descent update with L2 decay, and the Adadelta updater with its per-layer accumulators |

The tensor contents are not modelled. A tensor is a handle with a shape,
and it is either owned (and then released exactly once) or a view fixed over
a caller's array (never released). This is where most of the proof work is:

- Every tensor a training pass allocates is released exactly once.
- The caller's `x` and `y` views are never released.
- The owned tensors alive after the pass are exactly those alive before it.
- The deltas are written in place into the output activation and the hidden
  pre-activations.
- Each gradient is computed from the right input: `x` for layer 0, otherwise
  the previous activation.
- The dropout masks exist exactly after the fully connected layers when
  dropout is on.
- The kernels are called in the source's order with the source's arguments:
  every kernel call is appended to a ghost log, and each phase states the
  whole sequence of calls it makes (forward steps and mask products; the
  output delta, then the hidden deltas from the top down with their mask
  products; one gradient per weighted layer; one updater call per gradient
  slot).
- From that log, the pass is data-race free in time: every tensor a kernel
  reads has been written by every kernel call that writes it before, and is
  not overwritten later.

## Model

| member | source | states |
|---|---|---|
| Network.CheckLayer | NeuralNetwork.NET/Networks/Implementations/NeuralNetwork.cs:69-74 | the checks at one position pass exactly when the layer is acceptable there; a failure names that position |
| Network.CheckFrom | NeuralNetwork.NET/Networks/Implementations/NeuralNetwork.cs:67-75 | the loop reports nothing iff every later position passes; otherwise it reports the first failing position, all before it passing |
| Network.AllLayersOkIffValid | NeuralNetwork.NET/Networks/Implementations/NeuralNetwork.cs:67-75 | all positions pass their checks iff the chain is valid: output layer exactly last, adjacent sizes match, no pooling after a non-identity convolution |
| Network.Create | NeuralNetwork.NET/Networks/Implementations/NeuralNetwork.cs:63-82 | an empty list fails with the empty-network error; construction succeeds iff the chain is valid; the network takes the first layer's inputs, the last layer's outputs, the layers and their weighted indexes; a failure names the first failing position |
| Network.OutputLayerNotLastRejected | NeuralNetwork.NET/Networks/Implementations/NeuralNetwork.cs:69 | an output layer anywhere but last makes construction fail, with that position as the error when every earlier layer passes |
| Network.LastLayerNotOutputRejected | NeuralNetwork.NET/Networks/Implementations/NeuralNetwork.cs:70 | a last layer that is not an output layer makes construction fail, with its position when every earlier layer passes |
| Network.SizeMismatchRejected | NeuralNetwork.NET/Networks/Implementations/NeuralNetwork.cs:71 | a layer whose inputs differ from the previous layer's outputs makes construction fail |
| Network.PoolingPlacement | NeuralNetwork.NET/Networks/Implementations/NeuralNetwork.cs:72-74 | pooling after a non-identity convolution fails construction; any other pooling placement never raises that error |
| Network.WeightedFrom | NeuralNetwork.NET/Networks/Implementations/NeuralNetwork.cs:81 | from position i on: strictly increasing indexes, exactly the weighted positions, no more than the layers left |
| Network.WeightedIndexes | NeuralNetwork.NET/Networks/Implementations/NeuralNetwork.cs:81 | strictly increasing, exactly the indexes of the weighted layers, at most as many as the layers |
| Network.WeightedIndexesOfNetwork | NeuralNetwork.NET/Networks/Implementations/NeuralNetwork.cs:81 | a built network's weighted indexes are increasing, in range, and list every weighted layer and only those |
| Network.AllPairs | NeuralNetwork.NET/Networks/Implementations/NeuralNetwork.cs:727 | the zipped comparison holds iff every pair of layers at the same position compares equal |
| Network.Equals | NeuralNetwork.NET/Networks/Implementations/NeuralNetwork.cs:716-728 | two networks are equal iff their inputs, outputs and layer counts agree and every layer compares equal to its counterpart |
| Network.EqualsIsReflexiveAndSymmetric | NeuralNetwork.NET/Networks/Implementations/NeuralNetwork.cs:716-728 | with a reflexive, symmetric layer comparison, network equality is reflexive and symmetric |
| Network.BuiltNetworksEqualIffSameLayers | NeuralNetwork.NET/Networks/Implementations/NeuralNetwork.cs:716-728 | with structural layer equality, two built networks are equal iff they have the same layers |
| Tensors.Memory.Fix | NeuralNetwork.NET/Networks/Implementations/NeuralNetwork.cs:323-324 | fixing a caller's array makes a new view handle of the given shape; nothing owned changes |
| Tensors.Memory.Alloc | NeuralNetwork.NET/Networks/Implementations/NeuralNetwork.cs:330 | an allocation makes the next handle a new live owned tensor of the given shape |
| Tensors.Memory.Free | NeuralNetwork.NET/Networks/Implementations/NeuralNetwork.cs:392-397 | only a live owned tensor may be released; it leaves the live set and is logged once |
| Kernels.LayerForward | NeuralNetwork.NET/Networks/Implementations/NeuralNetwork.cs:330 | a layer's forward step reads a readable input of the layer's width and returns two new owned tensors z and a with the input's rows and the layer's output width; the call is logged with its input and outputs |
| Kernels.InPlaceHadamardProduct | NeuralNetwork.NET/Networks/Implementations/NeuralNetwork.cs:334 | the product overwrites an owned target with a readable tensor of the same shape; nothing is allocated or released and the call is logged |
| Kernels.OutputBackpropagate | NeuralNetwork.NET/Networks/Implementations/NeuralNetwork.cs:346 | the output delta overwrites the owned output activation from y and z of the same shape; nothing is allocated or released and the call is logged |
| Kernels.LayerBackpropagate | NeuralNetwork.NET/Networks/Implementations/NeuralNetwork.cs:356 | a hidden delta overwrites the owned z of the layer below from the delta above (of the layer's output width) and the lower layer's activation prime; nothing is allocated or released and the call is logged |
| Kernels.ComputeGradient | NeuralNetwork.NET/Networks/Implementations/NeuralNetwork.cs:373 | the gradient step of a layer reads its input and its delta and returns two new owned tensors, inputs × outputs for the weights and 1 × outputs for the biases; the call is logged with all four handles |
| Kernels.ApplyUpdate | NeuralNetwork.NET/Networks/Implementations/NeuralNetwork.cs:384 | the updater is called for a gradient slot with both of its live gradients, the batch size and the layer index; no tensor changes and the call is logged |
| Passes.ForwardLayer | NeuralNetwork.NET/Networks/Implementations/NeuralNetwork.cs:191-194 | one inference step releases the new z at once, and releases its input only when it is not the first layer |
| Passes.ForwardedStep | NeuralNetwork.NET/Networks/Implementations/NeuralNetwork.cs:189-195 | the loop invariant of inference advances by one layer |
| Passes.Forward | NeuralNetwork.NET/Networks/Implementations/NeuralNetwork.cs:186-197 | the result is the last layer's activation and the only new live tensor; every z and every other activation is released, the releases are exactly the other new tensors, and x is never released; the kernel calls are one forward step per layer, reading x for the first layer and the previous activation otherwise |
| Passes.ForwardStep | NeuralNetwork.NET/Networks/Implementations/NeuralNetwork.cs:330-335 | a training forward step allocates z, a and a dropout mask exactly when the layer is fully connected and dropout is positive |
| Passes.FedExtend | NeuralNetwork.NET/Networks/Implementations/NeuralNetwork.cs:328-336 | the feedforward invariant (new tensors live in allocation order, shapes per layer, masks as required) advances by one layer |
| Passes.FeedLayer | NeuralNetwork.NET/Networks/Implementations/NeuralNetwork.cs:330-335 | one feedforward layer reads x at layer 0 and the previous activation otherwise, keeps the feedforward invariant, and logs its forward step followed by the mask product when it has a mask |
| Passes.FeedForward | NeuralNetwork.NET/Networks/Implementations/NeuralNetwork.cs:319-336 | one z and a per layer and L-1 mask slots, all new and live with their shapes; the output layer never needs a mask; the calls are, layer by layer, the forward step on x or the previous activation, then the product with the layer's mask when it has one |
| Passes.HiddenDelta | NeuralNetwork.NET/Networks/Implementations/NeuralNetwork.cs:356-358 | one hidden step of the backward phase logs the delta computed by layer l+1 into z[l], then the product with mask l when there is one; no tensor is allocated or released |
| Passes.BackwardDeltas | NeuralNetwork.NET/Networks/Implementations/NeuralNetwork.cs:346-359 | the calls are the output delta into a[L-1] from y and z[L-1], then for l from L-2 down to 0 the delta into z[l] computed by layer l+1 from the delta above with layer l's activation prime, followed by the product with mask l when there is one; the deltas are a[L-1] and z[l]; no tensor is allocated or released |
| Passes.DeltaSources | NeuralNetwork.NET/Networks/Implementations/NeuralNetwork.cs:347-373 | after the backward phase, x, every activation and every delta are readable with their layers' widths |
| Passes.WeightedFit | NeuralNetwork.NET/Networks/Implementations/NeuralNetwork.cs:372-373 | every weighted index of a valid chain is a layer whose input is the previous layer's output |
| Passes.GradientStep | NeuralNetwork.NET/Networks/Implementations/NeuralNetwork.cs:372-373 | one gradient call for layer i on x for layer 0 and the previous activation otherwise, with the layer's delta, writing the next two handles |
| Passes.Gradients | NeuralNetwork.NET/Networks/Implementations/NeuralNetwork.cs:367-374 | the calls are one gradient per weighted layer, in the order of the weighted indexes, each on that layer's input and delta and writing the next two new handles; nothing is released |
| Passes.UpdateAndRelease | NeuralNetwork.NET/Networks/Implementations/NeuralNetwork.cs:380-387 | the calls are the updater for each slot j in order, with gradients j, the batch size and the layer index of slot j; both gradients of every slot are released and nothing else changes |
| Passes.ReleaseStep | NeuralNetwork.NET/Networks/Implementations/NeuralNetwork.cs:392-394 | the cleanup of one hidden layer releases its z, its a and its mask when there is one |
| Passes.Release | NeuralNetwork.NET/Networks/Implementations/NeuralNetwork.cs:390-397 | the cleanup releases exactly the feedforward tensors: every z, every a and every mask |
| Passes.ReleasedByRange | NeuralNetwork.NET/Networks/Implementations/NeuralNetwork.cs:385-397 | releasing the whole range from the first z to the last gradient releases every tensor of the pass |
| Passes.Balanced | NeuralNetwork.NET/Networks/Implementations/NeuralNetwork.cs:314-399 | allocation by the phases followed by the two releases leaves the live set as it was, with each new tensor released once |
| Passes.DeltasAndGradients | NeuralNetwork.NET/Networks/Implementations/NeuralNetwork.cs:346-374 | the backward calls followed by one gradient call per weighted layer on its input and the delta just written; the gradients are the next new handles in pairs |
| Passes.Phases | NeuralNetwork.NET/Networks/Implementations/NeuralNetwork.cs:327-374 | feedforward, deltas and gradients only allocate, over one layout of new tensors with masks exactly at the fully connected layers when dropout is on; the calls are exactly the feedforward calls, then the backward calls, then the gradient calls on the deltas just written |
| Passes.TrainOn | NeuralNetwork.NET/Networks/Implementations/NeuralNetwork.cs:327-398 | after the views are fixed, the pass leaves the live tensors as they were, releases exactly the tensors it allocated, and its call log is the feedforward, backward, gradient and updater sequences over those tensors |
| Passes.Backpropagate | NeuralNetwork.NET/Networks/Implementations/NeuralNetwork.cs:314-399 | the live tensors afterwards are those before; x and y are views that are never released; the releases are exactly the new owned tensors, each once (the memory forbids a second release); the kernel calls are exactly the feedforward, backward, gradient and updater call sequences of the pass |
| Dataflow.SettledMeans | NeuralNetwork.NET/Networks/Implementations/NeuralNetwork.cs:314-399 | in a log where no call overwrites a tensor that it or an earlier call only read, every write to a tensor comes before every call that only reads it |
| Dataflow.SettledAppend | NeuralNetwork.NET/Networks/Implementations/NeuralNetwork.cs:314-399 | two such logs stay such one after the other when the second overwrites nothing the first reads |
| Dataflow.StepFlow | NeuralNetwork.NET/Networks/Implementations/NeuralNetwork.cs:330-335 | a feedforward step overwrites exactly its z and a and reads only its input and its mask |
| Dataflow.FeedFlow | NeuralNetwork.NET/Networks/Implementations/NeuralNetwork.cs:328-336 | the first k feedforward steps never overwrite what they read, and read only x, earlier activations and masks |
| Dataflow.HiddenFlow | NeuralNetwork.NET/Networks/Implementations/NeuralNetwork.cs:349-359 | the backward steps from the top hidden layer down to layer l never overwrite what they read, read only tensors above z[l], and overwrite only pre-activations below the last one |
| Dataflow.DeltaFlow | NeuralNetwork.NET/Networks/Implementations/NeuralNetwork.cs:346-359 | the backward phase never overwrites what it reads, reads only y and tensors of the pass, and overwrites no activation but the last |
| Dataflow.GradientFlow | NeuralNetwork.NET/Networks/Implementations/NeuralNetwork.cs:367-374 | the gradient phase reads only tensors made before it and overwrites only the new gradients |
| Dataflow.UpdateFlow | NeuralNetwork.NET/Networks/Implementations/NeuralNetwork.cs:380-387 | the updater calls overwrite no tensor |
| Dataflow.ForwardBackFlow | NeuralNetwork.NET/Networks/Implementations/NeuralNetwork.cs:327-359 | the feedforward and backward phases together never overwrite what they have read, and read only tensors of the pass |
| Dataflow.PassDataflow | NeuralNetwork.NET/Networks/Implementations/NeuralNetwork.cs:314-399 | in the kernel calls of a training pass, every tensor is read only after every call that writes it: no kernel reads a tensor that a later kernel overwrites |
| Training.EpochStop | NeuralNetwork.NET/Networks/Implementations/NeuralNetwork.cs:451-477 | an epoch ends the session by cancellation if it is seen before a batch; else by overflow if a weighted layer fails validation; else by early stopping if validation converged; else not at all |
| Training.SessionFromStops | NeuralNetwork.NET/Networks/Implementations/NeuralNetwork.cs:445-487 | from any epoch on: the count is within the epochs, all epochs before the stop continue, the reason is that of the stopping epoch, and the reports are one per epoch in order |
| Training.SessionStops | NeuralNetwork.NET/Networks/Implementations/NeuralNetwork.cs:445-487 | the stop reason and count of a whole session; the count never exceeds the epochs; validation reports for every completed epoch plus the early-stopping one; test reports only for completed epochs |
| Training.NextIsLater | NeuralNetwork.NET/Networks/Implementations/NeuralNetwork.cs:445-485 | every step of an epoch comes before the step that follows it |
| Training.TraceOrdered | NeuralNetwork.NET/Networks/Implementations/NeuralNetwork.cs:445-485 | a trace that follows the steps is ordered: shuffle, batches, overflow check, progress, validation, test, epoch after epoch |
| Training.WeightsOverflow | NeuralNetwork.NET/Networks/Implementations/NeuralNetwork.cs:458-461 | the scan reports overflow iff some weighted layer fails validation |
| Training.RunBatches | NeuralNetwork.NET/Networks/Implementations/NeuralNetwork.cs:451-455 | the batches stop iff cancellation is seen before one of them, and the trace then ends in that epoch's shuffle or one of its batches |
| Training.CloseEpoch | NeuralNetwork.NET/Networks/Implementations/NeuralNetwork.cs:464-485 | progress, validation and test reports, each when present; the session stops iff validation converged, and then without a test report |
| Training.Optimize | NeuralNetwork.NET/Networks/Implementations/NeuralNetwork.cs:419-488 | the result is the session specification; the trace starts with the first shuffle, each step is followed by its successor, and it ends with the step that stopped the session |
| Evaluation.Agreements | NeuralNetwork.NET/Networks/Implementations/NeuralNetwork.cs:623-633 | the count is at most the number of samples, all of them iff every prediction is right, none iff every prediction is wrong |
| Evaluation.AgreementsAppend | NeuralNetwork.NET/Networks/Implementations/NeuralNetwork.cs:660-677 | counting two runs of samples separately adds up to counting them together |
| Evaluation.AgreementsPrefix | NeuralNetwork.NET/Networks/Implementations/NeuralNetwork.cs:660-677 | the count up to the end of a batch is the count before it plus the batch's count |
| Evaluation.CountClassified | NeuralNetwork.NET/Networks/Implementations/NeuralNetwork.cs:623-633 | the counting loop over the rows returns the number of agreeing samples |
| Evaluation.EvaluateBatch | NeuralNetwork.NET/Networks/Implementations/NeuralNetwork.cs:615-637 | a batch returns the number of agreeing samples, and the live tensors afterwards are those before: every tensor it allocates, including the network output, is released |
| Evaluation.FullSpans | NeuralNetwork.NET/Networks/Implementations/NeuralNetwork.cs:660-667 | the n full batches: batch k starts at k × size and holds size samples |
| Evaluation.SpansTile | NeuralNetwork.NET/Networks/Implementations/NeuralNetwork.cs:654-677 | the batches are h / size plus one for a remainder, start at 0, follow each other without gap or overlap, hold size samples except a shorter last one, and end at h |
| Evaluation.AccuracyOf | NeuralNetwork.NET/Networks/Implementations/NeuralNetwork.cs:678 | the accuracy is not a number exactly when there are no samples; otherwise it lies between 0 and 100, and is 100 when all are classified |
| Evaluation.EvaluateSpan | NeuralNetwork.NET/Networks/Implementations/NeuralNetwork.cs:660-667 | one batch fixed over its span adds its count, and leaves the live tensors as they were |
| Evaluation.EvaluateFullBatches | NeuralNetwork.NET/Networks/Implementations/NeuralNetwork.cs:660-667 | the full batches count the samples they cover and visit exactly the full spans |
| Evaluation.EvaluateSet | NeuralNetwork.NET/Networks/Implementations/NeuralNetwork.cs:644-680 | the count over all batches is the count over the whole set and at most h; the spans visited are exactly the tiling; the accuracy is that of the count; no owned tensor stays alive |
| Evaluation.Classified | NeuralNetwork.NET/Networks/Implementations/NeuralNetwork.cs:686-706 | the classified samples of a collection of batches are at most its samples |
| Evaluation.EvaluateBatches | NeuralNetwork.NET/Networks/Implementations/NeuralNetwork.cs:686-706 | the count is that of all batches, at most their samples, and the accuracy is that of the count; no owned tensor stays alive |
| Optimizers.Descend | NeuralNetwork.NET/Networks/Implementations/NeuralNetwork.cs:520-522 | every element becomes its own old value minus its decay and its scaled gradient, reading no other element |
| Optimizers.DescendSplit | NeuralNetwork.NET/Networks/Implementations/NeuralNetwork.cs:520-522 | updating two parts separately is updating the whole: the update is elementwise |
| Optimizers.DescendDecays | NeuralNetwork.NET/Networks/Implementations/NeuralNetwork.cs:518-531 | without a gradient, a decay in [0, 1] shrinks every weight towards zero without crossing it, and without a decay (the biases) nothing moves |
| Optimizers.DescendOpposes | NeuralNetwork.NET/Networks/Implementations/NeuralNetwork.cs:522 | with a positive learning rate, a parameter moves against its gradient, apart from its decay |
| Optimizers.DescendInPlace | NeuralNetwork.NET/Networks/Implementations/NeuralNetwork.cs:518-532 | the loop over one array leaves it equal to the descent of its old contents |
| Optimizers.SgdMinimize | NeuralNetwork.NET/Networks/Implementations/NeuralNetwork.cs:512-534 | weights descend with rate eta/samples and L2 factor eta·lambda/samples; biases descend with the same rate and no L2 term |
| Optimizers.Decayed | NeuralNetwork.NET/Networks/Implementations/NeuralNetwork.cs:575 | a running average of squares with a decay rate in [0, 1] is never negative, and with rate 1 stays put |
| Optimizers.AdadeltaOne | NeuralNetwork.NET/Networks/Implementations/NeuralNetwork.cs:573-581 | one Adadelta step keeps both running averages non-negative |
| Optimizers.AdadeltaOpposes | NeuralNetwork.NET/Networks/Implementations/NeuralNetwork.cs:573-581 | the Adadelta step moves the parameter against its gradient, apart from its L2 decay; without a gradient only the decay applies and the averages shrink by rho |
| Optimizers.AdadeltaInPlace | NeuralNetwork.NET/Networks/Implementations/NeuralNetwork.cs:565-582 | every parameter and its two averages take one Adadelta step from their own old values |
| Optimizers.Zeroed | NeuralNetwork.NET/Networks/Implementations/NeuralNetwork.cs:557-560 | new accumulators are all zero, sized by the layer's weights and biases |
| Optimizers.ShapeAsWritten | NeuralNetwork.NET/Networks/Implementations/NeuralNetwork.cs:557-558 | the shape asked of a weights array exists exactly when the array has at least two dimensions, and for two dimensions it holds every weight |
| Optimizers.AllShapes | NeuralNetwork.NET/Networks/Implementations/NeuralNetwork.cs:554-561 | the set-up loop succeeds exactly when every layer's shape exists, and then yields them in order |
| Optimizers.AdadeltaSetupThrows | NeuralNetwork.NET/Networks/Implementations/NeuralNetwork.cs:554-561 | with flat weights arrays, the set-up as written fails exactly when the network has a weighted layer |
| Optimizers.Adadelta.constructor | NeuralNetwork.NET/Networks/Implementations/NeuralNetwork.cs:548-561 | one zeroed set of accumulators per weighted layer of the network, in the order of its weighted indexes, sized by that layer's number of weights and of biases |
| Optimizers.Adadelta.Minimize | NeuralNetwork.NET/Networks/Implementations/NeuralNetwork.cs:563-605 | the weights and biases of layer i take the Adadelta step with slot i's averages, which keep their new values for the next call; no other slot changes |

## Findings

| source | as written | input that shows it | evidently intended | confidence | as-written member | corrected member |
|---|---|---|---|---|---|---|
| NeuralNetwork.NET/Networks/Implementations/NeuralNetwork.cs:557-558 | the Adadelta set-up sizes each weight accumulator by `Weights.GetLength(0)` × `Weights.GetLength(1)`, but the weights of a fully connected layer are a flat `float[]` (`FullyConnectedLayer.cs:29`, `:69`), which has no dimension 1 | any network with a weighted layer, e.g. a fully connected layer followed by an output layer: `GetLength(1)` is out of range and throws before training starts | one accumulator per weight, `Weights.Length` long, as the update loop at `:571` reads it | not executed; medium (the weights' declared type is not part of this model) | Optimizers.AdadeltaSetupThrows | Optimizers.Adadelta.constructor |

## Left out

- Floating point: weights, gradients and accumulators are reals; the cost, the float kernels (`MultiplyWithSum`, `Activation`, `Transpose`, `CompressVertically`, the cost functions) and the float rounding of the accuracy are not modelled.
- Tensor contents: a tensor is a handle with a shape. The kernels only allocate, read or overwrite handles. The temporary transposes inside the fully connected layer's kernels are allocated and released inside the kernel and do not appear.
- Argmax: `MatrixExtensions.Argmax` is not part of this model. Each sample is given by its predicted and its expected class index.
- Concurrency: the `Parallel.For` loops (weight update, overflow check, counting) and `Interlocked.Increment` are sequential loops.
- Randomness: `ThreadSafeRandom.NextDropoutMask` only allocates the mask tensor; its values are not modelled.
- `BatchesCollection.CrossShuffle` and `RelativeConvergence` are not part of this model. The shuffle is a trace step, and convergence is an oracle.
- Stack arrays: the `stackalloc` slot arrays of the training pass are sequences of handles built in order, rather than arrays written in place.
- `Save`, `SerializeAsJson`, `ExportWeightsAsImages`, `Backpropagate2`, `CalculateCost`, `ExtractDeepFeatures` and the public wrappers are not modelled. They are I/O, a duplicate nothing calls, or float computations.
- Samples/DigitsTest/Program.cs is a console sample program and is not modelled.
- Tensors.Memory.Free: releasing a view is a precondition violation in the model; only live owned tensors can be released, so a release of a view cannot be proved.
- Passes.Forward: requires the input width to be the first layer's inputs. The source fixes a view of any length, and the first layer's kernel then fails; that failure is not modelled.
- Evaluation.EvaluateBatch: requires the input width to be the first layer's inputs. The source evaluates any data set, and the first layer's kernel then fails; that failure is not modelled.
- Evaluation.EvaluateSpan: requires the widths wx and wy to be the network's input and output widths, for the same reason.
- Evaluation.EvaluateFullBatches: requires the widths wx and wy to be the network's input and output widths, for the same reason.
- Evaluation.EvaluateSet: requires the widths wx and wy to be the network's input and output widths, for the same reason. A validation or test set of other widths makes the source's kernels fail.
- Evaluation.EvaluateBatches: requires every batch to have the network's widths, for the same reason.
- Passes.Backpropagate: requires the batch's input width to be the network's inputs and the expected outputs to have the batch's rows and the network's outputs. The source leaves these to the kernels.
- Evaluation.EvaluateBatch: requires the expected outputs to have the network output's shape. The source reads both with the expected outputs' width.
- Evaluation.EvaluateSet: takes the batch size as a positive parameter. In the source it is the library constant `NetworkManager.MaximumBatchSize`.
- Training.Optimize: the epoch count is a natural number. The source takes a signed count; for a negative one it skips the loop and returns `EpochsCompleted` with that count.
- Training.Optimize: each batch is a trace step standing for one call of the training pass. The reports carry only their epoch, because their cost and accuracy are floats.
- Optimizers.SgdMinimize: requires at least one sample, since the real division by zero has no value. The source's float division would give an infinite rate.
- Optimizers.AdadeltaOne: requires a decay rate in [0, 1], a positive epsilon, and a square root that is positive on positive numbers. The source checks none of these, and without them the real division could be by zero. `Math.Sqrt` is a parameter.
- Optimizers.Adadelta.constructor: sizes the weight accumulators by the flat number of weights, the intended behaviour; the set-up as written is under "## Findings".
- Layer weights: each layer's weights are a flat array of `weightCount` floats, as `FullyConnectedLayer.cs:29` takes them; the rank of the weights array of the other weighted layer types is not part of this model.
- Optimizers.Adadelta.Minimize: the accumulators are sequences held by the optimizer object. In the source they are unmanaged tensors, released nowhere in the file.
- The bounded-update behaviour of Adadelta under a constant gradient would need properties of the square root beyond positivity, and is not proved.

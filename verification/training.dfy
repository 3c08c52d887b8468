/**
 * The training session of the network: for each epoch, shuffle the training
 * batches, run one training pass per batch, check the weights for numeric
 * overflow, then report progress, evaluate the validation set (which may stop
 * the session early) and evaluate the test set. Cancellation, weight
 * validation and convergence are observations of the outside world and are
 * given as oracles; each evaluation report is known only by its epoch.
 */
module Training {
  import opened Layers
  import opened Network

  datatype StopReason = EpochsCompleted | EarlyStopping | TrainingCanceled | NumericOverflow

  /** An evaluation report taken in the given epoch (its cost and accuracy are
      floating-point values and are not modelled). */
  datatype Report = Report(epoch: nat)

  datatype SessionResult = SessionResult(
    reason: StopReason,
    loops: nat,                     // the epoch count reported with the reason
    validationReports: seq<Report>,
    testReports: seq<Report>)

  /** What the session learns from outside. */
  datatype Oracles = Oracles(
    batches: nat,                   // the number of training batches
    cancelled: (nat, nat) -> bool,  // cancellation seen before batch j of epoch i
    layerValid: (nat, nat) -> bool, // after epoch i, the weights of layer l validate
    progress: bool,                 // a training progress callback is present
    validation: bool,               // validation parameters are present
    converged: nat -> bool,         // the validation accuracy of epoch i converged
    test: bool)                     // test parameters are present

  /** The observable steps of a session, in the order the session takes them. */
  datatype Event =
    | Shuffle(epoch: nat)
    | Batch(epoch: nat, index: nat)
    | OverflowCheck(epoch: nat)
    | TrainingProgress(epoch: nat)
    | Validation(epoch: nat)
    | Test(epoch: nat)

  /** Some weighted layer fails validation after epoch i. */
  predicate Overflow(layers: seq<Layer>, valid: (nat, nat) -> bool, i: nat) {
    exists l :: 0 <= l < |layers| && layers[l].weighted && !valid(i, l)
  }

  /** Cancellation is seen before one of the batches of epoch i. */
  predicate Cancelled(o: Oracles, i: nat) {
    exists j :: 0 <= j < o.batches && o.cancelled(i, j)
  }

  /** How epoch i ends the session, if it does: cancellation is checked first,
      then overflow, then convergence of the validation accuracy. */
  function EpochStop(o: Oracles, layers: seq<Layer>, i: nat): (r: Option<StopReason>)
    ensures r == Some(TrainingCanceled) <==> Cancelled(o, i)
    ensures r == Some(NumericOverflow) <==> !Cancelled(o, i) && Overflow(layers, o.layerValid, i)
    ensures r == Some(EarlyStopping) <==>
      !Cancelled(o, i) && !Overflow(layers, o.layerValid, i) && o.validation && o.converged(i)
    ensures r != Some(EpochsCompleted)
  {
    if Cancelled(o, i) then Some(TrainingCanceled)
    else if Overflow(layers, o.layerValid, i) then Some(NumericOverflow)
    else if o.validation && o.converged(i) then Some(EarlyStopping)
    else None
  }

  /** The session from epoch i on, with the reports vr and tr gathered so far. */
  function SessionFrom(o: Oracles, layers: seq<Layer>, epochs: nat, i: nat, vr: seq<Report>, tr: seq<Report>): SessionResult
    decreases epochs - i
  {
    if i >= epochs then SessionResult(EpochsCompleted, epochs, vr, tr)
    else match EpochStop(o, layers, i)
      case Some(EarlyStopping) => SessionResult(EarlyStopping, i, vr + [Report(i)], tr)
      case Some(reason) => SessionResult(reason, i, vr, tr)
      case None =>
        SessionFrom(o, layers, epochs, i + 1,
                    vr + (if o.validation then [Report(i)] else []),
                    tr + (if o.test then [Report(i)] else []))
  }

  /** The result of a whole session of the given number of epochs. */
  function Session(o: Oracles, layers: seq<Layer>, epochs: nat): SessionResult {
    SessionFrom(o, layers, epochs, 0, [], [])
  }

  /** The reports of the epochs lo up to hi, one per epoch. */
  predicate ReportsOf(reports: seq<Report>, lo: nat, hi: nat) {
    |reports| == hi - lo && forall k :: 0 <= k < |reports| ==> reports[k] == Report(lo + k)
  }

  /** From epoch i on: the session stops at the first epoch that ends it, or
      completes all epochs; every epoch before the stop ran to its end and
      contributed its reports. */
  lemma {:induction false} SessionFromStops(o: Oracles, layers: seq<Layer>, epochs: nat, i: nat, vr: seq<Report>, tr: seq<Report>)
    requires i <= epochs
    requires ReportsOf(vr, 0, if o.validation then i else 0) && ReportsOf(tr, 0, if o.test then i else 0)
    ensures var r := SessionFrom(o, layers, epochs, i, vr, tr);
      && i <= r.loops <= epochs
      && (forall k :: i <= k < r.loops ==> EpochStop(o, layers, k) == None)
      && (r.reason == EpochsCompleted ==> r.loops == epochs)
      && (r.reason != EpochsCompleted ==> r.loops < epochs && EpochStop(o, layers, r.loops) == Some(r.reason))
      && ReportsOf(r.validationReports, 0, (if o.validation then r.loops else 0) + (if r.reason == EarlyStopping then 1 else 0))
      && ReportsOf(r.testReports, 0, if o.test then r.loops else 0)
    decreases epochs - i
  {
    if i < epochs && EpochStop(o, layers, i) == None {
      var vr' := vr + (if o.validation then [Report(i)] else []);
      var tr' := tr + (if o.test then [Report(i)] else []);
      assert ReportsOf(vr', 0, if o.validation then i + 1 else 0);
      assert ReportsOf(tr', 0, if o.test then i + 1 else 0);
      SessionFromStops(o, layers, epochs, i + 1, vr', tr');
    } else if i < epochs && EpochStop(o, layers, i) == Some(EarlyStopping) {
      assert ReportsOf(vr + [Report(i)], 0, i + 1);
    }
  }

  /** Which reason a session returns and with which count: the first epoch
      that is cancelled, overflows or converges, in that order of precedence
      within the epoch, or all epochs completed. The count never exceeds the
      epochs; a validation report is gathered for every completed epoch and
      for the epoch that stopped early, a test report only for every
      completed epoch. */
  lemma SessionStops(o: Oracles, layers: seq<Layer>, epochs: nat)
    ensures var r := Session(o, layers, epochs);
      && r.loops <= epochs
      && (forall k :: 0 <= k < r.loops ==> EpochStop(o, layers, k) == None)
      && (r.reason == EpochsCompleted ==> r.loops == epochs)
      && (r.reason != EpochsCompleted ==> r.loops < epochs && EpochStop(o, layers, r.loops) == Some(r.reason))
      && ReportsOf(r.validationReports, 0, (if o.validation then r.loops else 0) + (if r.reason == EarlyStopping then 1 else 0))
      && ReportsOf(r.testReports, 0, if o.test then r.loops else 0)
  {
    SessionFromStops(o, layers, epochs, 0, [], []);
  }

  /** The step after a finished progress report: validation, else test, else
      the next epoch. */
  function AfterProgress(o: Oracles, i: nat): Event {
    if o.validation then Validation(i) else if o.test then Test(i) else Shuffle(i + 1)
  }

  /** The last step of an epoch that ran to its end. */
  function EpochEnd(o: Oracles, i: nat): Event {
    if o.test then Test(i)
    else if o.validation then Validation(i)
    else if o.progress then TrainingProgress(i)
    else OverflowCheck(i)
  }

  /** The step that follows e when the session does not stop there. */
  function Next(o: Oracles, e: Event): Event {
    match e
    case Shuffle(i) => if o.batches > 0 then Batch(i, 0) else OverflowCheck(i)
    case Batch(i, j) => if j + 1 < o.batches then Batch(i, j + 1) else OverflowCheck(i)
    case OverflowCheck(i) => if o.progress then TrainingProgress(i) else AfterProgress(o, i)
    case TrainingProgress(i) => AfterProgress(o, i)
    case Validation(i) => if o.test then Test(i) else Shuffle(i + 1)
    case Test(i) => Shuffle(i + 1)
  }

  /** Each step of the trace is followed by its successor. */
  predicate Chain(o: Oracles, trace: seq<Event>) {
    forall k :: 0 <= k < |trace| - 1 ==> trace[k + 1] == Next(o, trace[k])
  }

  lemma ChainExtend(o: Oracles, trace: seq<Event>, e: Event)
    requires Chain(o, trace) && |trace| > 0 && e == Next(o, trace[|trace| - 1])
    ensures Chain(o, trace + [e])
  {
  }

  /** The rank of a step within its epoch. */
  function Phase(e: Event): nat {
    match e
    case Shuffle(_) => 0
    case Batch(_, _) => 1
    case OverflowCheck(_) => 2
    case TrainingProgress(_) => 3
    case Validation(_) => 4
    case Test(_) => 5
  }

  /** Step a comes strictly before step b: an earlier epoch, or an earlier
      phase of the same epoch, or an earlier batch. */
  predicate Before(a: Event, b: Event) {
    || a.epoch < b.epoch
    || (a.epoch == b.epoch && Phase(a) < Phase(b))
    || (a.epoch == b.epoch && a.Batch? && b.Batch? && a.index < b.index)
  }

  /** Every step comes before its successor. */
  lemma NextIsLater(o: Oracles, e: Event)
    ensures Before(e, Next(o, e))
  {
  }

  /** A trace in which each step is followed by its successor is in the order
      shuffle, batches, overflow check, training progress, validation, test,
      epoch after epoch. */
  lemma {:induction false} TraceOrdered(o: Oracles, trace: seq<Event>)
    requires Chain(o, trace)
    ensures forall k, k' :: 0 <= k < k' < |trace| ==> Before(trace[k], trace[k'])
    decreases |trace|
  {
    if |trace| > 1 {
      var t := trace[..|trace| - 1];
      assert Chain(o, t) by {
        forall k | 0 <= k < |t| - 1 ensures t[k + 1] == Next(o, t[k]) {
          assert t[k] == trace[k] && t[k + 1] == trace[k + 1];
        }
      }
      TraceOrdered(o, t);
      var n := |trace| - 1;
      NextIsLater(o, trace[n - 1]);
      forall k, k' | 0 <= k < k' < |trace|
        ensures Before(trace[k], trace[k'])
      {
        if k' < n {
          assert trace[k] == t[k] && trace[k'] == t[k'];
        } else if k < n - 1 {
          assert Before(t[k], t[n - 1]);
          assert trace[k] == t[k] && trace[n - 1] == t[n - 1];
        }
      }
    }
  }

  /** The overflow check after an epoch: the layers are scanned and the scan
      stops at the first weighted layer whose weights do not validate. */
  method WeightsOverflow(layers: seq<Layer>, valid: (nat, nat) -> bool, i: nat) returns (overflow: bool)
    ensures overflow <==> Overflow(layers, valid, i)
  {
    var l := 0;
    while l < |layers|
      invariant 0 <= l <= |layers|
      invariant forall k :: 0 <= k < l ==> !(layers[k].weighted && !valid(i, k))
    {
      if layers[l].weighted && !valid(i, l) {
        return true;
      }
      l := l + 1;
    }
    return false;
  }

  /** One step of the session specification: an epoch that does not end the
      session adds its reports and hands over to the next epoch; one that does
      ends it with its reason. */
  lemma SessionStep(o: Oracles, layers: seq<Layer>, epochs: nat, i: nat, vr: seq<Report>, tr: seq<Report>)
    requires i < epochs
    ensures var r := SessionFrom(o, layers, epochs, i, vr, tr);
      && (Cancelled(o, i) ==> r == SessionResult(TrainingCanceled, i, vr, tr))
      && (!Cancelled(o, i) && Overflow(layers, o.layerValid, i) ==> r == SessionResult(NumericOverflow, i, vr, tr))
      && (!Cancelled(o, i) && !Overflow(layers, o.layerValid, i) && o.validation && o.converged(i) ==>
            r == SessionResult(EarlyStopping, i, vr + [Report(i)], tr))
      && (!Cancelled(o, i) && !Overflow(layers, o.layerValid, i) && !(o.validation && o.converged(i)) ==>
            r == SessionFrom(o, layers, epochs, i + 1,
                             vr + (if o.validation then [Report(i)] else []),
                             tr + (if o.test then [Report(i)] else [])))
  {
  }

  /** The training batches of epoch i: cancellation is checked before each
      batch, and each batch is one training pass (Passes.Backpropagate). */
  method RunBatches(o: Oracles, i: nat, ghost trace: seq<Event>) returns (cancelled: bool, ghost trace': seq<Event>)
    requires Chain(o, trace) && |trace| > 0 && trace[|trace| - 1] == Shuffle(i)
    ensures cancelled <==> Cancelled(o, i)
    ensures Chain(o, trace') && |trace'| >= |trace| && trace'[0] == trace[0]
    ensures cancelled ==>
      (trace'[|trace'| - 1].Shuffle? || trace'[|trace'| - 1].Batch?) && trace'[|trace'| - 1].epoch == i
    ensures !cancelled ==> Next(o, trace'[|trace'| - 1]) == OverflowCheck(i)
  {
    trace' := trace;
    var j := 0;
    while j < o.batches
      invariant 0 <= j <= o.batches
      invariant forall k :: 0 <= k < j ==> !o.cancelled(i, k)
      invariant Chain(o, trace') && |trace'| >= |trace| && trace'[0] == trace[0]
      invariant trace'[|trace'| - 1] == if j == 0 then Shuffle(i) else Batch(i, j - 1)
    {
      if o.cancelled(i, j) {
        return true, trace';
      }
      ChainExtend(o, trace', Batch(i, j));
      trace' := trace' + [Batch(i, j)];
      j := j + 1;
    }
    return false, trace';
  }

  /** The end of an epoch whose weights validated: the progress report, the
      validation report (which stops the session once the validation accuracy
      converged) and the test report, each only when its callback or data
      set is present. */
  method CloseEpoch(o: Oracles, i: nat, vr: seq<Report>, tr: seq<Report>, ghost trace: seq<Event>)
    returns (stop: bool, vr': seq<Report>, tr': seq<Report>, ghost trace': seq<Event>)
    requires Chain(o, trace) && |trace| > 0 && trace[|trace| - 1] == OverflowCheck(i)
    ensures stop <==> o.validation && o.converged(i)
    ensures Chain(o, trace') && |trace'| > 0 && trace'[0] == trace[0]
    ensures stop ==> vr' == vr + [Report(i)] && tr' == tr && trace'[|trace'| - 1] == Validation(i)
    ensures !stop ==>
      && vr' == vr + (if o.validation then [Report(i)] else [])
      && tr' == tr + (if o.test then [Report(i)] else [])
      && trace'[|trace'| - 1] == EpochEnd(o, i)
  {
    vr', tr', trace' := vr, tr, trace;
    if o.progress {
      ChainExtend(o, trace', TrainingProgress(i));
      trace' := trace' + [TrainingProgress(i)];
    }
    if o.validation {
      ChainExtend(o, trace', Validation(i));
      trace' := trace' + [Validation(i)];
      vr' := vr' + [Report(i)];
      if o.converged(i) {
        return true, vr', tr', trace';
      }
    }
    if o.test {
      ChainExtend(o, trace', Test(i));
      trace' := trace' + [Test(i)];
      tr' := tr' + [Report(i)];
    }
    stop := false;
  }

  /** The training session. */
  method Optimize(o: Oracles, layers: seq<Layer>, epochs: nat) returns (r: SessionResult, ghost trace: seq<Event>)
    ensures r == Session(o, layers, epochs)
    // the steps: from the first shuffle on, each step followed by its successor
    ensures epochs == 0 <==> trace == []
    ensures epochs > 0 ==> trace[0] == Shuffle(0)
    ensures Chain(o, trace)
    // and the last step is the one that ended the session
    ensures r.reason == TrainingCanceled ==>
      (trace[|trace| - 1].Shuffle? || trace[|trace| - 1].Batch?) && trace[|trace| - 1].epoch == r.loops
    ensures r.reason == NumericOverflow ==> trace[|trace| - 1] == OverflowCheck(r.loops)
    ensures r.reason == EarlyStopping ==> trace[|trace| - 1] == Validation(r.loops)
    ensures r.reason == EpochsCompleted && epochs > 0 ==> trace[|trace| - 1] == EpochEnd(o, epochs - 1)
  {
    var validationReports, testReports := [], [];
    trace := [];
    var i := 0;
    while i < epochs
      invariant 0 <= i <= epochs
      invariant Session(o, layers, epochs) == SessionFrom(o, layers, epochs, i, validationReports, testReports)
      invariant i == 0 <==> trace == []
      invariant i > 0 ==> trace[0] == Shuffle(0) && trace[|trace| - 1] == EpochEnd(o, i - 1)
      invariant Chain(o, trace)
    {
      SessionStep(o, layers, epochs, i, validationReports, testReports);
      if i > 0 {
        ChainExtend(o, trace, Shuffle(i));
      }
      trace := trace + [Shuffle(i)];
      var cancelled;
      cancelled, trace := RunBatches(o, i, trace);
      if cancelled {
        r := SessionResult(TrainingCanceled, i, validationReports, testReports);
        return;
      }
      ChainExtend(o, trace, OverflowCheck(i));
      trace := trace + [OverflowCheck(i)];
      var overflow := WeightsOverflow(layers, o.layerValid, i);
      if overflow {
        r := SessionResult(NumericOverflow, i, validationReports, testReports);
        return;
      }
      var stop;
      stop, validationReports, testReports, trace := CloseEpoch(o, i, validationReports, testReports, trace);
      if stop {
        r := SessionResult(EarlyStopping, i, validationReports, testReports);
        return;
      }
      i := i + 1;
    }
    r := SessionResult(EpochsCompleted, epochs, validationReports, testReports);
  }
}

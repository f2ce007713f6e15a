/** The epoch-oriented training simulator: a running/idle state machine with a
    guarded interval timer, an epoch counter, clamped synthetic loss and accuracy,
    their history, and two read-only views (progress and insights). */
module TrainingSimulation {
  import opened Basics

  const DefaultLearningRate: real := 0.01
  const DefaultBatchSize: int := 32
  const MaxEpochs: int := 100

  /** The loss of one epoch: the decay curve `exp(-epoch / 25)` plus noise
      `(Math.random() - 0.5) * 0.1`, floored at 0.01. */
  function EpochLoss(curve: real, random: real): (r: real)
    ensures r >= 0.01
    ensures r >= curve + (random - 0.5) * 0.1
    ensures r == 0.01 || r == curve + (random - 0.5) * 0.1
    ensures 0.0 <= curve <= 1.0 && 0.0 <= random < 1.0 ==> r < 1.05
  {
    MaxReal(0.01, curve + (random - 0.5) * 0.1)
  }

  /** The accuracy of one epoch: `1 - exp(-epoch / 20)` plus noise
      `(Math.random() - 0.5) * 0.05`, capped at 0.99. */
  function EpochAccuracy(curve: real, random: real): (r: real)
    ensures r <= 0.99
    ensures r <= 1.0 - curve + (random - 0.5) * 0.05
    ensures r == 0.99 || r == 1.0 - curve + (random - 0.5) * 0.05
    ensures 0.0 <= curve <= 1.0 && 0.0 <= random < 1.0 ==> r >= -0.025
  {
    MinReal(0.99, 1.0 - curve + (random - 0.5) * 0.05)
  }

  /** The epoch as a percentage of the 100 maximum epochs, capped at 100. */
  function TrainingProgress(epoch: nat): (r: real)
    ensures r == MinReal(100.0, epoch as real)
    ensures 0.0 <= r <= 100.0
  {
    MinReal(100.0, (epoch as real / MaxEpochs as real) * 100.0)
  }

  /** More epochs never mean less progress. */
  lemma TrainingProgressMonotone(e1: nat, e2: nat)
    requires e1 <= e2
    ensures TrainingProgress(e1) <= TrainingProgress(e2)
  {
  }

  datatype Status = Initializing | Starting | Learning | LearningWell | Converging {
    /** How far along the status is; used to compare statuses. */
    function Rank(): nat {
      match this
      case Initializing => 0
      case Starting => 1
      case Learning => 2
      case LearningWell => 3
      case Converging => 4
    }
  }

  datatype Insights = Insights(
    status: Status,
    learningSpeed: real,
    isConverging: bool,
    estimatedTimeRemaining: real)

  /** The converging test shared by the status and the isConverging flag. */
  predicate ConvergingMetrics(loss: real, accuracy: real) {
    loss < 0.1 && accuracy > 0.9
  }

  /** The status checks, first match wins, after the first epoch. */
  function StatusOf(loss: real, accuracy: real, epoch: nat): (s: Status)
    ensures s == Initializing <==> epoch == 0
    ensures s == Converging <==> epoch > 0 && ConvergingMetrics(loss, accuracy)
    ensures s == LearningWell <==> epoch > 0 && !ConvergingMetrics(loss, accuracy) && loss < 0.3 && accuracy > 0.7
    ensures s == Learning <==> epoch > 0 && !ConvergingMetrics(loss, accuracy) && !(loss < 0.3 && accuracy > 0.7) && loss < 0.5
    ensures s == Starting <==> epoch > 0 && !(loss < 0.3 && accuracy > 0.7) && loss >= 0.5
  {
    if epoch == 0 then Initializing
    else if ConvergingMetrics(loss, accuracy) then Converging
    else if loss < 0.3 && accuracy > 0.7 then LearningWell
    else if loss < 0.5 then Learning
    else Starting
  }

  /** A lower loss and a higher accuracy never give a status further back. */
  lemma StatusMonotone(loss1: real, accuracy1: real, loss2: real, accuracy2: real, epoch: nat)
    requires loss2 <= loss1 && accuracy2 >= accuracy1
    ensures StatusOf(loss1, accuracy1, epoch).Rank() <= StatusOf(loss2, accuracy2, epoch).Rank()
  {
  }

  /** getTrainingInsights over the current values, the loss history and the run
      flag; the remaining time is in seconds, before formatting. */
  function GetInsights(loss: real, accuracy: real, epoch: nat, isRunning: bool, lossHistory: seq<real>): (r: Insights)
    ensures r.status == StatusOf(loss, accuracy, epoch)
    ensures r.isConverging <==> ConvergingMetrics(loss, accuracy)
    ensures r.status == Converging <==> epoch > 0 && r.isConverging
    ensures |lossHistory| < 2 ==> r.learningSpeed == 0.0
    ensures |lossHistory| >= 2 ==>
      (r.learningSpeed > 0.0 <==> lossHistory[|lossHistory| - 1] < lossHistory[|lossHistory| - 2])
    ensures r.estimatedTimeRemaining >= 0.0
    ensures (!isRunning || epoch >= MaxEpochs) ==> r.estimatedTimeRemaining == 0.0
  {
    var n := |lossHistory|;
    Insights(
      StatusOf(loss, accuracy, epoch),
      if n > 1 then lossHistory[n - 2] - lossHistory[n - 1] else 0.0,
      ConvergingMetrics(loss, accuracy),
      if isRunning then MaxReal(0.0, (100.0 - epoch as real) * 0.5) else 0.0)
  }

  /** Loss 0.05 and accuracy 0.95 after the first epoch read as converging. */
  lemma ConvergingExample(epoch: nat, isRunning: bool, lossHistory: seq<real>)
    requires epoch > 0
    ensures GetInsights(0.05, 0.95, epoch, isRunning, lossHistory).status == Converging
  {
  }

  class Simulation {
    var epoch: nat
    var loss: real
    var accuracy: real
    var learningRate: real
    var batchSize: int
    var isRunning: bool
    var lossHistory: seq<real>
    var accuracyHistory: seq<real>
    /** The interval timer's handle, when one is installed. */
    var interval: Option<nat>

    /** The object invariant: one history entry per epoch, the current values are
        the last ones recorded, every recorded value respects its clamp, and the
        simulator is running exactly when a timer is installed. */
    predicate Valid()
      reads this
    {
      && |lossHistory| == |accuracyHistory| == epoch
      && (epoch > 0 ==> loss == lossHistory[epoch - 1] && accuracy == accuracyHistory[epoch - 1])
      && (forall k :: 0 <= k < |lossHistory| ==> lossHistory[k] >= 0.01)
      && (forall k :: 0 <= k < |accuracyHistory| ==> accuracyHistory[k] <= 0.99)
      && (isRunning <==> interval.Some?)
    }

    /** The state resetTraining restores, which is also the initial state. */
    predicate AtDefaults()
      reads this
    {
      && epoch == 0 && loss == 0.0 && accuracy == 0.0
      && learningRate == DefaultLearningRate && batchSize == DefaultBatchSize
      && !isRunning && interval.None?
      && lossHistory == [] && accuracyHistory == []
    }

    constructor ()
      ensures Valid() && AtDefaults()
    {
      epoch := 0;
      loss := 0.0;
      accuracy := 0.0;
      learningRate := DefaultLearningRate;
      batchSize := DefaultBatchSize;
      isRunning := false;
      lossHistory := [];
      accuracyHistory := [];
      interval := None;
    }

    /** One epoch: the curves stand for the `Math.exp` terms of the new epoch,
        the randoms for `Math.random()`. */
    method SimulateEpoch(lossCurve: real, lossRandom: real, accuracyCurve: real, accuracyRandom: real)
      requires Valid()
      modifies this
      ensures Valid()
      ensures epoch == old(epoch) + 1
      ensures loss == EpochLoss(lossCurve, lossRandom)
      ensures accuracy == EpochAccuracy(accuracyCurve, accuracyRandom)
      ensures lossHistory == old(lossHistory) + [loss]
      ensures accuracyHistory == old(accuracyHistory) + [accuracy]
      ensures learningRate == old(learningRate) && batchSize == old(batchSize)
      ensures isRunning == old(isRunning) && interval == old(interval)
    {
      var newEpoch := epoch + 1;
      var newLoss := EpochLoss(lossCurve, lossRandom);
      var newAccuracy := EpochAccuracy(accuracyCurve, accuracyRandom);
      lossHistory := lossHistory + [newLoss];
      accuracyHistory := accuracyHistory + [newAccuracy];
      epoch := newEpoch;
      loss := newLoss;
      accuracy := newAccuracy;
    }

    /** One firing of the installed interval timer. */
    method Tick(lossCurve: real, lossRandom: real, accuracyCurve: real, accuracyRandom: real)
      requires Valid() && interval.Some?
      modifies this
      ensures Valid() && isRunning
      ensures epoch == old(epoch) + 1
      ensures lossHistory == old(lossHistory) + [EpochLoss(lossCurve, lossRandom)]
      ensures accuracyHistory == old(accuracyHistory) + [EpochAccuracy(accuracyCurve, accuracyRandom)]
      ensures learningRate == old(learningRate) && batchSize == old(batchSize)
      ensures interval == old(interval)
    {
      SimulateEpoch(lossCurve, lossRandom, accuracyCurve, accuracyRandom);
    }

    /** Installs the timer `handle` unless one is installed already. */
    method StartTraining(handle: nat)
      requires Valid()
      modifies this
      ensures Valid() && isRunning
      ensures old(interval).Some? ==> interval == old(interval)
      ensures old(interval).None? ==> interval == Some(handle)
      ensures epoch == old(epoch) && loss == old(loss) && accuracy == old(accuracy)
      ensures learningRate == old(learningRate) && batchSize == old(batchSize)
      ensures lossHistory == old(lossHistory) && accuracyHistory == old(accuracyHistory)
    {
      if interval.Some? {
        return;
      }
      isRunning := true;
      interval := Some(handle);
    }

    method StopTraining()
      requires Valid()
      modifies this
      ensures Valid() && !isRunning && interval.None?
      ensures epoch == old(epoch) && loss == old(loss) && accuracy == old(accuracy)
      ensures learningRate == old(learningRate) && batchSize == old(batchSize)
      ensures lossHistory == old(lossHistory) && accuracyHistory == old(accuracyHistory)
    {
      if interval.Some? {
        interval := None;
      }
      isRunning := false;
    }

    method ResetTraining()
      requires Valid()
      modifies this
      ensures Valid() && AtDefaults()
    {
      StopTraining();
      epoch := 0;
      loss := 0.0;
      accuracy := 0.0;
      learningRate := DefaultLearningRate;
      batchSize := DefaultBatchSize;
      isRunning := false;
      lossHistory := [];
      accuracyHistory := [];
    }

    /** No validation: any value is stored, and nothing else changes. */
    method UpdateLearningRate(newRate: real)
      requires Valid()
      modifies this
      ensures Valid() && learningRate == newRate
      ensures epoch == old(epoch) && loss == old(loss) && accuracy == old(accuracy)
      ensures batchSize == old(batchSize) && isRunning == old(isRunning) && interval == old(interval)
      ensures lossHistory == old(lossHistory) && accuracyHistory == old(accuracyHistory)
    {
      learningRate := newRate;
    }

    /** No validation: any value is stored, and nothing else changes. */
    method UpdateBatchSize(newSize: int)
      requires Valid()
      modifies this
      ensures Valid() && batchSize == newSize
      ensures epoch == old(epoch) && loss == old(loss) && accuracy == old(accuracy)
      ensures learningRate == old(learningRate) && isRunning == old(isRunning) && interval == old(interval)
      ensures lossHistory == old(lossHistory) && accuracyHistory == old(accuracyHistory)
    {
      batchSize := newSize;
    }
  }
}

/** The metrics chart's data mapping, which pairs the loss and accuracy series
    into per-epoch records, and its chart-type selection. */
module MetricsChart {
  import opened Basics

  datatype ChartPoint = ChartPoint(epoch: nat, loss: real, accuracy: real)

  /** The accuracy plotted at index k: scaled to a percentage when the entry
      exists and is non-zero (truthy), otherwise 0. */
  function PlottedAccuracy(accuracy: seq<real>, k: nat): real {
    if k < |accuracy| && accuracy[k] != 0.0 then accuracy[k] * 100.0 else 0.0
  }

  /** One record per loss value: epoch k+1, that loss, and the accuracy as a
      percentage, or 0 when it is missing or zero. */
  function ChartData(loss: seq<real>, accuracy: seq<real>): (data: seq<ChartPoint>)
    ensures |data| == |loss|
    ensures forall k :: 0 <= k < |data| ==> data[k].epoch == k + 1 && data[k].loss == loss[k]
    ensures forall k :: 0 <= k < |data| ==>
      data[k].accuracy == if k < |accuracy| then accuracy[k] * 100.0 else 0.0
  {
    seq(|loss|, k requires 0 <= k < |loss| => ChartPoint(k + 1, loss[k], PlottedAccuracy(accuracy, k)))
  }

  /** The loss column of the records. */
  function LossColumn(data: seq<ChartPoint>): (r: seq<real>)
    ensures |r| == |data|
  {
    if data == [] then [] else LossColumn(data[..|data| - 1]) + [data[|data| - 1].loss]
  }

  /** The accuracy column of the records, scaled back from percentages. */
  function AccuracyColumn(data: seq<ChartPoint>): (r: seq<real>)
    ensures |r| == |data|
  {
    if data == [] then [] else AccuracyColumn(data[..|data| - 1]) + [data[|data| - 1].accuracy / 100.0]
  }

  lemma {:induction false} LossColumnAt(data: seq<ChartPoint>, k: nat)
    requires k < |data|
    ensures LossColumn(data)[k] == data[k].loss
  {
    if k < |data| - 1 {
      LossColumnAt(data[..|data| - 1], k);
    }
  }

  lemma {:induction false} AccuracyColumnAt(data: seq<ChartPoint>, k: nat)
    requires k < |data|
    ensures AccuracyColumn(data)[k] == data[k].accuracy / 100.0
  {
    if k < |data| - 1 {
      AccuracyColumnAt(data[..|data| - 1], k);
    }
  }

  /** The records give back the loss series exactly, and the accuracy series up
      to the length of the loss series; accuracy entries beyond it are dropped,
      and missing ones read back as 0. */
  lemma ChartDataRoundTrip(loss: seq<real>, accuracy: seq<real>)
    ensures LossColumn(ChartData(loss, accuracy)) == loss
    ensures |accuracy| >= |loss| ==> AccuracyColumn(ChartData(loss, accuracy)) == accuracy[..|loss|]
    ensures |accuracy| < |loss| ==>
      AccuracyColumn(ChartData(loss, accuracy)) == accuracy + seq(|loss| - |accuracy|, _ => 0.0)
  {
    var data := ChartData(loss, accuracy);
    forall k | 0 <= k < |data| ensures LossColumn(data)[k] == loss[k] {
      LossColumnAt(data, k);
    }
    forall k | 0 <= k < |data|
      ensures AccuracyColumn(data)[k] == if k < |accuracy| then accuracy[k] else 0.0
    {
      AccuracyColumnAt(data, k);
    }
  }

  /** Loss [0.9, 0.5] and accuracy [0.2, 0.8] give two records, epochs 1 and 2,
      with accuracies 20 and 80. */
  lemma ChartDataExample()
    ensures ChartData([0.9, 0.5], [0.2, 0.8]) == [ChartPoint(1, 0.9, 20.0), ChartPoint(2, 0.5, 80.0)]
  {
  }

  datatype ChartType = Line | Area | Bar

  /** handleChartTypeChange: a deselection (null) keeps the current chart type. */
  function ChartTypeChange(current: ChartType, selected: Option<ChartType>): (r: ChartType)
    ensures selected.None? ==> r == current
    ensures selected.Some? ==> r == selected.value
  {
    if selected.Some? then selected.value else current
  }

  /** Handling the same selection twice is handling it once. */
  lemma ChartTypeChangeIdempotent(current: ChartType, selected: Option<ChartType>)
    ensures ChartTypeChange(ChartTypeChange(current, selected), selected) == ChartTypeChange(current, selected)
  {
  }
}

/** The architecture and metrics store: the ordered layer list with add, remove
    and update by id, and the store-integrated training run whose interval tick
    steps the progress from 0 to 100 while growing the loss and accuracy lists. */
module NetworkStore {
  import opened Basics
  import opened Network

  /** The argument of addLayer: a layer without its id. */
  datatype LayerSpec = LayerSpec(
    layerType: LayerType,
    units: int,
    activation: Option<Activation>,
    name: string)

  /** A `Partial<LayerConfig>`: `None` for a key the update object leaves out.
      The activation key is optional in a layer, so `Some(None)` removes it. */
  datatype LayerUpdate = LayerUpdate(
    id: Option<string>,
    layerType: Option<LayerType>,
    units: Option<int>,
    activation: Option<Option<Activation>>,
    name: Option<string>)

  /** The default three-layer architecture: input dense[4, relu], hidden
      dense[8, relu], output dense[1, sigmoid], with ids "1", "2", "3". */
  const InitialLayers: seq<LayerConfig> := [
    LayerConfig("1", Dense, 4, Some(Relu), "Input Layer"),
    LayerConfig("2", Dense, 8, Some(Relu), "Hidden Layer 1"),
    LayerConfig("3", Dense, 1, Some(Sigmoid), "Output Layer")
  ]

  lemma InitialLayersUnique()
    ensures UniqueIds(InitialLayers)
  {
  }

  /** The layer addLayer appends: the given fields under the new id. */
  function WithId(spec: LayerSpec, id: string): LayerConfig {
    LayerConfig(id, spec.layerType, spec.units, spec.activation, spec.name)
  }

  /** Adding a layer under an id no layer has keeps the ids unique. */
  lemma AppendKeepsUnique(layers: seq<LayerConfig>, spec: LayerSpec, id: string)
    requires UniqueIds(layers) && FreshId(layers, id)
    ensures UniqueIds(layers + [WithId(spec, id)])
  {
  }

  // ---------------------------------------------------------------- removeLayer

  /** The layers whose id differs from `id`, in their original order. */
  function RemoveLayer(layers: seq<LayerConfig>, id: string): (r: seq<LayerConfig>)
    ensures |r| <= |layers|
    ensures forall l :: l in r <==> l in layers && l.id != id
    ensures FreshId(layers, id) ==> r == layers
  {
    if layers == [] then []
    else (if layers[0].id != id then [layers[0]] else []) + RemoveLayer(layers[1..], id)
  }

  /** Filtering commutes with concatenation: the surviving layers keep their
      relative order. */
  lemma {:induction false} RemoveLayerConcat(a: seq<LayerConfig>, b: seq<LayerConfig>, id: string)
    ensures RemoveLayer(a + b, id) == RemoveLayer(a, id) + RemoveLayer(b, id)
  {
    if a == [] {
      assert a + b == b;
    } else {
      assert (a + b)[0] == a[0];
      assert (a + b)[1..] == a[1..] + b;
      RemoveLayerConcat(a[1..], b, id);
    }
  }

  /** Removing the same id a second time changes nothing. */
  lemma {:induction false} RemoveLayerIdempotent(layers: seq<LayerConfig>, id: string)
    ensures RemoveLayer(RemoveLayer(layers, id), id) == RemoveLayer(layers, id)
  {
    var r := RemoveLayer(layers, id);
    forall k | 0 <= k < |r| ensures r[k].id != id {
      assert r[k] in r;
    }
  }

  /** Removing a layer keeps the ids unique. */
  lemma {:induction false} RemoveLayerKeepsUnique(layers: seq<LayerConfig>, id: string)
    requires UniqueIds(layers)
    ensures UniqueIds(RemoveLayer(layers, id))
  {
    if layers != [] {
      var tail := layers[1..];
      RemoveLayerKeepsUnique(tail, id);
      var rest := RemoveLayer(tail, id);
      forall q | 0 <= q < |rest| ensures rest[q].id != layers[0].id {
        assert rest[q] in rest;
        assert rest[q] in tail;
        var t :| 0 <= t < |tail| && tail[t] == rest[q];
        assert layers[t + 1] == rest[q];
      }
    }
  }

  // ---------------------------------------------------------------- updateLayer

  /** A layer merged with an update: every key the update carries overwrites the layer's. */
  function Merge(layer: LayerConfig, u: LayerUpdate): LayerConfig {
    LayerConfig(
      if u.id.Some? then u.id.value else layer.id,
      if u.layerType.Some? then u.layerType.value else layer.layerType,
      if u.units.Some? then u.units.value else layer.units,
      if u.activation.Some? then u.activation.value else layer.activation,
      if u.name.Some? then u.name.value else layer.name)
  }

  /** Merging the same update twice is merging it once. */
  lemma MergeIdempotent(layer: LayerConfig, u: LayerUpdate)
    ensures Merge(Merge(layer, u), u) == Merge(layer, u)
  {
  }

  /** Every layer with id `id` merged with the update; every other layer as it was. */
  function UpdateLayer(layers: seq<LayerConfig>, id: string, u: LayerUpdate): (r: seq<LayerConfig>)
    ensures |r| == |layers|
    ensures forall k :: 0 <= k < |layers| && layers[k].id != id ==> r[k] == layers[k]
    ensures forall k :: 0 <= k < |layers| && layers[k].id == id ==> r[k] == Merge(layers[k], u)
  {
    if layers == [] then []
    else [if layers[0].id == id then Merge(layers[0], u) else layers[0]] + UpdateLayer(layers[1..], id, u)
  }

  /** An id no layer has leaves the list unchanged. */
  lemma UpdateLayerUnknownId(layers: seq<LayerConfig>, id: string, u: LayerUpdate)
    requires FreshId(layers, id)
    ensures UpdateLayer(layers, id, u) == layers
  {
  }

  /** Applying the same update twice is applying it once, even when the update
      renames the layer. */
  lemma UpdateLayerIdempotent(layers: seq<LayerConfig>, id: string, u: LayerUpdate)
    ensures UpdateLayer(UpdateLayer(layers, id, u), id, u) == UpdateLayer(layers, id, u)
  {
    var once := UpdateLayer(layers, id, u);
    var twice := UpdateLayer(once, id, u);
    forall k | 0 <= k < |layers| ensures twice[k] == once[k] {
      if layers[k].id == id {
        MergeIdempotent(layers[k], u);
      }
    }
  }

  /** An update that keeps the id, or renames to an id no layer has, keeps the ids unique. */
  lemma UpdateLayerKeepsUnique(layers: seq<LayerConfig>, id: string, u: LayerUpdate)
    requires UniqueIds(layers)
    requires u.id.None? || u.id.value == id || FreshId(layers, u.id.value)
    ensures UniqueIds(UpdateLayer(layers, id, u))
  {
    var r := UpdateLayer(layers, id, u);
    forall p, q | 0 <= p < q < |r| ensures r[p].id != r[q].id {
      if layers[p].id == id {
        assert layers[q].id != id;
      } else if layers[q].id == id {
        assert layers[p].id != id;
      }
    }
  }

  // ---------------------------------------------------------------- the store

  /** The loss the store's tick records: the decay curve `exp(-progress / 20)`
      plus `Math.random() * 0.1`. Neither is bounded: there is no floor. */
  function TickLoss(curve: real, random: real): real {
    curve + random * 0.1
  }

  /** The accuracy the store's tick records: `1 - exp(-progress / 25)` plus
      `Math.random() * 0.1`; there is no ceiling. */
  function TickAccuracy(curve: real, random: real): real {
    1.0 - curve + random * 0.1
  }

  /** With no ceiling, a late tick can record an accuracy above 1. */
  lemma TickAccuracyCanExceedOne()
    ensures TickAccuracy(0.02, 0.5) > 1.0
  {
  }

  class Store {
    var layers: seq<LayerConfig>
    var isTraining: bool
    var trainingProgress: int
    var loss: seq<real>
    var accuracy: seq<real>
    var activations: seq<seq<real>>
    /** Interval timers started by StartTraining that have not yet cancelled themselves. */
    var liveTimers: nat

    /** Holds in every state: the two metric lists are index-aligned. */
    predicate Aligned()
      reads this
    {
      |loss| == |accuracy|
    }

    /** Holds from StartTraining on while only ticks and stops happen: one metric
        pair per progress step, progress at most 100, and a run still training
        has not yet reached 100. */
    predicate InRun()
      reads this
    {
      && Aligned()
      && |loss| == trainingProgress <= 100
      && (isTraining ==> trainingProgress < 100)
    }

    constructor ()
      ensures layers == InitialLayers && !isTraining && trainingProgress == 0
      ensures loss == [] && accuracy == [] && activations == [] && liveTimers == 0
      ensures InRun()
    {
      layers := InitialLayers;
      isTraining := false;
      trainingProgress := 0;
      loss := [];
      accuracy := [];
      activations := [];
      liveTimers := 0;
    }

    method AddLayer(spec: LayerSpec, newId: string)
      modifies this
      ensures layers == old(layers) + [WithId(spec, newId)]
      ensures isTraining == old(isTraining) && trainingProgress == old(trainingProgress)
      ensures loss == old(loss) && accuracy == old(accuracy) && activations == old(activations)
      ensures liveTimers == old(liveTimers)
    {
      layers := layers + [WithId(spec, newId)];
    }

    method RemoveLayerById(id: string)
      modifies this
      ensures layers == RemoveLayer(old(layers), id)
      ensures isTraining == old(isTraining) && trainingProgress == old(trainingProgress)
      ensures loss == old(loss) && accuracy == old(accuracy) && activations == old(activations)
      ensures liveTimers == old(liveTimers)
    {
      layers := RemoveLayer(layers, id);
    }

    method UpdateLayerById(id: string, updates: LayerUpdate)
      modifies this
      ensures layers == UpdateLayer(old(layers), id, updates)
      ensures isTraining == old(isTraining) && trainingProgress == old(trainingProgress)
      ensures loss == old(loss) && accuracy == old(accuracy) && activations == old(activations)
      ensures liveTimers == old(liveTimers)
    {
      layers := UpdateLayer(layers, id, updates);
    }

    /** Starts a run and one more interval timer; there is no guard, so a second
        call while running leaves two timers live. */
    method StartTraining()
      modifies this
      ensures isTraining && trainingProgress == 0 && loss == [] && accuracy == []
      ensures layers == old(layers) && activations == old(activations)
      ensures liveTimers == old(liveTimers) + 1
      ensures InRun()
    {
      isTraining := true;
      trainingProgress := 0;
      loss := [];
      accuracy := [];
      liveTimers := liveTimers + 1;
    }

    /** One firing of a live interval timer. The curve values stand for the
        `Math.exp` terms of the new progress, the randoms for `Math.random()`. */
    method Tick(lossCurve: real, lossRandom: real, accuracyCurve: real, accuracyRandom: real)
      requires liveTimers > 0
      modifies this
      ensures old(!isTraining || trainingProgress >= 100) ==>
        && liveTimers == old(liveTimers) - 1
        && isTraining == old(isTraining) && trainingProgress == old(trainingProgress)
        && loss == old(loss) && accuracy == old(accuracy)
      ensures old(isTraining && trainingProgress < 100) ==>
        && liveTimers == old(liveTimers)
        && trainingProgress == old(trainingProgress) + 1
        && loss == old(loss) + [TickLoss(lossCurve, lossRandom)]
        && accuracy == old(accuracy) + [TickAccuracy(accuracyCurve, accuracyRandom)]
        && isTraining == (trainingProgress < 100)
      ensures layers == old(layers) && activations == old(activations)
      ensures old(Aligned()) ==> Aligned()
      ensures old(InRun()) ==> InRun()
    {
      if !isTraining || trainingProgress >= 100 {
        liveTimers := liveTimers - 1;
        return;
      }
      var newProgress := trainingProgress + 1;
      trainingProgress := newProgress;
      loss := loss + [TickLoss(lossCurve, lossRandom)];
      accuracy := accuracy + [TickAccuracy(accuracyCurve, accuracyRandom)];
      if newProgress >= 100 {
        isTraining := false;
      }
    }

    method StopTraining()
      modifies this
      ensures !isTraining
      ensures layers == old(layers) && trainingProgress == old(trainingProgress)
      ensures loss == old(loss) && accuracy == old(accuracy) && activations == old(activations)
      ensures liveTimers == old(liveTimers)
      ensures old(InRun()) ==> InRun()
    {
      isTraining := false;
    }

    method UpdateTrainingProgress(progress: int)
      modifies this
      ensures trainingProgress == progress
      ensures layers == old(layers) && isTraining == old(isTraining)
      ensures loss == old(loss) && accuracy == old(accuracy) && activations == old(activations)
      ensures liveTimers == old(liveTimers)
    {
      trainingProgress := progress;
    }

    method AddMetrics(newLoss: real, newAccuracy: real)
      modifies this
      ensures loss == old(loss) + [newLoss] && accuracy == old(accuracy) + [newAccuracy]
      ensures layers == old(layers) && isTraining == old(isTraining)
      ensures trainingProgress == old(trainingProgress) && activations == old(activations)
      ensures liveTimers == old(liveTimers)
      ensures old(Aligned()) ==> Aligned()
    {
      loss := loss + [newLoss];
      accuracy := accuracy + [newAccuracy];
    }

    /** Restores the default architecture and empty metrics. Live timers are not
        cancelled: each cancels itself at the next firing that finds the store
        not training; if StartTraining runs first, that timer goes on ticking
        the new run beside the new one. */
    method ResetNetwork()
      modifies this
      ensures layers == InitialLayers && !isTraining && trainingProgress == 0
      ensures loss == [] && accuracy == [] && activations == []
      ensures liveTimers == old(liveTimers)
      ensures InRun()
    {
      layers := InitialLayers;
      isTraining := false;
      trainingProgress := 0;
      loss := [];
      accuracy := [];
      activations := [];
    }
  }
}

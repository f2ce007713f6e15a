/** Scene helpers for the network view: neuron positions per layer, the fully
    connected edges between adjacent layers, the colour, opacity and size bands,
    and the scene-size report. */
module TensorflowHelpers {
  import opened Basics

  // ---------------------------------------------------------------- positions

  datatype Spacing = Spacing(x: real, y: real, z: real)

  /** The spacing used when the caller gives none. */
  const DefaultSpacing: Spacing := Spacing(3.0, 1.5, 0.0)

  /** The x coordinate shared by every neuron of a layer: the layers are laid out
      `spacing.x` apart and centred on 0. */
  function LayerX(layerCount: nat, layer: nat, spacing: Spacing): real {
    layer as real * spacing.x - ((layerCount as real - 1.0) * spacing.x) / 2.0
  }

  /** The y coordinate of neuron `i` in a layer of `size` neurons. */
  function NeuronY(size: int, i: nat, spacing: Spacing): real {
    -(size as real - 1.0) * spacing.y / 2.0 + i as real * spacing.y
  }

  /** Neuron `i` of layer `layer`; `depth(layer, i)` stands for the `Math.random()`
      drawn for its z coordinate. */
  function NeuronPosition(layerSizes: seq<int>, spacing: Spacing, depth: (nat, nat) -> real, layer: nat, i: nat): Vec3
    requires layer < |layerSizes|
  {
    Vec3(LayerX(|layerSizes|, layer, spacing), NeuronY(layerSizes[layer], i, spacing), (depth(layer, i) - 0.5) * spacing.z)
  }

  /** Neurons of a layer are `spacing.y` apart, and the column is centred on 0:
      neuron i and neuron size-1-i mirror each other. */
  lemma NeuronColumnCentred(size: nat, i: nat, spacing: Spacing)
    requires i < size
    ensures NeuronY(size, 0, spacing) == -(size as real - 1.0) * spacing.y / 2.0
    ensures NeuronY(size, i + 1, spacing) - NeuronY(size, i, spacing) == spacing.y
    ensures NeuronY(size, i, spacing) + NeuronY(size, size - 1 - i, spacing) == 0.0
  {
  }

  /** The default spacing lays the network out flat: whatever depth is drawn,
      every neuron lies in the plane z = 0, layers are 3 apart and neurons 1.5 apart. */
  lemma DefaultSpacingFlat(layerSizes: seq<int>, depth: (nat, nat) -> real, layer: nat, i: nat)
    requires layer < |layerSizes|
    ensures NeuronPosition(layerSizes, DefaultSpacing, depth, layer, i).z == 0.0
    ensures layer + 1 < |layerSizes| ==>
      NeuronPosition(layerSizes, DefaultSpacing, depth, layer + 1, 0).x
      - NeuronPosition(layerSizes, DefaultSpacing, depth, layer, 0).x == 3.0
    ensures NeuronPosition(layerSizes, DefaultSpacing, depth, layer, i + 1).y
         - NeuronPosition(layerSizes, DefaultSpacing, depth, layer, i).y == 1.5
  {
  }

  /** Layers are `spacing.x` apart and the row of layers is centred on 0. */
  lemma LayerRowCentred(layerCount: nat, layer: nat, spacing: Spacing)
    requires layer < layerCount
    ensures LayerX(layerCount, layer + 1, spacing) - LayerX(layerCount, layer, spacing) == spacing.x
    ensures LayerX(layerCount, layer, spacing) + LayerX(layerCount, layerCount - 1 - layer, spacing) == 0.0
  {
  }

  /** One list of positions per layer index, with one position per neuron. */
  method GenerateNeuronPositions(layerSizes: seq<int>, spacing: Spacing, depth: (nat, nat) -> real)
    returns (positions: seq<seq<Vec3>>)
    ensures |positions| == |layerSizes|
    ensures forall l :: 0 <= l < |positions| ==> |positions[l]| == Iterations(layerSizes[l])
    ensures forall l, i :: 0 <= l < |positions| && 0 <= i < |positions[l]| ==>
      positions[l][i] == NeuronPosition(layerSizes, spacing, depth, l, i)
    ensures spacing.z == 0.0 ==>
      forall l, i :: 0 <= l < |positions| && 0 <= i < |positions[l]| ==> positions[l][i].z == 0.0
  {
    positions := [];
    var layer := 0;
    while layer < |layerSizes|
      invariant 0 <= layer <= |layerSizes| && |positions| == layer
      invariant forall l :: 0 <= l < layer ==> |positions[l]| == Iterations(layerSizes[l])
      invariant forall l, i :: 0 <= l < layer && 0 <= i < |positions[l]| ==>
        positions[l][i] == NeuronPosition(layerSizes, spacing, depth, l, i)
    {
      var size := layerSizes[layer];
      var column: seq<Vec3> := [];
      var i := 0;
      while i < size
        invariant 0 <= i <= Iterations(size) && |column| == i
        invariant forall k :: 0 <= k < i ==> column[k] == NeuronPosition(layerSizes, spacing, depth, layer, k)
      {
        var p := Vec3(
          layer as real * spacing.x - ((|layerSizes| as real - 1.0) * spacing.x) / 2.0,
          -(size as real - 1.0) * spacing.y / 2.0 + i as real * spacing.y,
          (depth(layer, i) - 0.5) * spacing.z);
        assert p == NeuronPosition(layerSizes, spacing, depth, layer, i);
        column := column + [p];
        i := i + 1;
      }
      positions := positions + [column];
      layer := layer + 1;
    }
  }

  // ---------------------------------------------------------------- connections

  datatype NeuronRef = NeuronRef(layer: nat, neuron: nat)

  datatype Connection = Connection(from: NeuronRef, to: NeuronRef, weight: real)

  /** How many edges the generator produces: each neuron of a layer to each
      neuron of the next, counting a layer of non-positive size as empty. */
  function ConnectionCount(layerSizes: seq<int>): int {
    AdjacentProducts(IterationsOf(layerSizes))
  }

  /** The loop position at which connection `c` was made. */
  function Key(c: Connection): EdgeKey {
    EdgeKey(c.from.layer, c.from.neuron, c.to.neuron)
  }

  /** Connection `c` was made before loop position (layer, i, j). */
  predicate Before(c: Connection, layer: nat, i: nat, j: nat) {
    KeyLess(Key(c), EdgeKey(layer, i, j))
  }

  /** Strict lexicographic order on (from layer, from neuron, to neuron). */
  predicate Precedes(a: Connection, b: Connection) {
    KeyLess(Key(a), Key(b))
  }

  /** Connection `c` goes from layer l to layer l + 1 with both neuron indices in range. */
  predicate WellPlaced(layerSizes: seq<int>, c: Connection) {
    && c.from.layer + 1 == c.to.layer < |layerSizes|
    && c.from.neuron < Iterations(layerSizes[c.from.layer])
    && c.to.neuron < Iterations(layerSizes[c.to.layer])
  }

  /** Every connection is well placed. */
  predicate AllPlaced(layerSizes: seq<int>, cs: seq<Connection>) {
    forall k :: 0 <= k < |cs| ==> WellPlaced(layerSizes, cs[k])
  }

  /** The connections are in strictly increasing loop order. */
  predicate Ordered(cs: seq<Connection>) {
    forall p, q :: 0 <= p < q < |cs| ==> Precedes(cs[p], cs[q])
  }

  /** Every connection comes before loop position (layer, i, j). */
  predicate AllBefore(cs: seq<Connection>, layer: nat, i: nat, j: nat) {
    forall k :: 0 <= k < |cs| ==> Before(cs[k], layer, i, j)
  }

  /** The k-th connection carries the weight made from the k-th draw. */
  predicate Weighted(cs: seq<Connection>, draw: nat -> real) {
    forall k :: 0 <= k < |cs| ==> cs[k].weight == draw(k) * 2.0 - 1.0
  }

  /** The innermost loop: neuron `i` of `layer` to every neuron of the next layer. */
  method ConnectNeuron(layerSizes: seq<int>, draw: nat -> real, layer: nat, i: nat, connections: seq<Connection>)
    returns (result: seq<Connection>)
    requires layer + 1 < |layerSizes| && i < Iterations(layerSizes[layer])
    requires AllPlaced(layerSizes, connections) && Ordered(connections)
    requires AllBefore(connections, layer, i, 0) && Weighted(connections, draw)
    ensures |result| == |connections| + Iterations(layerSizes[layer + 1])
    ensures result[..|connections|] == connections
    ensures forall k :: |connections| <= k < |result| ==> result[k].from == NeuronRef(layer, i)
    ensures AllPlaced(layerSizes, result) && Ordered(result)
    ensures AllBefore(result, layer, i + 1, 0) && Weighted(result, draw)
  {
    var nextLayerSize := layerSizes[layer + 1];
    result := connections;
    var j := 0;
    while j < nextLayerSize
      invariant 0 <= j <= Iterations(nextLayerSize)
      invariant |result| == |connections| + j && result[..|connections|] == connections
      invariant forall k :: |connections| <= k < |result| ==> result[k].from == NeuronRef(layer, i)
      invariant AllPlaced(layerSizes, result) && Ordered(result)
      invariant AllBefore(result, layer, i, j) && Weighted(result, draw)
    {
      var c := Connection(NeuronRef(layer, i), NeuronRef(layer + 1, j), draw(|result|) * 2.0 - 1.0);
      assert forall k :: 0 <= k < |result| ==> Precedes(result[k], c);
      result := result + [c];
      j := j + 1;
    }
  }

  /** The middle loop: every neuron of `layer` to every neuron of the next layer. */
  method ConnectLayer(layerSizes: seq<int>, draw: nat -> real, layer: nat, connections: seq<Connection>)
    returns (result: seq<Connection>)
    requires layer + 1 < |layerSizes|
    requires AllPlaced(layerSizes, connections) && Ordered(connections)
    requires AllBefore(connections, layer, 0, 0) && Weighted(connections, draw)
    ensures |result| == |connections| + Iterations(layerSizes[layer]) * Iterations(layerSizes[layer + 1])
    ensures result[..|connections|] == connections
    ensures forall k :: |connections| <= k < |result| ==> result[k].from.layer == layer
    ensures AllPlaced(layerSizes, result) && Ordered(result)
    ensures AllBefore(result, layer + 1, 0, 0) && Weighted(result, draw)
  {
    var currentLayerSize := layerSizes[layer];
    result := connections;
    var i := 0;
    while i < currentLayerSize
      invariant 0 <= i <= Iterations(currentLayerSize)
      invariant |result| == |connections| + i * Iterations(layerSizes[layer + 1])
      invariant result[..|connections|] == connections
      invariant forall k :: |connections| <= k < |result| ==> result[k].from.layer == layer
      invariant AllPlaced(layerSizes, result) && Ordered(result)
      invariant AllBefore(result, layer, i, 0) && Weighted(result, draw)
    {
      ghost var before := result;
      result := ConnectNeuron(layerSizes, draw, layer, i, result);
      assert result[..|connections|] == before[..|before|][..|connections|];
      i := i + 1;
    }
    assert forall k :: 0 <= k < |result| ==> result[k].from.layer <= layer;
  }

  /** Every neuron of each layer to every neuron of the next, in loop order.
      `draw(k)` stands for the `Math.random()` of the k-th connection. */
  method GenerateConnections(layerSizes: seq<int>, draw: nat -> real) returns (connections: seq<Connection>)
    ensures |connections| == ConnectionCount(layerSizes)
    ensures forall k :: 0 <= k < |connections| ==> WellPlaced(layerSizes, connections[k])
    ensures forall p, q :: 0 <= p < q < |connections| ==> Precedes(connections[p], connections[q])
    ensures forall k :: 0 <= k < |connections| ==> connections[k].weight == draw(k) * 2.0 - 1.0
    ensures (forall n: nat :: 0.0 <= draw(n) < 1.0) ==>
      forall k :: 0 <= k < |connections| ==> -1.0 <= connections[k].weight < 1.0
  {
    ghost var ws := IterationsOf(layerSizes);
    connections := [];
    var layer := 0;
    while layer < |layerSizes| - 1
      invariant 0 <= layer && (|layerSizes| == 0 || layer < |layerSizes|)
      invariant |layerSizes| > 0 ==> |connections| == AdjacentProducts(ws[..layer + 1])
      invariant |layerSizes| == 0 ==> connections == []
      invariant AllPlaced(layerSizes, connections) && Ordered(connections)
      invariant AllBefore(connections, layer, 0, 0) && Weighted(connections, draw)
    {
      connections := ConnectLayer(layerSizes, draw, layer, connections);
      AdjacentProductsStep(ws, layer + 1);
      layer := layer + 1;
    }
    if |layerSizes| > 0 {
      assert ws[..layer + 1] == ws;
    }
    if forall n: nat :: 0.0 <= draw(n) < 1.0 {
      WeightInRange(connections, draw);
    }
  }

  /** When every draw lies in [0, 1), every weight of connections weighted by
      those draws, as GenerateConnections returns them, lies in [-1, 1). */
  lemma WeightInRange(cs: seq<Connection>, draw: nat -> real)
    requires Weighted(cs, draw)
    requires forall n: nat :: 0.0 <= draw(n) < 1.0
    ensures forall k :: 0 <= k < |cs| ==> -1.0 <= cs[k].weight < 1.0
  {
    forall k | 0 <= k < |cs| ensures -1.0 <= cs[k].weight < 1.0 {
      assert 0.0 <= draw(k) < 1.0;
    }
  }

  // ---------------------------------------------------------------- colours and sizes

  /** The four colour bands of a connection weight. */
  datatype WeightBand = StrongPositive | WeakPositive | WeakNegative | StrongNegative {
    function Color(): string {
      match this
      case StrongPositive => "#4caf50"
      case WeakPositive => "#81c784"
      case WeakNegative => "#e57373"
      case StrongNegative => "#ff5252"
    }

    /** Higher for more positive weights. */
    function Rank(): nat {
      match this
      case StrongNegative => 0
      case WeakNegative => 1
      case WeakPositive => 2
      case StrongPositive => 3
    }
  }

  /** getConnectionColor: the band of a weight at thresholds 0.5, 0 and -0.5. */
  function ConnectionColor(weight: real): (band: WeightBand)
    ensures band == StrongPositive <==> weight > 0.5
    ensures band == WeakPositive <==> 0.0 < weight <= 0.5
    ensures band == WeakNegative <==> -0.5 < weight <= 0.0
    ensures band == StrongNegative <==> weight <= -0.5
  {
    if weight > 0.5 then StrongPositive
    else if weight > 0.0 then WeakPositive
    else if weight > -0.5 then WeakNegative
    else StrongNegative
  }

  /** A larger weight never falls in a lower band. */
  lemma ConnectionColorMonotone(w1: real, w2: real)
    requires w1 <= w2
    ensures ConnectionColor(w1).Rank() <= ConnectionColor(w2).Rank()
  {
  }

  /** getConnectionOpacity: `min(0.8, |weight| * 0.8 + 0.2)`. */
  function ConnectionOpacity(weight: real): (r: real)
    ensures 0.2 <= r <= 0.8
    ensures r == 0.8 <==> Abs(weight) >= 0.75
    ensures weight == 0.0 ==> r == 0.2
  {
    MinReal(0.8, Abs(weight) * 0.8 + 0.2)
  }

  /** The opacity depends on the magnitude only, and grows with it. */
  lemma ConnectionOpacityByMagnitude(w1: real, w2: real)
    ensures ConnectionOpacity(-w1) == ConnectionOpacity(w1)
    ensures Abs(w1) <= Abs(w2) ==> ConnectionOpacity(w1) <= ConnectionOpacity(w2)
  {
  }

  /** The five colour bands of a neuron activation. */
  datatype ActivationBand = VeryHigh | High | Medium | Low | Base {
    function Color(): string {
      match this
      case VeryHigh => "#9fa8da"
      case High => "#5c6bc0"
      case Medium => "#3949ab"
      case Low => "#1a237e"
      case Base => "#0d47a1"
    }

    /** Higher for stronger activations. */
    function Rank(): nat {
      match this
      case Base => 0
      case Low => 1
      case Medium => 2
      case High => 3
      case VeryHigh => 4
    }
  }

  /** getNeuronColor: a step function with steps at 0.8, 0.6, 0.4 and 0.2. */
  function NeuronColor(activation: real): (band: ActivationBand)
    ensures band == VeryHigh <==> activation > 0.8
    ensures band == High <==> 0.6 < activation <= 0.8
    ensures band == Medium <==> 0.4 < activation <= 0.6
    ensures band == Low <==> 0.2 < activation <= 0.4
    ensures band == Base <==> activation <= 0.2
  {
    if activation > 0.8 then VeryHigh
    else if activation > 0.6 then High
    else if activation > 0.4 then Medium
    else if activation > 0.2 then Low
    else Base
  }

  /** A stronger activation never falls in a lower band. */
  lemma NeuronColorMonotone(a1: real, a2: real)
    requires a1 <= a2
    ensures NeuronColor(a1).Rank() <= NeuronColor(a2).Rank()
  {
  }

  /** The size used when the caller gives none. */
  const DefaultNeuronSize: real := 0.3

  /** getNeuronSize: half the base size at activation 0, the full base size at 1. */
  function NeuronSize(activation: real, baseSize: real): (r: real)
    ensures activation == 0.0 ==> r == baseSize / 2.0
    ensures activation == 1.0 ==> r == baseSize
    ensures 0.0 <= activation <= 1.0 && baseSize >= 0.0 ==> baseSize / 2.0 <= r <= baseSize
  {
    baseSize * (0.5 + activation * 0.5)
  }

  /** With the default base size, an activation in [0, 1] gives a neuron between 0.15 and 0.3. */
  lemma DefaultNeuronSizeRange(activation: real)
    requires 0.0 <= activation <= 1.0
    ensures 0.15 <= NeuronSize(activation, DefaultNeuronSize) <= 0.3
  {
  }

  /** With a non-negative base size, a stronger activation never gives a smaller neuron. */
  lemma NeuronSizeMonotone(a1: real, a2: real, baseSize: real)
    requires a1 <= a2 && baseSize >= 0.0
    ensures NeuronSize(a1, baseSize) <= NeuronSize(a2, baseSize)
  {
    assert baseSize * (a2 - a1) >= 0.0;
  }

  // ---------------------------------------------------------------- scene report

  datatype Recommendation = LevelOfDetail | FullDetail

  datatype Performance = Excellent | Good | ConsiderOptimization

  datatype SceneReport = SceneReport(
    totalNeurons: int,
    totalConnections: int,
    recommendation: Recommendation,
    estimatedPerformance: Performance)

  /** optimizeScene: the totals are folds over the raw sizes. */
  function OptimizeScene(layerSizes: seq<int>): (report: SceneReport)
    ensures report.totalNeurons == Sum(layerSizes)
    ensures report.totalConnections == AdjacentProducts(layerSizes)
    ensures report.recommendation == LevelOfDetail <==> report.totalNeurons > 1000
    ensures report.estimatedPerformance == Excellent <==> report.totalNeurons < 500
    ensures report.estimatedPerformance == Good <==> 500 <= report.totalNeurons < 2000
    ensures report.estimatedPerformance == ConsiderOptimization <==> report.totalNeurons >= 2000
  {
    var totalNeurons := Sum(layerSizes);
    SceneReport(
      totalNeurons,
      AdjacentProducts(layerSizes),
      if totalNeurons > 1000 then LevelOfDetail else FullDetail,
      if totalNeurons < 500 then Excellent
      else if totalNeurons < 2000 then Good
      else ConsiderOptimization)
  }

  /** A scene big enough for level-of-detail is never rated excellent. */
  lemma LevelOfDetailNotExcellent(layerSizes: seq<int>)
    requires OptimizeScene(layerSizes).recommendation == LevelOfDetail
    ensures OptimizeScene(layerSizes).estimatedPerformance != Excellent
  {
  }

  /** For non-negative sizes the report agrees with the generators: as many
      neurons as GenerateNeuronPositions places and as many connections as
      GenerateConnections produces. */
  lemma {:induction false} OptimizeSceneMatchesGenerators(layerSizes: seq<int>)
    requires forall k :: 0 <= k < |layerSizes| ==> layerSizes[k] >= 0
    ensures OptimizeScene(layerSizes).totalNeurons == Sum(IterationsOf(layerSizes))
    ensures OptimizeScene(layerSizes).totalConnections == ConnectionCount(layerSizes)
  {
    IterationsOfNonNegative(layerSizes);
  }

  /** A layer of negative size yields no neurons and no connections, but the
      report still multiplies by it: here it counts 4 connections where the
      generator makes 6. */
  lemma OptimizeSceneNegativeSize()
    ensures OptimizeScene([-1, 2, 3]).totalConnections == 4
    ensures ConnectionCount([-1, 2, 3]) == 6
  {
    var sizes := [-1, 2, 3];
    assert sizes[..2] == [-1, 2];
    assert AdjacentProducts([-1, 2]) == -2 by {
      assert [-1, 2][..1] == [-1];
    }
    var ws := IterationsOf(sizes);
    assert ws == [0, 2, 3];
    assert ws[..2] == [0, 2];
    assert AdjacentProducts([0, 2]) == 0 by {
      assert [0, 2][..1] == [0];
    }
  }
}

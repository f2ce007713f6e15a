/** The 3-D view state (camera position, animation flag, visualisation mode) and
    its two data generators: neurons with ids "neuron-i-j", and the links of
    every neuron of a layer to every neuron of the next. */
module ThreeView {
  import opened Basics

  datatype VisualizationMode = Activations | Weights | Gradients

  /** Where the camera starts and where resetCamera puts it back. */
  const InitialCamera: Vec3 := Vec3(0.0, 0.0, 10.0)

  class Scene {
    var cameraPosition: Vec3
    var isAnimating: bool
    var visualizationMode: VisualizationMode

    constructor ()
      ensures cameraPosition == InitialCamera && !isAnimating && visualizationMode == Activations
    {
      cameraPosition := InitialCamera;
      isAnimating := false;
      visualizationMode := Activations;
    }

    /** Moves the camera by the three offsets. */
    method RotateCamera(x: real, y: real, z: real)
      modifies this
      ensures cameraPosition.x == old(cameraPosition.x) + x
      ensures cameraPosition.y == old(cameraPosition.y) + y
      ensures cameraPosition.z == old(cameraPosition.z) + z
      ensures isAnimating == old(isAnimating) && visualizationMode == old(visualizationMode)
    {
      cameraPosition := Vec3(cameraPosition.x + x, cameraPosition.y + y, cameraPosition.z + z);
    }

    method ResetCamera()
      modifies this
      ensures cameraPosition == InitialCamera
      ensures isAnimating == old(isAnimating) && visualizationMode == old(visualizationMode)
    {
      cameraPosition := InitialCamera;
    }

    method ToggleAnimation()
      modifies this
      ensures isAnimating == !old(isAnimating)
      ensures cameraPosition == old(cameraPosition) && visualizationMode == old(visualizationMode)
    {
      isAnimating := !isAnimating;
    }

    method ChangeVisualizationMode(mode: VisualizationMode)
      modifies this
      ensures visualizationMode == mode
      ensures cameraPosition == old(cameraPosition) && isAnimating == old(isAnimating)
    {
      visualizationMode := mode;
    }
  }

  // ---------------------------------------------------------------- decimal ids

  predicate IsDigit(c: char) {
    '0' as int <= c as int <= '9' as int
  }

  function DigitChar(d: nat): (c: char)
    requires d < 10
    ensures IsDigit(c)
  {
    ('0' as int + d) as char
  }

  /** The decimal text of a natural number, as a template literal prints it. */
  function NatToString(n: nat): (s: string)
    ensures |s| > 0
    ensures forall k :: 0 <= k < |s| ==> IsDigit(s[k])
  {
    if n < 10 then [DigitChar(n)] else NatToString(n / 10) + [DigitChar(n % 10)]
  }

  function DigitValue(c: char): nat
    requires IsDigit(c)
  {
    c as int - '0' as int
  }

  /** Reads decimal digits back as a number. */
  function ParseDecimal(s: string): nat
    requires forall k :: 0 <= k < |s| ==> IsDigit(s[k])
  {
    if s == [] then 0
    else ParseDecimal(s[..|s| - 1]) * 10 + DigitValue(s[|s| - 1])
  }

  /** Parsing the decimal text of n gives back n. */
  lemma {:induction false} ParseNatToString(n: nat)
    ensures ParseDecimal(NatToString(n)) == n
  {
    var s := NatToString(n);
    if n < 10 {
      assert s[..0] == [];
    } else {
      assert s[..|s| - 1] == NatToString(n / 10);
      ParseNatToString(n / 10);
    }
  }

  /** Different numbers have different decimal texts. */
  lemma NatToStringInjective(a: nat, b: nat)
    requires NatToString(a) == NatToString(b)
    ensures a == b
  {
    ParseNatToString(a);
    ParseNatToString(b);
  }

  /** The id `neuron-${i}-${j}` of neuron j in layer i. */
  function NeuronId(i: nat, j: nat): string {
    "neuron-" + NatToString(i) + "-" + NatToString(j)
  }

  /** The index of the first '-' in s, or |s| when there is none. */
  function DashIndex(s: string): nat {
    if s == [] || s[0] == '-' then 0 else 1 + DashIndex(s[1..])
  }

  /** In digits, then a dash, then anything, the first dash ends the digits. */
  lemma {:induction false} DashIndexAfterDigits(digits: string, rest: string)
    requires forall k :: 0 <= k < |digits| ==> IsDigit(digits[k])
    ensures DashIndex(digits + "-" + rest) == |digits|
  {
    var s := digits + "-" + rest;
    if digits != [] {
      assert s[0] == digits[0];
      assert s[1..] == digits[1..] + "-" + rest;
      DashIndexAfterDigits(digits[1..], rest);
    }
  }

  /** The id names its neuron: two ids are equal only for the same layer and index. */
  lemma NeuronIdInjective(i1: nat, j1: nat, i2: nat, j2: nat)
    requires NeuronId(i1, j1) == NeuronId(i2, j2)
    ensures i1 == i2 && j1 == j2
  {
    var s1, s2 := NatToString(i1), NatToString(i2);
    var t1, t2 := NatToString(j1), NatToString(j2);
    var r1, r2 := s1 + "-" + t1, s2 + "-" + t2;
    assert NeuronId(i1, j1) == "neuron-" + r1;
    assert NeuronId(i2, j2) == "neuron-" + r2;
    assert r1 == NeuronId(i1, j1)[7..] == r2;
    DashIndexAfterDigits(s1, t1);
    DashIndexAfterDigits(s2, t2);
    assert s1 == r1[..|s1|] == s2;
    assert t1 == r1[|s1| + 1..] == t2;
    NatToStringInjective(i1, i2);
    NatToStringInjective(j1, j2);
  }

  // ---------------------------------------------------------------- neuron data

  datatype Neuron = Neuron(id: string, activation: real, position: Vec3)

  /** Neuron j of layer i; `activation(i, j)` stands for its `Math.random()`. */
  function NeuronAt(layerCount: int, neuronsPerLayer: int, activation: (nat, nat) -> real, i: nat, j: nat): Neuron {
    Neuron(
      NeuronId(i, j),
      activation(i, j),
      Vec3(i as real * 3.0 - layerCount as real * 1.5, j as real - neuronsPerLayer as real / 2.0, 0.0))
  }

  /** layerCount lists of neuronsPerLayer neurons each, with pairwise distinct ids. */
  method GenerateNeuronData(layerCount: int, neuronsPerLayer: int, activation: (nat, nat) -> real)
    returns (layers: seq<seq<Neuron>>)
    ensures |layers| == Iterations(layerCount)
    ensures forall i :: 0 <= i < |layers| ==> |layers[i]| == Iterations(neuronsPerLayer)
    ensures forall i, j :: 0 <= i < |layers| && 0 <= j < |layers[i]| ==>
      layers[i][j] == NeuronAt(layerCount, neuronsPerLayer, activation, i, j)
    ensures forall i1, j1, i2, j2 ::
      0 <= i1 < |layers| && 0 <= j1 < |layers[i1]| && 0 <= i2 < |layers| && 0 <= j2 < |layers[i2]| &&
      layers[i1][j1].id == layers[i2][j2].id
      ==> i1 == i2 && j1 == j2
  {
    layers := [];
    var i := 0;
    while i < layerCount
      invariant 0 <= i <= Iterations(layerCount) && |layers| == i
      invariant forall l :: 0 <= l < i ==> |layers[l]| == Iterations(neuronsPerLayer)
      invariant forall l, j :: 0 <= l < i && 0 <= j < |layers[l]| ==>
        layers[l][j] == NeuronAt(layerCount, neuronsPerLayer, activation, l, j)
    {
      var neurons: seq<Neuron> := [];
      var j := 0;
      while j < neuronsPerLayer
        invariant 0 <= j <= Iterations(neuronsPerLayer) && |neurons| == j
        invariant forall k :: 0 <= k < j ==> neurons[k] == NeuronAt(layerCount, neuronsPerLayer, activation, i, k)
      {
        neurons := neurons + [Neuron(
          "neuron-" + NatToString(i) + "-" + NatToString(j),
          activation(i, j),
          Vec3(i as real * 3.0 - layerCount as real * 1.5, j as real - neuronsPerLayer as real / 2.0, 0.0))];
        j := j + 1;
      }
      layers := layers + [neurons];
      i := i + 1;
    }
    forall i1, j1, i2, j2 |
      0 <= i1 < |layers| && 0 <= j1 < |layers[i1]| && 0 <= i2 < |layers| && 0 <= j2 < |layers[i2]| &&
      layers[i1][j1].id == layers[i2][j2].id
      ensures i1 == i2 && j1 == j2
    {
      NeuronIdInjective(i1, j1, i2, j2);
    }
  }

  // ---------------------------------------------------------------- connection data

  datatype Link = Link(from: string, to: string, weight: real, isActive: bool)

  /** The number of neurons in each layer. */
  function Lengths(layers: seq<seq<Neuron>>): seq<int> {
    seq(|layers|, k requires 0 <= k < |layers| => |layers[k]|)
  }

  /** Link k joins the neurons its loop position names. */
  predicate Joins(layers: seq<seq<Neuron>>, link: Link, key: EdgeKey) {
    && key.layer + 1 < |layers|
    && key.from < |layers[key.layer]|
    && key.to < |layers[key.layer + 1]|
    && link.from == layers[key.layer][key.from].id
    && link.to == layers[key.layer + 1][key.to].id
  }

  /** The k-th link uses draws 2k (its weight) and 2k + 1 (its active flag). */
  predicate Drawn(links: seq<Link>, draw: nat -> real) {
    forall k :: 0 <= k < |links| ==>
      links[k].weight == draw(2 * k) * 2.0 - 1.0 && (links[k].isActive <==> draw(2 * k + 1) > 0.3)
  }

  /** What the loops have built so far: one loop position per link, each naming
      the neurons its link joins, in strictly increasing loop order, all before
      loop position (layer, j, k). */
  predicate Built(layers: seq<seq<Neuron>>, draw: nat -> real, links: seq<Link>, origin: seq<EdgeKey>,
                  layer: nat, j: nat, k: nat)
  {
    && |origin| == |links|
    && (forall m :: 0 <= m < |links| ==> Joins(layers, links[m], origin[m]))
    && (forall p, q :: 0 <= p < q < |origin| ==> KeyLess(origin[p], origin[q]))
    && (forall m :: 0 <= m < |origin| ==> KeyLess(origin[m], EdgeKey(layer, j, k)))
    && Drawn(links, draw)
  }

  /** The innermost loop: neuron j of `layer` to every neuron of the next layer. */
  method LinkNeuron(layers: seq<seq<Neuron>>, draw: nat -> real, layer: nat, j: nat,
                    links: seq<Link>, ghost origin: seq<EdgeKey>)
    returns (result: seq<Link>, ghost resultOrigin: seq<EdgeKey>)
    requires layer + 1 < |layers| && j < |layers[layer]|
    requires Built(layers, draw, links, origin, layer, j, 0)
    ensures |result| == |links| + |layers[layer + 1]|
    ensures Built(layers, draw, result, resultOrigin, layer, j + 1, 0)
    ensures result[..|links|] == links && resultOrigin[..|origin|] == origin
    ensures forall m :: |links| <= m < |resultOrigin| ==> resultOrigin[m] == EdgeKey(layer, j, m - |links|)
  {
    var currentLayer, nextLayer := layers[layer], layers[layer + 1];
    result, resultOrigin := links, origin;
    var k := 0;
    while k < |nextLayer|
      invariant 0 <= k <= |nextLayer| && |result| == |links| + k
      invariant Built(layers, draw, result, resultOrigin, layer, j, k)
      invariant result[..|links|] == links && resultOrigin[..|origin|] == origin
      invariant forall m :: |links| <= m < |resultOrigin| ==> resultOrigin[m] == EdgeKey(layer, j, m - |links|)
    {
      var n := |result|;
      result := result + [Link(currentLayer[j].id, nextLayer[k].id, draw(2 * n) * 2.0 - 1.0, draw(2 * n + 1) > 0.3)];
      resultOrigin := resultOrigin + [EdgeKey(layer, j, k)];
      k := k + 1;
    }
  }

  /** The middle loop: every neuron of `layer` to every neuron of the next layer. */
  method LinkLayer(layers: seq<seq<Neuron>>, draw: nat -> real, layer: nat,
                   links: seq<Link>, ghost origin: seq<EdgeKey>)
    returns (result: seq<Link>, ghost resultOrigin: seq<EdgeKey>)
    requires layer + 1 < |layers|
    requires Built(layers, draw, links, origin, layer, 0, 0)
    ensures |result| == |links| + |layers[layer]| * |layers[layer + 1]|
    ensures Built(layers, draw, result, resultOrigin, layer + 1, 0, 0)
    ensures result[..|links|] == links && resultOrigin[..|origin|] == origin
    ensures forall m :: |links| <= m < |resultOrigin| ==> resultOrigin[m].layer == layer
  {
    result, resultOrigin := links, origin;
    var j := 0;
    while j < |layers[layer]|
      invariant 0 <= j <= |layers[layer]|
      invariant |result| == |links| + j * |layers[layer + 1]|
      invariant Built(layers, draw, result, resultOrigin, layer, j, 0)
      invariant result[..|links|] == links && resultOrigin[..|origin|] == origin
      invariant forall m :: |links| <= m < |resultOrigin| ==> resultOrigin[m].layer == layer
    {
      ghost var before, beforeOrigin := result, resultOrigin;
      result, resultOrigin := LinkNeuron(layers, draw, layer, j, result, resultOrigin);
      assert result[..|links|] == before[..|links|];
      assert resultOrigin[..|origin|] == beforeOrigin[..|origin|];
      j := j + 1;
    }
  }

  /** Every neuron of each layer to every neuron of the next, in loop order; link k
      comes with `origin[k]`, the loop position that names the two neurons it joins.
      `draw(n)` stands for the n-th `Math.random()`. */
  method GenerateConnectionData(layers: seq<seq<Neuron>>, draw: nat -> real)
    returns (links: seq<Link>, ghost origin: seq<EdgeKey>)
    ensures |links| == AdjacentProducts(Lengths(layers)) && |origin| == |links|
    ensures forall m :: 0 <= m < |links| ==> Joins(layers, links[m], origin[m])
    ensures forall p, q :: 0 <= p < q < |origin| ==> KeyLess(origin[p], origin[q])
    ensures forall m :: 0 <= m < |links| ==> links[m].weight == draw(2 * m) * 2.0 - 1.0
    ensures forall m :: 0 <= m < |links| ==> (links[m].isActive <==> draw(2 * m + 1) > 0.3)
  {
    ghost var lengths := Lengths(layers);
    links, origin := [], [];
    var i := 0;
    while i < |layers| - 1
      invariant 0 <= i && (|layers| == 0 || i < |layers|)
      invariant |layers| > 0 ==> |links| == AdjacentProducts(lengths[..i + 1])
      invariant |layers| == 0 ==> links == []
      invariant Built(layers, draw, links, origin, i, 0, 0)
    {
      links, origin := LinkLayer(layers, draw, i, links, origin);
      AdjacentProductsStep(lengths, i + 1);
      i := i + 1;
    }
    if |layers| > 0 {
      assert lengths[..i + 1] == lengths;
    }
  }
}

# neural-nexus core, modelled in Dafny

neural-nexus is a browser front-end. It lets a user build a toy neural-network
architecture and watch a simulated training run. This project models the
parts of it that hold logic:

- **The architecture and metrics store** (`NetworkStore`, from
  `src/hooks/useNetworkStore.ts`). It keeps the ordered layer list, with add,
  remove and update by id. It also runs the store-integrated training run:
  an interval tick steps the progress from 0 to 100 and appends one loss and
  one accuracy value per step. The store is the class `NetworkStore.Store`.
  The layer-list transforms are pure functions over `seq`.
- **The epoch simulator** (`TrainingSimulation`, from
  `src/hooks/useTrainingSimulation.ts`). It is a running/idle state machine
  with a guarded interval handle, an epoch counter and clamped loss and
  accuracy with their history. It supports reset and two field setters. Two
  read-only views sit beside it: the progress percentage and the status
  insights. The state is the class `TrainingSimulation.Simulation`.
- **The visualisation helpers** (`TensorflowHelpers`, from
  `src/utils/tensorflow-helpers.ts`). Neuron positions and fully connected
  edges are built by nested loops, as in the source. Beside them are the
  colour, opacity and size bands and the scene-size report.
- **The chart data mapping** (`MetricsChart`, from
  `src/components/MetricsChart.tsx`). It pairs the loss and accuracy series
  into `{epoch, loss, accuracy}` records. It also keeps the chart-type
  selection.
- **The 3-D view hook** (`ThreeView`, from `src/hooks/useThreeJS.ts`). The
  camera, animation and mode state is the class `ThreeView.Scene`. Its two
  generators build neurons with ids `neuron-i-j` and the links between
  adjacent layers.
- **Value types** (`Network`, from `src/types/network.ts`) and small shared
  definitions (`Basics`): `Option`, a 3-D point, the iteration count of a
  counting loop, the sums, and the loop-order key of an edge.

How the model stands in for the awkward parts:

- **Randomness and `Math.exp` are parameters.** A tick takes the curve value
  (the `Math.exp` term) and the `Math.random()` draw. The generators take a
  draw function: indexed by `(layer, neuron)` for per-neuron values, and by
  call number for the stream of draws per connection. A new layer's id is a
  parameter of `AddLayer`.
- **Timers are state plus an explicit `Tick`.** In the store, `liveTimers`
  counts the intervals started and not yet cancelled. `StartTraining` has no
  guard, so starting twice leaves two timers live, each ticking the same
  state. A tick that finds the run stopped, or at 100, cancels its own timer.
  In the simulator, `interval` is the handle. `StartTraining` does nothing
  while a handle is installed, and `Tick` may only fire while one is.
- **Metrics, opacities, sizes and camera coordinates are `real`.** Layer
  sizes, units, progress and batch size are `int`. A loop counting up from 0 while below `n`
  runs `Iterations(n)` times, which is 0 for a negative `n`.
- **Colours are bands.** Each band datatype carries its hex colour.

Behaviour of the source worth knowing:

- The store's tick records metrics with no floor and no ceiling. A late tick
  can record an accuracy above 1 (`TickAccuracyCanExceedOne`).
- `resetNetwork` cancels no timer. A live interval cancels itself at the next
  firing that finds the store not training. If `startTraining` runs first,
  that interval goes on ticking the new run beside the new one.

## Model

| member | source | states |
|---|---|---|
| NetworkStore.InitialLayersUnique | src/hooks/useNetworkStore.ts:16-20 | the three default layers, with ids "1", "2", "3", have pairwise distinct ids |
| NetworkStore.AppendKeepsUnique | src/hooks/useNetworkStore.ts:32-38 | appending a layer under an id no layer has keeps the ids unique; the source's random id does not promise freshness, so it is an assumption here |
| NetworkStore.RemoveLayer | src/hooks/useNetworkStore.ts:40-44 | the result holds exactly the layers of the list whose id differs from the argument; it is no longer than the list; an unknown id leaves the list unchanged |
| NetworkStore.RemoveLayerConcat | src/hooks/useNetworkStore.ts:42 | removal commutes with concatenation, so the surviving layers keep their relative order |
| NetworkStore.RemoveLayerIdempotent | src/hooks/useNetworkStore.ts:42 | removing the same id a second time changes nothing |
| NetworkStore.RemoveLayerKeepsUnique | src/hooks/useNetworkStore.ts:40-44 | removal keeps the ids unique |
| NetworkStore.MergeIdempotent | src/hooks/useNetworkStore.ts:49 | spreading the same partial update over a layer twice is spreading it once |
| NetworkStore.UpdateLayer | src/hooks/useNetworkStore.ts:46-52 | the list keeps its length; every layer of another id is unchanged at its index; every layer of the id gets the supplied fields, the id field included, and keeps the others |
| NetworkStore.UpdateLayerUnknownId | src/hooks/useNetworkStore.ts:46-52 | an id no layer has leaves the list unchanged |
| NetworkStore.UpdateLayerIdempotent | src/hooks/useNetworkStore.ts:46-52 | applying the same update twice equals applying it once, even when the update renames the layer |
| NetworkStore.UpdateLayerKeepsUnique | src/hooks/useNetworkStore.ts:46-52 | an update that keeps the id, or renames to an unused id, keeps the ids unique |
| NetworkStore.TickAccuracyCanExceedOne | src/hooks/useNetworkStore.ts:67 | the store's accuracy has no ceiling: a small curve value and a mid-range draw record an accuracy above 1 |
| NetworkStore.Store.constructor | src/hooks/useNetworkStore.ts:22-29 | the initial state: the default layers, not training, progress 0, empty loss, accuracy and activations, no timer |
| NetworkStore.Store.AddLayer | src/hooks/useNetworkStore.ts:32-38 | exactly one layer is appended at the end, carrying the given fields and the given id; earlier layers and all metrics are unchanged |
| NetworkStore.Store.RemoveLayerById | src/hooks/useNetworkStore.ts:40-44 | the layer list becomes RemoveLayer of the old list; nothing else changes |
| NetworkStore.Store.UpdateLayerById | src/hooks/useNetworkStore.ts:46-52 | the layer list becomes UpdateLayer of the old list; nothing else changes |
| NetworkStore.Store.StartTraining | src/hooks/useNetworkStore.ts:54-58 | training is on, progress is 0, loss and accuracy are empty, and one more timer is live; layers are unchanged; the run invariant holds |
| NetworkStore.Store.Tick | src/hooks/useNetworkStore.ts:58-78 | when not training or at progress 100 or more, the firing timer is cancelled and nothing else changes; otherwise progress grows by exactly 1, one loss and one accuracy value are appended, and training stops exactly when progress reaches 100; the aligned and run invariants are preserved |
| NetworkStore.Store.StopTraining | src/hooks/useNetworkStore.ts:81-83 | only isTraining changes, to false, so every tick is a no-op until the next StartTraining; the run invariant is preserved |
| NetworkStore.Store.UpdateTrainingProgress | src/hooks/useNetworkStore.ts:85-87 | only the progress changes, to the given value |
| NetworkStore.Store.AddMetrics | src/hooks/useNetworkStore.ts:89-94 | one value is appended to each of loss and accuracy, keeping their lengths equal; nothing else changes |
| NetworkStore.Store.ResetNetwork | src/hooks/useNetworkStore.ts:96-105 | whatever the prior state: exactly the default layers, not training, progress 0, empty loss, accuracy and activations; so it is idempotent |
| TrainingSimulation.EpochLoss | src/hooks/useTrainingSimulation.ts:38-40 | the loss of a step is at least 0.01 whatever the curve value and the draw; it is the noisy value unless that falls below the floor; with a curve in [0,1] and a draw in [0,1) it is below 1.05 |
| TrainingSimulation.EpochAccuracy | src/hooks/useTrainingSimulation.ts:42-44 | the accuracy of a step is at most 0.99 whatever the curve value and the draw; it is the noisy value unless that exceeds the cap; with a curve in [0,1] and a draw in [0,1) it is at least -0.025 |
| TrainingSimulation.TrainingProgress | src/hooks/useTrainingSimulation.ts:101-104 | progress equals min(100, epoch) and lies in [0, 100] |
| TrainingSimulation.TrainingProgressMonotone | src/hooks/useTrainingSimulation.ts:101-104 | progress never decreases as the epoch grows |
| TrainingSimulation.StatusOf | src/hooks/useTrainingSimulation.ts:109-115 | the status is Initializing iff epoch is 0; otherwise the first matching check wins, in the order Converging, Learning Well, Learning, Starting; each status is stated with both directions of its condition |
| TrainingSimulation.StatusMonotone | src/hooks/useTrainingSimulation.ts:109-115 | at the same epoch, a lower loss and a higher accuracy never give a status further back |
| TrainingSimulation.GetInsights | src/hooks/useTrainingSimulation.ts:106-129 | isConverging holds iff loss < 0.1 and accuracy > 0.9, and the status is Converging iff isConverging holds after epoch 0; learningSpeed is 0 with fewer than 2 history entries, and is positive exactly when the last loss fell; the remaining-time estimate is non-negative and 0 when not running or past epoch 100 |
| TrainingSimulation.ConvergingExample | src/hooks/useTrainingSimulation.ts:111 | loss 0.05 and accuracy 0.95 after epoch 0 report Converging |
| TrainingSimulation.Simulation.constructor | src/hooks/useTrainingSimulation.ts:17-31 | the initial state is the defaults: epoch 0, loss 0, accuracy 0, learning rate 0.01, batch size 32, not running, no handle, empty history; the invariant holds |
| TrainingSimulation.Simulation.SimulateEpoch | src/hooks/useTrainingSimulation.ts:33-59 | epoch grows by exactly 1; the current loss and accuracy are the clamped step values; each is appended to its history; learning rate, batch size, running flag and handle are unchanged; the invariant (history lengths equal epoch, last entries are the current values, floor and cap on every entry) is kept |
| TrainingSimulation.Simulation.Tick | src/hooks/useTrainingSimulation.ts:66-68 | a firing of the installed timer runs one epoch and keeps the handle |
| TrainingSimulation.Simulation.StartTraining | src/hooks/useTrainingSimulation.ts:61-69 | with a handle already installed nothing changes; otherwise the simulator is running with exactly the new handle installed; no metric changes |
| TrainingSimulation.Simulation.StopTraining | src/hooks/useTrainingSimulation.ts:71-78 | the handle is cleared and the simulator is not running, whatever the prior state, so it is idempotent; no metric changes |
| TrainingSimulation.Simulation.ResetTraining | src/hooks/useTrainingSimulation.ts:80-91 | restores epoch 0, loss 0, accuracy 0, learning rate 0.01, batch size 32, not running, no handle and empty history |
| TrainingSimulation.Simulation.UpdateLearningRate | src/hooks/useTrainingSimulation.ts:93-95 | stores any value as the learning rate; nothing else changes |
| TrainingSimulation.Simulation.UpdateBatchSize | src/hooks/useTrainingSimulation.ts:97-99 | stores any integer as the batch size, with no validation; nothing else changes |
| TensorflowHelpers.GenerateNeuronPositions | src/utils/tensorflow-helpers.ts:27-44 | one list per layer index, each with exactly as many positions as the layer's size (none for a non-positive size); each position is the layer's centred x, the neuron's y and the drawn depth; with zero depth spacing every z is 0 |
| TensorflowHelpers.NeuronColumnCentred | src/utils/tensorflow-helpers.ts:32-37 | the y values start at -(size-1)·spacing.y/2, step by spacing.y, and the column is symmetric about 0 |
| TensorflowHelpers.DefaultSpacingFlat | src/utils/tensorflow-helpers.ts:27-38 | with the default spacing (3, 1.5, 0) every neuron of every layer, the last included, lies in the plane z = 0 whatever depth is drawn; neurons of a layer are 1.5 apart; adjacent layers are 3 apart |
| TensorflowHelpers.LayerRowCentred | src/utils/tensorflow-helpers.ts:36 | layers are spacing.x apart and the row of layers is symmetric about 0 |
| TensorflowHelpers.ConnectNeuron | src/utils/tensorflow-helpers.ts:59-65 | the innermost loop keeps the list built so far as a prefix and appends one connection per neuron of the next layer, each leaving neuron i of layer l; the whole list stays in range, in strict loop order and weighted by its draws |
| TensorflowHelpers.ConnectLayer | src/utils/tensorflow-helpers.ts:58-66 | the middle loop keeps the list built so far as a prefix and appends size[l]·size[l+1] connections, all leaving layer l; the whole list stays in range, in strict loop order and weighted |
| TensorflowHelpers.GenerateConnections | src/utils/tensorflow-helpers.ts:47-70 | the number of connections is the sum of size[i]·size[i+1] over adjacent layers; each goes from a layer i to layer i+1 with both neuron indices in range; they are in strictly increasing lexicographic (layer, i, j) order; the k-th weight is made from the k-th draw; when every draw lies in [0,1), every weight lies in [-1,1) |
| TensorflowHelpers.WeightInRange | src/utils/tensorflow-helpers.ts:63 | when every draw lies in [0,1), every weight of a connection list weighted by those draws, as GenerateConnections returns it, lies in [-1,1) |
| TensorflowHelpers.ConnectionColor | src/utils/tensorflow-helpers.ts:73-78 | the weights are partitioned into four bands at thresholds 0.5, 0 and -0.5, each band stated with both directions |
| TensorflowHelpers.ConnectionColorMonotone | src/utils/tensorflow-helpers.ts:73-78 | a larger weight never falls in a lower band |
| TensorflowHelpers.ConnectionOpacity | src/utils/tensorflow-helpers.ts:81-83 | the opacity lies in [0.2, 0.8]; it is 0.8 exactly when the magnitude is at least 0.75; a zero weight gives 0.2 |
| TensorflowHelpers.ConnectionOpacityByMagnitude | src/utils/tensorflow-helpers.ts:81-83 | the opacity depends only on the magnitude of the weight and never decreases as it grows |
| TensorflowHelpers.NeuronColor | src/utils/tensorflow-helpers.ts:86-92 | a five-band step function with steps at 0.8, 0.6, 0.4 and 0.2, each band stated with both directions |
| TensorflowHelpers.NeuronColorMonotone | src/utils/tensorflow-helpers.ts:86-92 | a stronger activation never falls in a lower band |
| TensorflowHelpers.NeuronSize | src/utils/tensorflow-helpers.ts:95-97 | half the base size at activation 0, the full base size at 1, and between the two for activations in [0,1] and a non-negative base size |
| TensorflowHelpers.DefaultNeuronSizeRange | src/utils/tensorflow-helpers.ts:95-97 | with the default base size 0.3, an activation in [0,1] gives a size between 0.15 and 0.3 |
| TensorflowHelpers.NeuronSizeMonotone | src/utils/tensorflow-helpers.ts:95-97 | with a non-negative base size the size never decreases as the activation grows |
| TensorflowHelpers.OptimizeScene | src/utils/tensorflow-helpers.ts:125-138 | totalNeurons is the sum of the sizes; totalConnections is the sum of adjacent products; level of detail is recommended iff totalNeurons > 1000; performance is Excellent below 500, Good from 500 below 2000, and otherwise Consider optimization |
| TensorflowHelpers.LevelOfDetailNotExcellent | src/utils/tensorflow-helpers.ts:134-136 | a scene that gets the level-of-detail recommendation is never rated Excellent |
| TensorflowHelpers.OptimizeSceneMatchesGenerators | src/utils/tensorflow-helpers.ts:125-129 | for non-negative sizes, totalNeurons is the number of positions GenerateNeuronPositions makes and totalConnections the number of connections GenerateConnections makes |
| TensorflowHelpers.OptimizeSceneNegativeSize | src/utils/tensorflow-helpers.ts:127-129 | with a negative size the report multiplies by it: for sizes [-1, 2, 3] it counts 4 connections where the generator makes 6 |
| MetricsChart.ChartData | src/components/MetricsChart.tsx:44-50 | exactly one record per loss value; record k has epoch k+1 and loss loss[k]; its accuracy is accuracy[k]·100 when that entry exists, else 0 (the zero test never changes the value); accuracy entries beyond the loss list are ignored |
| MetricsChart.ChartDataRoundTrip | src/components/MetricsChart.tsx:44-50 | the records give back the loss series exactly; they give back the accuracy series cut to the loss length, padded with zeros when it is shorter |
| MetricsChart.ChartDataExample | src/components/MetricsChart.tsx:44-50 | loss [0.9, 0.5] and accuracy [0.2, 0.8] give the records (1, 0.9, 20) and (2, 0.5, 80) |
| MetricsChart.ChartTypeChange | src/components/MetricsChart.tsx:52-59 | a null selection keeps the current chart type; any other replaces it |
| MetricsChart.ChartTypeChangeIdempotent | src/components/MetricsChart.tsx:52-59 | handling the same selection twice is handling it once |
| ThreeView.Scene.constructor | src/hooks/useThreeJS.ts:8-10 | the camera starts at (0, 0, 10), not animating, in activations mode |
| ThreeView.Scene.RotateCamera | src/hooks/useThreeJS.ts:12-18 | the three offsets are added componentwise to the camera; no other state changes |
| ThreeView.Scene.ResetCamera | src/hooks/useThreeJS.ts:20-22 | the camera is exactly (0, 0, 10) whatever it was, so it is idempotent; no other state changes |
| ThreeView.Scene.ToggleAnimation | src/hooks/useThreeJS.ts:24-26 | isAnimating flips, so two toggles restore it; no other state changes |
| ThreeView.Scene.ChangeVisualizationMode | src/hooks/useThreeJS.ts:28-30 | only the mode changes, to the given one |
| ThreeView.ParseNatToString | src/hooks/useThreeJS.ts:40 | reading the decimal text of a number gives back the number |
| ThreeView.NatToStringInjective | src/hooks/useThreeJS.ts:40 | different numbers have different decimal texts |
| ThreeView.DashIndexAfterDigits | src/hooks/useThreeJS.ts:40 | in digits followed by a dash, the first dash comes right after the digits |
| ThreeView.NeuronIdInjective | src/hooks/useThreeJS.ts:40 | two ids `neuron-i-j` are equal only for the same layer and neuron index |
| ThreeView.GenerateNeuronData | src/hooks/useThreeJS.ts:33-53 | layerCount lists of neuronsPerLayer neurons each (none for non-positive counts); neuron j of layer i has id `neuron-i-j`, its drawn activation and its grid position; all ids are pairwise distinct |
| ThreeView.LinkNeuron | src/hooks/useThreeJS.ts:64-72 | the innermost loop keeps the links built so far as a prefix and appends one link per neuron of the next layer; the k-th new link comes from loop position (i, j, k) and joins the neurons it names; the whole list stays in strict loop order |
| ThreeView.LinkLayer | src/hooks/useThreeJS.ts:63-73 | the middle loop keeps the links built so far as a prefix and appends \|L_i\|·\|L_{i+1}\| links, all from layer i; the whole list stays in strict loop order |
| ThreeView.GenerateConnectionData | src/hooks/useThreeJS.ts:56-76 | the number of links is the sum of \|L_i\|·\|L_{i+1}\|; each link goes from the id of a neuron of layer i to the id of a neuron of layer i+1, in strictly increasing loop order; link k takes its weight from draw 2k and is active exactly when draw 2k+1 exceeds 0.3 |

## Left out

- Random numbers and `Math.exp` are parameters. The model does not say that
  the draws lie in [0,1) or that the curve follows the exponential; the
  clamp and range properties hold whatever values are passed.
- Layer ids come from `Math.random().toString(36)`. Here the id is a
  parameter. The source does not guarantee freshness, so uniqueness is proved
  only for fresh ids.
- Timing is not modelled: intervals of 100 ms and 500 ms, and
  `setInterval`/`clearInterval`. A timer is a counter or handle plus an
  explicit `Tick`. A tick may only happen while its timer is live.
- React and zustand mechanics are not modelled: `create`, `useState`,
  `useCallback`, `useRef`, batching, and strict-mode double calls of state
  updaters. All state changes are plain sequential updates.
- Floating point: every metric, opacity, size and coordinate is a `real`.
  There is no IEEE rounding, no NaN and no -0.
- NetworkStore.Store.UpdateTrainingProgress: stores an integer. A fractional
  progress value accepted by the source is not modelled.
- NetworkStore.UpdateLayer: a partial update whose required key is
  explicitly `undefined` would erase that field in the source. Such an update
  is not modelled; only the optional `activation` can be removed, through
  `Some(None)`.
- TensorflowHelpers.GenerateNeuronPositions: sizes are integers. A
  fractional size, which the source's loop rounds up, is not modelled. The
  position object keyed by layer index is a sequence indexed the same way.
- TrainingSimulation.Simulation.UpdateBatchSize: takes an integer. The
  source accepts any number, fractional ones included; those are not modelled.
- ThreeView.GenerateNeuronData: the layer and neuron counts are integers. A
  fractional count, which the source's loops round up and which also enters
  the x and y positions unrounded, is not modelled.
- TensorflowHelpers.GenerateConnections: the unused `neuronPositions`
  parameter is dropped.
- String formatting is left out: the `toFixed` texts of the insights and the
  camera label in `useThreeJS.ts`. The insights keep the numbers before
  formatting.
- MetricsChart rendering and `exportChartData` are left out. The export is
  JSON, Blob and DOM I/O; the records it writes are modelled by `ChartData`.
- The presentation components are markup and styling, so they are not part of
  this model: `ArchitectureBuilder.tsx`, `LayerCard.tsx`, `Connection3D.tsx`,
  `ControlPanel.tsx`, `Neuron3D.tsx`, `Header.tsx`, `Layout.tsx`,
  `TrainingDashboard.tsx`, `App.tsx` and `App.test.tsx`.
- `ColorPalettes`, `CameraPresets` and `AnimationConfigs` are constants used
  only for display. Only the palette colours chosen by the band functions
  appear here.
- `TrainingMetrics` in `src/types/network.ts` is used by no core operation.

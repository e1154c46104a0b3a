# nnet: a feed-forward network, its batch dispatcher and its parallel loop

This project models the core of the Go package `nnet` of the netbench repository. The package is a small feed-forward neural network used for inference:

- A net is a list of layers of neurons. Each neuron has its own parameter vector.
- A `SumNeuron` computes a weighted sum of its inputs plus a bias (the last parameter), then applies an activation function to it.
- `predict` runs the layers one after the other. The layers between the first and the last alternate between two scratch buffers (ping-pong), and the last layer writes into the caller's output.
- `Net.Predict` checks the dimensions. When the output is nil it allocates one.
- `BatchPredict` checks the shapes of an input matrix and an output matrix. It picks one of four row loops depending on which matrices can hand out row views, and runs the loop on the chunks of rows that `ParallelFor` hands out. Each chunk gets its own predictor with its own scratch memory.
- `NewTrainer` checks the topology and builds zero parameter vectors sized for each layer's input width. `NewSimpleTrainer` builds a topology of equal hidden layers.

Element values are modelled as `real`. Activation functions are supplied functions (`Neurons.Activator`), and `Neurons.Linear` is the one concrete instance. The proofs are about shapes, indices, buffer contents and composition, and say nothing about rounding.

Modules, one per source file, except that nnet.go is split in two:

- `Slices`: Go's built-in `make` and `copy`.
- `Floats`: `floats_test.go`.
- `Neurons`: `neuron.go`.
- `ParFor`: `parfor.go`.
- `Sos`: `sosmatrix.go`.
- `Network`: the forward pass, the predictor and the batch predictor of `nnet.go`.
- `Batch`: `batchpredict.go`.
- `Nnet`: the `Net` type and the constructors of `nnet.go`.
- `Options`: an `Option` datatype.

The main results:

- `Network.ForwardPass`: the ping-pong loop leaves in the output exactly the left fold of the layer maps, `Network.Forward`. The rest of the output is kept, and the input is never written.
- `Network.ForwardComposes`: the forward pass is the composition of its layers.
- `ParFor.ParallelFor`: returns exactly the calls `ParFor.Chunks`. These calls tile `[0, n)` in order and are disjoint, and every row lies in exactly one of them.
- `Batch.BatchPredict`: on success, on every strategy, the output contents become `Batch.PredictRows`, which is each row predicted from its input row with nothing else changed. On each error the given outputs are returned unchanged with that error. The inputs are never changed.
- `Nnet.NewTrainer`: builds parameters that fit the topology. `totalNumParameters` counts a weight per input plus a bias per neuron.

## Model

| member | source | states |
|---|---|---|
| Floats.Equal | floats_test.go:9-19 | true exactly when the lengths agree and every pair of entries is equal |
| Floats.EqualFrom | floats_test.go:13-18 | the scan from index i is true exactly when every later pair is equal |
| Floats.EqualFunc | floats_test.go:38-49 | true exactly when the lengths agree and f holds of every pair |
| Floats.EqualFuncFrom | floats_test.go:42-47 | the scan from index i is true exactly when f holds of every later pair |
| Floats.EqualIsIdentity | floats_test.go:9-19 | Equal holds exactly of identical slices |
| Floats.EqualIsEqualFunc | floats_test.go:9-49 | Equal coincides with EqualFunc under equality |
| Slices.Zeros | nnet.go:39 | a freshly made slice of n entries, all zero |
| Slices.Copy | sosmatrix.go:33 | after copy, the first min(len dst, len src) entries come from src and the rest of dst is kept |
| Slices.CopyCount | sosmatrix.go:38 | copy reports the shorter of the two lengths |
| Slices.CopyWhole | sosmatrix.go:37-39 | a copy of equal length replaces the destination outright |
| Slices.CopyPrefix | sosmatrix.go:33 | a shorter source becomes the prefix and the destination's tail is kept |
| Neurons.NumParametersFit | neuron.go:42-45 | a vector of NumParameters(nInputs) entries fits Combine for nInputs inputs exactly when nInputs is not negative |
| Neurons.Neuron.Activate | neuron.go:35-40 | the embedded activator's function of the combination; the Linear activator (activator.go:47-49) passes the combination through |
| Neurons.Neuron.DActivateDCombination | neuron.go:64 | the embedded activator's derivative; the Linear one (activator.go:53-55) is 1 |
| Neurons.Neuron.Combine | neuron.go:47-55 | the loop accumulates parameters[i] * inputs[i] in input order and adds the last parameter as bias |
| Neurons.Neuron.DCombineDParameters | neuron.go:66-73 | deriv[i] becomes inputs[i] for every input, the last entry becomes 1, every other entry is kept |
| Neurons.Neuron.DCombineDInput | neuron.go:75-82 | deriv[i] becomes params[i] for every input, every other entry is kept, and the bias is not copied |
| Neurons.CombinationParameterGradient | neuron.go:47-73 | the combination is linear in the parameters with exactly the coefficients DCombineDParameters writes |
| Neurons.CombinationInputGradient | neuron.go:47-82 | the combination is affine in the inputs with exactly the coefficients DCombineDInput writes |
| Neurons.WeightedSumPrefix | neuron.go:50-52 | only the first len(inputs) weights take part in the sum |
| Neurons.WeightedSumSymmetric | neuron.go:50-52 | the weighted sum is symmetric in weights and inputs of equal length |
| ParFor.ParallelFor | parfor.go:14-36 | the counter loop calls f exactly with Chunks(n, grain), in counter order |
| ParFor.NumChunksBounds | parfor.go:21-25 | claiming stops after ceil(n / grain) calls, and the last call starts below n |
| ParFor.NumChunksExact | parfor.go:21-31 | the number of claims before the counter passes n is ceil(n / grain) |
| ParFor.ChunkBounds | parfor.go:22-30 | each call has 0 <= start < end <= n, start a multiple of grain, and end = min(start + grain, n) |
| ParFor.ChunksDisjoint | parfor.go:21-31 | no two calls overlap |
| ParFor.ChunksCover | parfor.go:21-31 | every index in [0, n) lies in call index / grain |
| ParFor.ChunksCoverOnly | parfor.go:21-31 | an index in a call is in [0, n) and in no other call |
| ParFor.ChunksConsecutive | parfor.go:22 | each call starts where the previous one ended |
| ParFor.ChunksEnd | parfor.go:26-29 | the last call ends at n |
| ParFor.ChunksTile | parfor.go:21-31 | the calls tile [0, n) in order |
| ParFor.NoChunksWhenEmpty | parfor.go:23-25 | with n <= 0 f is never called |
| ParFor.DivUnique | parfor.go:22 | a claimed start identifies its chunk number |
| Sos.SosMatrix.Contents | sosmatrix.go:9 | the matrix's values, row by row |
| Sos.SosMatrix.Set | sosmatrix.go:19-21 | only element (i, j) changes, and it becomes v |
| Sos.SosMatrix.Row | sosmatrix.go:27-35 | a buffer shorter than a row is replaced by a fresh one of row length and the caller's is kept; otherwise the caller's buffer is used and its tail is kept; either way its prefix becomes Go's copy of row i, which is row i when the rows have one length |
| Sos.SosMatrix.SetRow | sosmatrix.go:37-39 | row i becomes copy(row i, d), and the count copied is returned |
| Sos.ContentsAfterRowWrite | sosmatrix.go:37-39 | writing one row changes only that row of the contents |
| Sos.RowSetRowRoundTrip | sosmatrix.go:27-39 | SetRow(i, Row(d, i)) leaves row i as it was |
| Network.Run | nnet.go:168-189 | the activations after k layers have the width of layer k-1 (the input's for k = 0) |
| Network.Forward | nnet.go:168-189 | the network's output has the width of the last layer |
| Network.RunStep | nnet.go:181-188 | k layers are layer k-1 applied to the first k-1 |
| Network.ForwardComposes | nnet.go:168-189 | running m layers and then the rest of the net on their result is running the whole net |
| Network.RunSuffix | nnet.go:181-188 | the suffix net after k layers is the whole net after m + k layers |
| Network.LayerFits | nnet.go:193 | every parameter vector of layer i has one entry per input of the layer plus a bias |
| Network.MaxWidth | nnet.go:155-165 | the widest layer: at least every layer's width and equal to one of them |
| Network.MaxWidthFits | nnet.go:155-165 | buffers of the widest layer's width fit every scratch write |
| Network.NewPredictMemory | nnet.go:155-165 | two fresh, distinct, zero buffers, each as long as the widest layer |
| Network.ApplyLayer | nnet.go:191-196 | one output per neuron of the layer, each the neuron's activation of its combination of the input |
| Network.ProcessLayer | nnet.go:191-196 | the first len(layer) outputs become the layer map of the input, the rest are kept |
| Network.ForwardPass | nnet.go:167-189 | the output's prefix becomes Forward(input) and its rest is kept; the input is not written; the last scratch buffer written holds the second-to-last layer's activations |
| Network.Predictor.constructor | nnet.go:114-121 | the predictor holds the given layers, parameters, buffers and dimensions |
| Network.Predictor.Predict | nnet.go:136-139 | predict on the predictor's own scratch memory; returns the output |
| Network.BatchPredictor.NewPredictor | nnet.go:110-122 | a fresh predictor with fresh scratch buffers bound to the shared layers and parameters |
| Batch.SelectAsWritten | batchpredict.go:48-90 | the switch as written always picks a case, and only the row-view loop or the copy loop; the default's panic is never reached |
| Batch.Select | batchpredict.go:48-90 | intended switch: a row view is read exactly when the input has them and written exactly when the output has them |
| Batch.AsWrittenReachable | batchpredict.go:48-90 | as written, the row-view loop is chosen when either flag holds and the copy loop only when neither does |
| Batch.AsWrittenMixedViewsMissingSide | batchpredict.go:51-55 | as written, a pair of matrices where only one side has row views gets the row-view loop, which asks the other side for a view |
| Batch.SelectAgreesWhenFlagsAgree | batchpredict.go:48-90 | the intended switch agrees with the written one when the flags agree and never asks for a missing view |
| Batch.PredictedRow | batchpredict.go:55 | an output row after one Predict: the net's output in front, the rest as before |
| Batch.RowPredicted | nnet.go:136-139 | a buffer with the net's output in front and its tail as before is the predicted row |
| Batch.PredictRows | batchpredict.go:52-89 | rows [start, end) of the output hold their predictions and the other rows are as before |
| Batch.PredictRowsFit | batchpredict.go:52-89 | predicting keeps the widths of the rows |
| Batch.PredictRowsStep | batchpredict.go:54-56 | predicting row i next extends the predicted range [start, i) by one |
| Batch.PredictRowsCompose | batchpredict.go:92 | predicting [a, b) and then [b, c) is predicting [a, c) |
| Batch.ReadyFits | batchpredict.go:15-35 | after the dimension checks the matrices' contents fit the net |
| Batch.PredictToView | batchpredict.go:55 | predicting into the output row view changes only output row i, which becomes its prediction; the inputs are kept |
| Batch.PredictAndStore | batchpredict.go:65-66 | Predict into the buffer and SetRow from it: only output row i changes, and it becomes its prediction |
| Batch.PredictThroughBuffer | batchpredict.go:64-66 | Row, Predict, SetRow through the output buffer: only output row i changes, and it becomes its prediction |
| Batch.RowBothViews | batchpredict.go:55 | one row of the row-view loop predicts row i in place |
| Batch.RowInputView | batchpredict.go:63-67 | one row of the input-view loop predicts row i |
| Batch.RowOutputView | batchpredict.go:73-76 | one row of the output-view loop predicts row i |
| Batch.RowCopyBoth | batchpredict.go:83-88 | one row of the copy loop predicts row i |
| Batch.ChunkBothViews | batchpredict.go:52-57 | the chunk's rows are predicted and nothing else changes |
| Batch.ChunkInputView | batchpredict.go:60-68 | the chunk's rows are predicted through one output buffer and nothing else changes |
| Batch.ChunkOutputView | batchpredict.go:70-77 | the chunk's rows are predicted through one input buffer and nothing else changes |
| Batch.ChunkCopyBoth | batchpredict.go:79-89 | the chunk's rows are predicted through one input and one output buffer and nothing else changes |
| Batch.Chunk | batchpredict.go:48-90 | f(start, end) for every strategy predicts rows [start, end) |
| Batch.RunCalls | batchpredict.go:92 | f run on calls that tile the rows predicts every row |
| Batch.RunChunks | batchpredict.go:92 | ParallelFor with the chosen f predicts every row and keeps the inputs |
| Batch.NewOutputs | batchpredict.go:20-27 | nSamples fresh, distinct rows of outputDim zeros |
| Batch.ZeroRows | batchpredict.go:23-26 | the contents of that matrix |
| Batch.BatchPredict | batchpredict.go:9-94 | the checks in order (input width; then, for a given output, its width and then its row count), each returning the given outputs untouched with its error; a nil output becomes a fresh zero matrix; on success every row is predicted, nil is returned as error, and the inputs are kept |
| Nnet.ZeroParametersShaped | nnet.go:249-262 | parameters[i][j] has NumParameters(width of layer i's input) entries |
| Nnet.ZeroLayerSize | nnet.go:256-260 | a layer's zero vectors have (inputs + 1) entries per neuron |
| Nnet.ZeroParametersTotal | nnet.go:252-262 | the sum of the parameter lengths is a weight per input plus a bias per neuron |
| Nnet.NumOps | nnet.go:67-79 | the cost estimate total + 70 per neuron + 200 per layer is at least 200 per layer, so it is positive for any net with a layer |
| Nnet.Ceil | nnet.go:89 | the least integer at or above q |
| Nnet.GrainSizeFor | nnet.go:87-92 | the grain is the target 100000 / (0.7 nOps) rounded up, and never below 1 |
| Nnet.GrainSizeAntitone | nnet.go:79-92 | a costlier net never gets a larger grain |
| Nnet.DivAntitone | nnet.go:89 | dividing by a larger positive number gives a smaller quotient |
| Nnet.Net.constructor | nnet.go:263-269 | the struct literal; grainSize starts at zero |
| Nnet.Net.HackGrainSize | nnet.go:60-62 | the grain size becomes g and nothing else changes |
| Nnet.Net.SetGrainSize | nnet.go:64-95 | the neuron count loop and nOps = total + 70 nNeurons + 200 nLayers give the grain, which is at least 1; nothing else changes |
| Nnet.Net.Predict | nnet.go:34-48 | the wrong input width is refused before any write; a nil output becomes a fresh zero output; the wrong output width is refused; otherwise the output holds the prediction and the input is kept |
| Nnet.Net.PredictInto | nnet.go:45-46 | predict on fresh scratch memory leaves the predicted row in the output |
| Nnet.Net.PredictBatch | nnet.go:50-58 | BatchPredict's contract for the net's layers, parameters, dimensions and grain size |
| Nnet.NilOutputAgrees | nnet.go:38-47 | a nil and a given output hold the same prediction, both exactly the net's output when the last layer spans the output |
| Nnet.NewTrainer | nnet.go:238-272 | no layers and an empty layer are refused; otherwise the net holds the layers, zero parameters that fit them, their total, and the grain size from setGrainSize |
| Nnet.NewParameters | nnet.go:248-262 | the layer loop builds the zero parameters of every layer and the total of their lengths |
| Nnet.NewLayerParameters | nnet.go:255-260 | the neuron loop builds one zero vector of NumParameters(nLayerInputs) per neuron and the total of their lengths |
| Nnet.SimpleLayers | nnet.go:218-233 | nHiddenLayers hidden layers and a final layer |
| Nnet.SimpleTrainerAsWritten | nnet.go:207-235 | as written, a net is built exactly when inputDim and outputDim are positive, the hidden-layer count is not negative and, with hidden layers, the width is positive; the only errors are the two dimension errors and the empty-layer one |
| Nnet.SimpleTrainerOutcome | nnet.go:207-235 | with the intended check, a net is built exactly when all three sizes are positive and the hidden-layer count is not negative; a negative count on valid sizes panics; the only errors are the three size errors |
| Nnet.AsWrittenWidthUnchecked | nnet.go:207-216 | as written, the neurons-per-layer error is never returned: width -1 panics and width 0 gets the empty-layer error |
| Nnet.SimpleTrainerChecks | nnet.go:207-235 | the intended checks never panic, build exactly when all three sizes are positive, and agree with the written ones on positive widths |
| Nnet.SimpleLayersAccepted | nnet.go:218-234 | the topology built from positive sizes is one NewTrainer accepts, with a last layer of outputDim neurons |
| Nnet.BuildSimpleLayers | nnet.go:218-233 | the two loops build exactly the layers of SimpleLayers |
| Nnet.NewSimpleTrainer | nnet.go:207-235 | each refused size gives its error; otherwise the net of SimpleLayers is built, with the zero parameters, parameter total and grain size NewTrainer gives it |
| Nnet.NewPerParameterMemory | nnet.go:274-283 | a zero vector of the same length for every parameter vector |
| Nnet.PerParameterMemoryShaped | nnet.go:274-283 | that memory fits the net as its parameters do |
| Nnet.NewPerNeuronMemory | nnet.go:285-291 | a zero entry per neuron, layer by layer |

## Left out

- Floating point: values are `real`, so the model has no rounding, NaN or infinity. The activation formulas of activator.go (tanh, sigmoid and the others) become a supplied `Neurons.Activator`. `NewSimpleTrainer`'s `TanhNeuron` is `SumNeuron(hidden)` for a supplied hidden activator.
- Nnet.GrainSizeFor: computes in exact real arithmetic, not `float64`. For nOps <= 0 Go's conversion of an infinite or negative quotient is replaced by the value 1 that the floor gives. A valid net always has nOps >= 270.
- Randomness: `SumNeuron.Randomize` and `Trainer.RandomizeParameters` are not modelled.
- Concurrency: `GOMAXPROCS`, the goroutines, the `WaitGroup` and the atomic add in `ParallelFor` are not modelled. Every claim of the shared counter returns a distinct multiple of grain, so the set of calls does not depend on the interleaving. The model runs the claims in counter order.
- ParFor.ParallelFor: requires grain >= 1 only when n > 0, because a grain of 0 never advances the counter (a negative grain wraps around in Go's uint64 counter, which is not modelled); with n <= 0 the first claim stops the loop whatever the grain.
- ParFor.ParallelFor: the counter is an unbounded integer. The wrap-around of Go's uint64 counter is not modelled.
- Go interface assertions: whether a matrix can hand out row views is a boolean flag. Both matrices are `SosMatrix` values.
- `predictor.PredictBatch` (an unconditional panic), `Trainer.Predictor` (returns the net itself) and the `Trainer` wrapper are not modelled. `NewTrainer` returns the net directly.
- `InputDim`, `OutputDim` and `GrainSize` on `Net`, and `InputDim` and `OutputDim` on the predictor, are modelled as plain field reads with no contract. They have no table row.
- `Sos.SosMatrix.Dims`, `Sos.SosMatrix.At` and `Sos.SosMatrix.RowView` are modelled as plain reads with no contract. `Dims` requires a row, because Go indexes row 0.
- The tolerance helpers of floats_test.go (`EqualApprox` and the `EqualWithin` family) are not modelled.
- Aliasing: the model requires what Go silently relies on.
  - `Batch.BatchPredict`, on the path where the checks pass, requires that no input row is an output row.
  - `Network.ForwardPass` requires distinct scratch buffers apart from the input and the output.
  - `Nnet.Net.Predict` requires an output different from the input for a single-layer net.
- Batch.BatchPredict: requires at least one input row, because `Dims` panics otherwise, and, once the input width is right, at least one row in a given output for the same reason. Only on the path where all three dimension checks pass (`Batch.ChecksPass`) does it require the last layer to fit in outputDim, because Go panics when writing past the output, and grainSize >= 1, because with a grain of 0 the counter never advances: `HackGrainSize(0)` followed by a `PredictBatch` that passes the checks does not terminate. Every failed check returns its error whatever the grain, the aliasing or the net.
- Batch.BatchPredict: requires the input matrix to be `Sos.SosMatrix.Valid`, which asks for distinct row buffers as well as a common row length. Go only reads the inputs, so an input matrix that repeats a row buffer is fine there; the model does not cover it.
- Batch.BatchPredict: uses the intended strategy switch `Batch.Select`, not the one as written (see Findings).
- Nnet.Net.PredictBatch: requires grainSize >= 1 and the last layer to fit in outputDim only on the path where the checks pass, for the same reasons.
- Nnet.Net.Predict: requires the last layer to fit the output once the checks have passed, because Go panics when writing past the output.
- Nnet.NewTrainer: requires inputDim >= -1 only for a topology that passes the checks, because `make` then panics on a negative length. It does not check outputDim, and neither does the model.
- Nnet.NewSimpleTrainer: requires that the call does not panic (`Nnet.SimpleTrainerOutcome` is not `Panics`): a negative nHiddenLayers is refused only when the three size checks pass, because Go then panics in `make` or at `neurons[nHiddenLayers]`. The method uses the intended check of the width of the hidden layers (see Findings).
- Network.ProcessLayer: requires distinct input and output buffers. Go does not check this, and none of its callers passes the same slice twice.
- Network.Predictor.Predict: requires an input shaped for the net, because Go's predictor does not check input widths.
- Allocation counts: one predictor and one temporary buffer per chunk appear in the model's code but in no contract.
- Parameter vectors and the memories made by `newPerParameterMemory` and `newPerNeuronMemory` are values (`seq`), not mutable slices. Nothing in the core writes them.

## Findings

| source | as written | input that shows it | evidently intended | confidence | as-written member | corrected member |
|---|---|---|---|---|---|---|
| batchpredict.go:51 | the first case of the switch lists both flags separated by a comma, which matches when either flag is true, so the mixed cases at lines 59 and 69 and the default are unreachable | an input that has row views with an output that does not: the row-view loop calls RowView on the output's nil row viewer (line 55) | one loop per combination of the two flags | not executed | Batch.AsWrittenMixedViewsMissingSide | Batch.Select |
| nnet.go:214 | the third check tests inputDim a second time, so the width of the hidden layers is never checked | NewSimpleTrainer(1, 1, 1, 0) returns the empty-layer error instead of the neurons-per-layer one; NewSimpleTrainer(1, 1, 1, -1) panics in make | refuse a non-positive number of neurons per layer with its own error | not executed | Nnet.AsWrittenWidthUnchecked | Nnet.SimpleTrainerChecks |

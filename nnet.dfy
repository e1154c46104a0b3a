/**
 * Net and the constructors of nnet.go: a net holds its topology (layers of
 * neurons), one zero-initialised parameter vector per neuron, the parameter
 * total and the grain size BatchPredict hands to ParallelFor. NewTrainer checks
 * the topology and builds the parameters; NewSimpleTrainer builds a topology of
 * equal hidden layers and a final layer of outputDim neurons.
 */
module Nnet {
  import opened Options
  import opened Slices
  import opened Neurons
  import opened Sos
  import opened Network
  import opened Batch

  datatype NetError =
    | InputDimMismatch
    | OutputDimMismatch
    | NoNeurons
    | EmptyLayer
    | NonPositiveInputDim
    | NonPositiveOutputDim
    | NonPositiveNeuronsPerLayer

  /** Number of parameter entries in the first k vectors of a layer. */
  function LayerSize(layer: seq<seq<real>>, k: nat): nat
    requires k <= |layer|
  {
    if k == 0 then 0 else LayerSize(layer, k - 1) + |layer[k - 1]|
  }

  /** Number of parameter entries in the first k layers. */
  function ParameterTotal(parameters: Parameters, k: nat): nat
    requires k <= |parameters|
  {
    if k == 0 then 0 else ParameterTotal(parameters, k - 1) + LayerSize(parameters[k - 1], |parameters[k - 1]|)
  }

  /** Number of neurons in the first k layers. */
  function NeuronTotal(neurons: Layers, k: nat): nat
    requires k <= |neurons|
  {
    if k == 0 then 0 else NeuronTotal(neurons, k - 1) + |neurons[k - 1]|
  }

  /** A weight per input plus a bias per neuron, over the first k layers. */
  function WeightCount(inputDim: int, neurons: Layers, k: nat): int
    requires k <= |neurons|
  {
    if k == 0 then 0 else WeightCount(inputDim, neurons, k - 1) + |neurons[k - 1]| * (InWidth(inputDim, neurons, k - 1) + 1)
  }

  /** The parameters NewTrainer makes for layer i: one zero vector per neuron, of the
      length the neuron asks for given the layer's input width. */
  function ZeroLayer(layer: seq<Neuron>, nInputs: int): seq<seq<real>>
    requires nInputs >= -1
  {
    seq(|layer|, j requires 0 <= j < |layer| => Zeros(layer[j].NumParameters(nInputs)))
  }

  /** The parameters NewTrainer makes for the whole net. */
  function ZeroParameters(inputDim: int, neurons: Layers): Parameters
    requires inputDim >= -1
  {
    seq(|neurons|, i requires 0 <= i < |neurons| => ZeroLayer(neurons[i], InWidth(inputDim, neurons, i)))
  }

  /** A topology NewTrainer accepts: some layers, none of them empty. */
  predicate Accepted(neurons: Layers) {
    |neurons| >= 1 && forall i :: 0 <= i < |neurons| ==> |neurons[i]| >= 1
  }

  /** The parameters NewTrainer builds fit the topology. */
  lemma ZeroParametersShaped(inputDim: int, neurons: Layers)
    requires inputDim >= -1 && Accepted(neurons)
    ensures Shaped(inputDim, neurons, ZeroParameters(inputDim, neurons))
  {
  }

  /** The entries of the first k zero vectors of a layer: k times (inputs + 1). */
  lemma {:induction false} ZeroLayerSize(layer: seq<Neuron>, nInputs: int, k: nat)
    requires nInputs >= -1 && k <= |layer|
    ensures LayerSize(ZeroLayer(layer, nInputs), k) == k * (nInputs + 1)
  {
    if k > 0 {
      ZeroLayerSize(layer, nInputs, k - 1);
      assert (k - 1) * (nInputs + 1) + (nInputs + 1) == k * (nInputs + 1);
    }
  }

  /** totalNumParameters counts a weight for every input of every neuron and a bias
      for every neuron. */
  lemma {:induction false} ZeroParametersTotal(inputDim: int, neurons: Layers, k: nat)
    requires inputDim >= -1 && k <= |neurons|
    ensures ParameterTotal(ZeroParameters(inputDim, neurons), k) == WeightCount(inputDim, neurons, k)
  {
    if k > 0 {
      ZeroParametersTotal(inputDim, neurons, k - 1);
      var layer := ZeroParameters(inputDim, neurons)[k - 1];
      ZeroLayerSize(neurons[k - 1], InWidth(inputDim, neurons, k - 1), |layer|);
    }
  }

  const NeuronOverhead: int := 70
  const LayerOverhead: int := 200

  /** setGrainSize's cost estimate of one prediction: positive for any net with a layer,
      so the division that follows it is by a positive number. */
  function NumOps(totalNumParameters: int, neurons: Layers): (nOps: int)
    ensures totalNumParameters >= 0 ==> nOps >= LayerOverhead * |neurons|
    ensures totalNumParameters >= 0 && |neurons| >= 1 ==> nOps > 0
  {
    totalNumParameters + NeuronTotal(neurons, |neurons|) * NeuronOverhead + LayerOverhead * |neurons|
  }

  /** The least integer at or above q. */
  function Ceil(q: real): (c: int)
    ensures q <= c as real < q + 1.0
  {
    -((-q).Floor)
  }

  /** The target of setGrainSize: 100000 / (0.7 * nOps) rows per chunk. */
  function GrainTarget(nOps: int): real
    requires nOps > 0
  {
    100000.0 / (0.7 * nOps as real)
  }

  /**
   * The grain size for a cost estimate: the target rounded up, but never below 1.
   * A non-positive estimate gives 1 (the Go division yields an infinity or a negative
   * number there, and the floor at 1 applies).
   */
  function GrainSizeFor(nOps: int): (g: int)
    ensures g >= 1
    ensures nOps > 0 ==> GrainTarget(nOps) <= g as real && (g == 1 || (g - 1) as real < GrainTarget(nOps))
  {
    if nOps <= 0 then 1
    else
      var c := Ceil(GrainTarget(nOps));
      if c < 1 then 1 else c
  }

  /** A costlier net never gets a larger grain. */
  lemma GrainSizeAntitone(a: int, b: int)
    requires 0 < a <= b
    ensures GrainSizeFor(b) <= GrainSizeFor(a)
  {
    DivAntitone(100000.0, 0.7 * a as real, 0.7 * b as real);
  }

  /** Dividing by a larger positive number gives a smaller quotient. */
  lemma DivAntitone(c: real, x: real, y: real)
    requires c >= 0.0 && 0.0 < x <= y
    ensures c / y <= c / x
  {
    var q, r := c / x, c / y;
    assert q * x == c && r * y == c;
    RealMulMonotone(r, x, y);
    assert (r - q) * x == r * x - q * x;
    NonPositiveFactor(r - q, x);
  }

  /** A product with a positive factor is at most 0 only if the other factor is. */
  lemma NonPositiveFactor(t: real, x: real)
    requires x > 0.0 && t * x <= 0.0
    ensures t <= 0.0
  {
    if t > 0.0 {
      RealMulStrict(t, 0.0, x);
    }
  }

  /** Multiplying by a non-negative factor keeps the order. */
  lemma RealMulMonotone(t: real, x: real, y: real)
    requires t >= 0.0 && x <= y
    ensures t * x <= t * y
  {
    assert t * y - t * x == t * (y - x);
  }

  /** Multiplying by a positive factor keeps the strict order. */
  lemma RealMulStrict(t: real, x: real, y: real)
    requires t > 0.0 && x < y
    ensures t * x < t * y
  {
    assert t * y - t * x == t * (y - x);
  }

  /** The net's shape: the layers and parameters fit, and the total counts the entries. */
  class Net {
    var inputDim: int
    var outputDim: int
    var totalNumParameters: int
    var grainSize: int
    var neurons: Layers
    var parameters: Parameters

    ghost predicate Valid()
      reads this
    {
      && Shaped(inputDim, neurons, parameters)
      && totalNumParameters == ParameterTotal(parameters, |parameters|)
    }

    /** The struct literal of NewTrainer; grainSize starts at Go's zero value. */
    constructor (inputDim: int, outputDim: int, totalNumParameters: int, neurons: Layers, parameters: Parameters)
      ensures this.inputDim == inputDim && this.outputDim == outputDim
      ensures this.totalNumParameters == totalNumParameters && this.grainSize == 0
      ensures this.neurons == neurons && this.parameters == parameters
    {
      this.inputDim := inputDim;
      this.outputDim := outputDim;
      this.totalNumParameters := totalNumParameters;
      this.grainSize := 0;
      this.neurons := neurons;
      this.parameters := parameters;
    }

    function InputDim(): int
      reads this
    {
      inputDim
    }

    function OutputDim(): int
      reads this
    {
      outputDim
    }

    function GrainSize(): int
      reads this
    {
      grainSize
    }

    /** HackGrainSize(g): sets the grain size to g, whatever g is. */
    method HackGrainSize(g: int)
      modifies this
      ensures grainSize == g
      ensures inputDim == old(inputDim) && outputDim == old(outputDim)
      ensures totalNumParameters == old(totalNumParameters)
      ensures neurons == old(neurons) && parameters == old(parameters)
    {
      grainSize := g;
    }

    /** setGrainSize: counts the neurons, estimates the cost of one prediction and sets
        the grain size for it. */
    method SetGrainSize()
      modifies this
      ensures grainSize == GrainSizeFor(NumOps(totalNumParameters, neurons)) && grainSize >= 1
      ensures inputDim == old(inputDim) && outputDim == old(outputDim)
      ensures totalNumParameters == old(totalNumParameters)
      ensures neurons == old(neurons) && parameters == old(parameters)
    {
      var nNeurons := 0;
      for i := 0 to |neurons|
        invariant nNeurons == NeuronTotal(neurons, i)
      {
        nNeurons := nNeurons + |neurons[i]|;
      }
      var nOps := totalNumParameters + nNeurons * NeuronOverhead + LayerOverhead * |neurons|;
      grainSize := GrainSizeFor(nOps);
    }

    /**
     * Predict: an input of the wrong width is refused before anything is written; a nil
     * output is replaced by a fresh one of outputDim zeros, a given one of the wrong
     * width is refused; then predict runs on fresh scratch memory.
     */
    method Predict(input: array<real>, output: array?<real>) returns (res: array?<real>, err: Option<NetError>)
      requires Valid()
      requires input.Length == inputDim && (output == null || output.Length == outputDim) ==>
        LastWidth(neurons) <= outputDim
      requires output != null && |neurons| == 1 ==> input != output
      modifies output
      ensures input.Length != inputDim ==> res == null && err == Some(NetError.InputDimMismatch)
      ensures input.Length == inputDim && output != null && output.Length != outputDim ==>
        res == null && err == Some(NetError.OutputDimMismatch)
      ensures err.Some? && output != null ==> output[..] == old(output[..])
      ensures input != output ==> input[..] == old(input[..])
      ensures input.Length == inputDim && output == null ==>
        && err.None? && res != null && fresh(res)
        && res[..] == PredictedRow(neurons, parameters, old(input[..]), Zeros(outputDim))
      ensures input.Length == inputDim && output != null && output.Length == outputDim ==>
        && err.None? && res == output
        && output[..] == PredictedRow(neurons, parameters, old(input[..]), old(output[..]))
    {
      if input.Length != inputDim {
        return null, Some(NetError.InputDimMismatch);
      }
      var out: array<real>;
      if output == null {
        out := new real[outputDim](_ => 0.0);
      } else {
        if output.Length != outputDim {
          return null, Some(NetError.OutputDimMismatch);
        }
        out := output;
      }
      PredictInto(input, out);
      return out, None;
    }

    /** The end of Predict: predict on fresh scratch memory from newPredictMemory. */
    method PredictInto(input: array<real>, output: array<real>)
      requires Valid() && input.Length == inputDim && LastWidth(neurons) <= output.Length
      requires |neurons| == 1 ==> input != output
      modifies output
      ensures output[..] == PredictedRow(neurons, parameters, old(input[..]), old(output[..]))
      ensures input != output ==> input[..] == old(input[..])
    {
      var prevOutput, tmpOutput := NewPredictMemory(neurons);
      MaxWidthFits(neurons, prevOutput);
      MaxWidthFits(neurons, tmpOutput);
      ForwardPass(input, neurons, parameters, prevOutput, tmpOutput, output);
      RowPredicted(BatchPredictor(neurons, parameters, inputDim, outputDim), old(input[..]), old(output[..]), output[..]);
    }

    /** PredictBatch: BatchPredict with a batch predictor of the net's layers and
        parameters, its dimensions and its grain size. */
    method PredictBatch(inputs: SosMatrix, inputIsRowViewer: bool, outputs: Option<SosMatrix>, outputIsRowViewer: bool)
        returns (res: Option<SosMatrix>, err: Option<BatchError>)
      requires Valid()
      requires inputs.Valid() && |inputs.rows| >= 1
      requires inputs.rows[0].Length == inputDim && outputs.Some? ==>
        outputs.value.Valid() && |outputs.value.rows| >= 1
      requires ChecksPass(inputs, outputs, inputDim, outputDim) ==>
        && grainSize >= 1 && LastWidth(neurons) <= outputDim
        && (outputs.Some? ==> RowsApart(inputs, outputs.value))
      modifies if outputs.Some? then outputs.value.Repr() else {}
      ensures inputs.Contents() == old(inputs.Contents())
      ensures inputs.rows[0].Length != inputDim ==> res == outputs && err == Some(BatchError.InputDimMismatch)
      ensures outputs.Some? && err.Some? ==> outputs.value.Contents() == old(outputs.value.Contents())
      ensures inputs.rows[0].Length == inputDim && outputs.None? ==>
        && err.None? && res.Some? && res.value.Valid() && |res.value.rows| == |inputs.rows|
        && (forall r :: 0 <= r < |res.value.rows| ==> fresh(res.value.rows[r]))
        && res.value.Contents()
             == PredictRows(BatchPredictor(neurons, parameters, inputDim, outputDim), inputDim,
                            old(inputs.Contents()), ZeroRows(|inputs.rows|, outputDim), 0, |inputs.rows|)
      ensures inputs.rows[0].Length == inputDim && outputs.Some? ==>
        if outputs.value.rows[0].Length != outputDim then res == outputs && err == Some(BatchError.OutputDimMismatch)
        else if |outputs.value.rows| != |inputs.rows| then res == outputs && err == Some(RowsMismatch)
        else
          && res == outputs && err.None?
          && outputs.value.Contents()
               == PredictRows(BatchPredictor(neurons, parameters, inputDim, outputDim), inputDim,
                              old(inputs.Contents()), old(outputs.value.Contents()), 0, |inputs.rows|)
    {
      var batch := BatchPredictor(neurons, parameters, InputDim(), OutputDim());
      res, err := BatchPredict(batch, inputs, inputIsRowViewer, outputs, outputIsRowViewer,
                               inputDim, outputDim, grainSize);
    }
  }

  /** For the same input, a nil output and a given one hold the same prediction; when the
      last layer is as wide as the output, both are the net's output exactly. */
  lemma NilOutputAgrees(neurons: Layers, parameters: Parameters, x: seq<real>, before: seq<real>)
    requires Shaped(|x|, neurons, parameters) && LastWidth(neurons) <= |before|
    ensures PredictedRow(neurons, parameters, x, Zeros(|before|))[..LastWidth(neurons)]
         == PredictedRow(neurons, parameters, x, before)[..LastWidth(neurons)]
    ensures LastWidth(neurons) == |before| ==>
      && PredictedRow(neurons, parameters, x, Zeros(|before|)) == PredictedRow(neurons, parameters, x, before)
      && PredictedRow(neurons, parameters, x, before) == Forward(neurons, parameters, x)
  {
    var w := LastWidth(neurons);
    if w == |before| {
      var y := PredictedRow(neurons, parameters, x, before);
      assert y == y[..w];
      var z := PredictedRow(neurons, parameters, x, Zeros(|before|));
      assert z == z[..w];
    }
  }

  /**
   * NewTrainer: refuses a net without layers and a net with an empty layer; otherwise
   * builds a zero vector of NumParameters(width of the layer's input) entries per
   * neuron, sums their lengths into totalNumParameters and sets the grain size.
   */
  method NewTrainer(inputDim: int, outputDim: int, neurons: Layers) returns (net: Net?, err: Option<NetError>)
    requires Accepted(neurons) ==> inputDim >= -1
    ensures |neurons| == 0 ==> net == null && err == Some(NoNeurons)
    ensures |neurons| >= 1 && !Accepted(neurons) ==> net == null && err == Some(EmptyLayer)
    ensures Accepted(neurons) ==>
      && err.None? && net != null && fresh(net) && net.Valid()
      && net.inputDim == inputDim && net.outputDim == outputDim
      && net.neurons == neurons && net.parameters == ZeroParameters(inputDim, neurons)
      && net.totalNumParameters == WeightCount(inputDim, neurons, |neurons|)
      && net.grainSize == GrainSizeFor(NumOps(net.totalNumParameters, neurons))
  {
    if |neurons| == 0 {
      return null, Some(NoNeurons);
    }
    for i := 0 to |neurons|
      invariant forall k :: 0 <= k < i ==> |neurons[k]| >= 1
    {
      if |neurons[i]| == 0 {
        return null, Some(EmptyLayer);
      }
    }
    assert Accepted(neurons);
    var parameters, totalNumParameters := NewParameters(inputDim, neurons);
    ZeroParametersShaped(inputDim, neurons);
    ZeroParametersTotal(inputDim, neurons, |neurons|);
    net := new Net(inputDim, outputDim, totalNumParameters, neurons, parameters);
    net.SetGrainSize();
    return net, None;
  }

  /** The parameter loop of NewTrainer: layer by layer, each layer's zero vectors sized
      for the width of the layer before it, with the running total of their lengths. */
  method NewParameters(inputDim: int, neurons: Layers) returns (parameters: Parameters, total: int)
    requires inputDim >= -1
    ensures parameters == ZeroParameters(inputDim, neurons)
    ensures total == ParameterTotal(parameters, |parameters|)
  {
    ghost var zero := ZeroParameters(inputDim, neurons);
    parameters := [];
    total := 0;
    var nLayerInputs := inputDim;
    for i := 0 to |neurons|
      invariant parameters == zero[..i]
      invariant total == ParameterTotal(zero, i)
      invariant nLayerInputs == if i == 0 then inputDim else |neurons[i - 1]|
    {
      var layerParameters, layerTotal := NewLayerParameters(neurons[i], nLayerInputs);
      assert zero[..i + 1] == zero[..i] + [zero[i]];
      parameters := parameters + [layerParameters];
      total := total + layerTotal;
      nLayerInputs := |neurons[i]|;
    }
    assert parameters == zero;
  }

  /** One layer of the parameter loop: a zero vector of NumParameters(nLayerInputs)
      entries per neuron, and the sum of their lengths. */
  method NewLayerParameters(layer: seq<Neuron>, nLayerInputs: int) returns (layerParameters: seq<seq<real>>, total: int)
    requires nLayerInputs >= -1
    ensures layerParameters == ZeroLayer(layer, nLayerInputs)
    ensures total == LayerSize(layerParameters, |layerParameters|)
  {
    ghost var zero := ZeroLayer(layer, nLayerInputs);
    layerParameters := [];
    total := 0;
    for j := 0 to |layer|
      invariant layerParameters == zero[..j]
      invariant total == LayerSize(zero, j)
    {
      var nParameters := layer[j].NumParameters(nLayerInputs);
      assert zero[..j + 1] == zero[..j] + [Zeros(nParameters)];
      layerParameters := layerParameters + [Zeros(nParameters)];
      total := total + nParameters;
    }
    assert layerParameters == zero;
  }

  /** The layers NewSimpleTrainer builds: nHiddenLayers layers of nNeuronsPerLayer hidden
      neurons, then outputDim neurons with the final activator. */
  function SimpleLayers(nHiddenLayers: nat, nNeuronsPerLayer: nat, hidden: Activator,
                        outputDim: nat, finalLayerActivator: Activator): (neurons: Layers)
    ensures |neurons| == nHiddenLayers + 1
  {
    seq(nHiddenLayers + 1, i requires 0 <= i <= nHiddenLayers =>
      if i < nHiddenLayers then seq(nNeuronsPerLayer, _ => SumNeuron(hidden))
      else seq(outputDim, _ => SumNeuron(finalLayerActivator)))
  }

  /** What a constructor call ends in. */
  datatype Outcome = Rejected(error: NetError) | Panics | Builds

  /**
   * NewSimpleTrainer as written: the third check tests inputDim again, so the width of
   * the hidden layers reaches make (a negative one panics) and NewTrainer (an empty
   * one is refused as an empty layer). A negative nHiddenLayers panics in make or at
   * neurons[nHiddenLayers].
   */
  function SimpleTrainerAsWritten(inputDim: int, outputDim: int, nHiddenLayers: int, nNeuronsPerLayer: int): (r: Outcome)
    ensures r == Builds <==>
      inputDim > 0 && outputDim > 0 && nHiddenLayers >= 0 && (nHiddenLayers > 0 ==> nNeuronsPerLayer > 0)
    ensures r.Rejected? ==> r.error in {NonPositiveInputDim, NonPositiveOutputDim, EmptyLayer}
  {
    if inputDim <= 0 then Rejected(NonPositiveInputDim)
    else if outputDim <= 0 then Rejected(NonPositiveOutputDim)
    else if inputDim <= 0 then Rejected(NonPositiveNeuronsPerLayer)
    else if nHiddenLayers < 0 then Panics
    else if nHiddenLayers > 0 && nNeuronsPerLayer < 0 then Panics
    else if nHiddenLayers > 0 && nNeuronsPerLayer == 0 then Rejected(EmptyLayer)
    else Builds
  }

  /** NewSimpleTrainer as its error message intends: the third check tests the width of
      the hidden layers. */
  function SimpleTrainerOutcome(inputDim: int, outputDim: int, nHiddenLayers: int, nNeuronsPerLayer: int): (r: Outcome)
    ensures r == Builds <==> inputDim > 0 && outputDim > 0 && nNeuronsPerLayer > 0 && nHiddenLayers >= 0
    ensures r == Panics <==> inputDim > 0 && outputDim > 0 && nNeuronsPerLayer > 0 && nHiddenLayers < 0
    ensures r.Rejected? ==> r.error in {NonPositiveInputDim, NonPositiveOutputDim, NonPositiveNeuronsPerLayer}
  {
    if inputDim <= 0 then Rejected(NonPositiveInputDim)
    else if outputDim <= 0 then Rejected(NonPositiveOutputDim)
    else if nNeuronsPerLayer <= 0 then Rejected(NonPositiveNeuronsPerLayer)
    else if nHiddenLayers < 0 then Panics
    else Builds
  }

  /** As written, a negative width panics and a zero width gets the empty-layer error:
      the neurons-per-layer error is never returned. */
  lemma AsWrittenWidthUnchecked(inputDim: int, outputDim: int, nHiddenLayers: int, nNeuronsPerLayer: int)
    ensures SimpleTrainerAsWritten(inputDim, outputDim, nHiddenLayers, nNeuronsPerLayer) != Rejected(NonPositiveNeuronsPerLayer)
    ensures SimpleTrainerAsWritten(1, 1, 1, -1) == Panics
    ensures SimpleTrainerAsWritten(1, 1, 1, 0) == Rejected(EmptyLayer)
    ensures SimpleTrainerOutcome(1, 1, 1, 0) == Rejected(NonPositiveNeuronsPerLayer)
  {
  }

  /** The intended checks never panic for a non-negative hidden-layer count, build exactly
      when all three sizes are positive, and agree with the code as written on them. */
  lemma SimpleTrainerChecks(inputDim: int, outputDim: int, nHiddenLayers: int, nNeuronsPerLayer: int)
    requires nHiddenLayers >= 0
    ensures SimpleTrainerOutcome(inputDim, outputDim, nHiddenLayers, nNeuronsPerLayer) != Panics
    ensures SimpleTrainerOutcome(inputDim, outputDim, nHiddenLayers, nNeuronsPerLayer) == Builds
        <==> inputDim > 0 && outputDim > 0 && nNeuronsPerLayer > 0
    ensures nNeuronsPerLayer > 0 ==>
      SimpleTrainerOutcome(inputDim, outputDim, nHiddenLayers, nNeuronsPerLayer)
        == SimpleTrainerAsWritten(inputDim, outputDim, nHiddenLayers, nNeuronsPerLayer)
  {
  }

  /** A topology SimpleLayers builds from positive sizes is one NewTrainer accepts. */
  lemma SimpleLayersAccepted(nHiddenLayers: nat, nNeuronsPerLayer: nat, hidden: Activator,
                             outputDim: nat, finalLayerActivator: Activator)
    requires nNeuronsPerLayer >= 1 && outputDim >= 1
    ensures Accepted(SimpleLayers(nHiddenLayers, nNeuronsPerLayer, hidden, outputDim, finalLayerActivator))
    ensures LastWidth(SimpleLayers(nHiddenLayers, nNeuronsPerLayer, hidden, outputDim, finalLayerActivator)) == outputDim
  {
  }

  /** The loops of NewSimpleTrainer: nHiddenLayers layers of nNeuronsPerLayer hidden neurons,
      then a final layer of outputDim neurons. */
  method BuildSimpleLayers(nHiddenLayers: nat, nNeuronsPerLayer: nat, hidden: Activator,
                           outputDim: nat, finalLayerActivator: Activator) returns (neurons: Layers)
    ensures neurons == SimpleLayers(nHiddenLayers, nNeuronsPerLayer, hidden, outputDim, finalLayerActivator)
  {
    ghost var target := SimpleLayers(nHiddenLayers, nNeuronsPerLayer, hidden, outputDim, finalLayerActivator);
    neurons := [];
    for i := 0 to nHiddenLayers
      invariant neurons == target[..i]
    {
      var layer: seq<Neuron> := [];
      for j := 0 to nNeuronsPerLayer
        invariant layer == seq(j, _ => SumNeuron(hidden))
      {
        layer := layer + [SumNeuron(hidden)];
      }
      neurons := neurons + [layer];
    }
    var last: seq<Neuron> := [];
    for i := 0 to outputDim
      invariant last == seq(i, _ => SumNeuron(finalLayerActivator))
    {
      last := last + [SumNeuron(finalLayerActivator)];
    }
    neurons := neurons + [last];
    assert neurons == target;
  }

  /**
   * NewSimpleTrainer with the intended checks: refuses non-positive sizes, builds the
   * hidden layers and the final layer in loops and hands them to NewTrainer.
   */
  method NewSimpleTrainer(inputDim: int, outputDim: int, nHiddenLayers: int, nNeuronsPerLayer: int,
                          hidden: Activator, finalLayerActivator: Activator) returns (net: Net?, err: Option<NetError>)
    requires SimpleTrainerOutcome(inputDim, outputDim, nHiddenLayers, nNeuronsPerLayer) != Panics
    ensures SimpleTrainerOutcome(inputDim, outputDim, nHiddenLayers, nNeuronsPerLayer).Rejected? ==>
      net == null && err == Some(SimpleTrainerOutcome(inputDim, outputDim, nHiddenLayers, nNeuronsPerLayer).error)
    ensures SimpleTrainerOutcome(inputDim, outputDim, nHiddenLayers, nNeuronsPerLayer) == Builds ==>
      && err.None? && net != null && fresh(net) && net.Valid()
      && net.inputDim == inputDim && net.outputDim == outputDim
      && net.neurons == SimpleLayers(nHiddenLayers, nNeuronsPerLayer, hidden, outputDim, finalLayerActivator)
      && LastWidth(net.neurons) == net.outputDim
      && net.parameters == ZeroParameters(inputDim, net.neurons)
      && net.totalNumParameters == WeightCount(inputDim, net.neurons, |net.neurons|)
      && net.grainSize == GrainSizeFor(NumOps(net.totalNumParameters, net.neurons))
  {
    if inputDim <= 0 {
      return null, Some(NonPositiveInputDim);
    }
    if outputDim <= 0 {
      return null, Some(NonPositiveOutputDim);
    }
    if nNeuronsPerLayer <= 0 {
      return null, Some(NonPositiveNeuronsPerLayer);
    }
    var neurons := BuildSimpleLayers(nHiddenLayers, nNeuronsPerLayer, hidden, outputDim, finalLayerActivator);
    SimpleLayersAccepted(nHiddenLayers, nNeuronsPerLayer, hidden, outputDim, finalLayerActivator);
    net, err := NewTrainer(inputDim, outputDim, neurons);
  }

  /** newPerParameterMemory: a zero vector of the same length for every parameter vector. */
  method NewPerParameterMemory(params: Parameters) returns (n: Parameters)
    ensures |n| == |params|
    ensures forall i :: 0 <= i < |n| ==> |n[i]| == |params[i]|
    ensures forall i, j :: 0 <= i < |n| && 0 <= j < |n[i]| ==> n[i][j] == Zeros(|params[i][j]|)
  {
    n := [];
    for i := 0 to |params|
      invariant |n| == i
      invariant forall k :: 0 <= k < i ==> |n[k]| == |params[k]|
      invariant forall k, j :: 0 <= k < i && 0 <= j < |n[k]| ==> n[k][j] == Zeros(|params[k][j]|)
    {
      var layer: seq<seq<real>> := [];
      for j := 0 to |params[i]|
        invariant |layer| == j
        invariant forall m :: 0 <= m < j ==> layer[m] == Zeros(|params[i][m]|)
      {
        layer := layer + [Zeros(|params[i][j]|)];
      }
      n := n + [layer];
    }
  }

  /** The memory NewPerParameterMemory makes for a net fits the net as its parameters do. */
  lemma PerParameterMemoryShaped(inputDim: int, neurons: Layers, params: Parameters, n: Parameters)
    requires Shaped(inputDim, neurons, params)
    requires |n| == |params| && forall i :: 0 <= i < |n| ==> |n[i]| == |params[i]|
    requires forall i, j :: 0 <= i < |n| && 0 <= j < |n[i]| ==> n[i][j] == Zeros(|params[i][j]|)
    ensures Shaped(inputDim, neurons, n)
  {
    forall i, j | 0 <= i < |n| && 0 <= j < |n[i]| && j < |neurons[i]|
      ensures |n[i][j]| == neurons[i][j].NumParameters(InWidth(inputDim, neurons, i))
    {
      assert |n[i][j]| == |params[i][j]|;
    }
  }

  /** newPerNeuronMemory: a zero entry per neuron, layer by layer. */
  method NewPerNeuronMemory(neurons: Layers) returns (sos: seq<seq<real>>)
    ensures |sos| == |neurons|
    ensures forall i :: 0 <= i < |sos| ==> sos[i] == Zeros(|neurons[i]|)
  {
    sos := [];
    for i := 0 to |neurons|
      invariant |sos| == i
      invariant forall k :: 0 <= k < i ==> sos[k] == Zeros(|neurons[k]|)
    {
      sos := sos + [Zeros(|neurons[i]|)];
    }
  }
}

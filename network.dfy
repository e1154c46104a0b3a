/**
 * The forward pass of nnet.go: a network is a sequence of layers of neurons with
 * one parameter vector per neuron. predict runs layer 0 on the real input, the
 * middle layers on two scratch buffers used in turn (ping-pong), and the last
 * layer into the caller's output. A predictor owns its pair of scratch buffers,
 * so that concurrent workers never share them.
 */
module Network {
  import opened Slices
  import opened Neurons

  type Layers = seq<seq<Neuron>>
  type Parameters = seq<seq<seq<real>>>

  /** The width of the vector that layer i reads: the net's input for layer 0, the
      previous layer's output afterwards. */
  function InWidth(inputDim: int, neurons: Layers, i: nat): int
    requires i < |neurons|
  {
    if i == 0 then inputDim else |neurons[i - 1]|
  }

  /** The width of the last layer, which is what predict writes into the output. */
  function LastWidth(neurons: Layers): nat
    requires |neurons| >= 1
  {
    |neurons[|neurons| - 1]|
  }

  /**
   * The topology NewTrainer accepts and the parameters it builds for it: at least one
   * layer, no empty layer, one parameter vector per neuron, and parameters[i][j] of the
   * length neuron j asks for given layer i's input width.
   */
  predicate Shaped(inputDim: int, neurons: Layers, parameters: Parameters) {
    && |neurons| >= 1
    && |parameters| == |neurons|
    && (forall i :: 0 <= i < |neurons| ==> |neurons[i]| >= 1 && |parameters[i]| == |neurons[i]|)
    && (forall i, j :: 0 <= i < |parameters| && 0 <= j < |parameters[i]| && j < |neurons[i]| ==>
          |parameters[i][j]| == neurons[i][j].NumParameters(InWidth(inputDim, neurons, i)))
  }

  /** One layer applied to x: output i is neuron i's activation of its combination. */
  function ApplyLayer(layer: seq<Neuron>, parameters: seq<seq<real>>, x: seq<real>): (y: seq<real>)
    requires |parameters| == |layer|
    requires forall j :: 0 <= j < |parameters| ==> Fits(parameters[j], |x|)
    ensures |y| == |layer|
  {
    seq(|layer|, j requires 0 <= j < |layer| => layer[j].Activate(Combination(parameters[j], x)))
  }

  /** The activations after the first k layers: the left fold of the layer maps over x. */
  function Run(neurons: Layers, parameters: Parameters, x: seq<real>, k: nat): (y: seq<real>)
    requires Shaped(|x|, neurons, parameters) && k <= |neurons|
    ensures |y| == if k == 0 then |x| else |neurons[k - 1]|
    decreases k
  {
    if k == 0 then x
    else
      var prev := Run(neurons, parameters, x, k - 1);
      LayerFits(|x|, neurons, parameters, k - 1);
      ApplyLayer(neurons[k - 1], parameters[k - 1], prev)
  }

  /** What the network computes: layer_{L-1}(... layer_0(x)). */
  function Forward(neurons: Layers, parameters: Parameters, x: seq<real>): (y: seq<real>)
    requires Shaped(|x|, neurons, parameters)
    ensures |y| == LastWidth(neurons)
  {
    Run(neurons, parameters, x, |neurons|)
  }

  /** Each scratch buffer is wide enough for every layer that writes a scratch buffer. */
  predicate ScratchFits(neurons: Layers, buffer: array<real>) {
    forall i :: 0 <= i < |neurons| - 1 ==> |neurons[i]| <= buffer.Length
  }

  /** The parameters of layer i fit its input width. */
  lemma LayerFits(inputDim: int, neurons: Layers, parameters: Parameters, i: nat)
    requires Shaped(inputDim, neurons, parameters) && i < |neurons|
    ensures forall j :: 0 <= j < |parameters[i]| ==> |parameters[i][j]| == InWidth(inputDim, neurons, i) + 1
  {
  }

  /** The widest layer, the size newPredictMemory gives both scratch buffers. */
  function MaxWidth(neurons: Layers): (m: nat)
    requires |neurons| >= 1
    ensures forall i :: 0 <= i < |neurons| ==> |neurons[i]| <= m
    ensures exists i :: 0 <= i < |neurons| && m == |neurons[i]|
  {
    if |neurons| == 1 then |neurons[0]|
    else
      var m := MaxWidth(neurons[..|neurons| - 1]);
      var last := |neurons[|neurons| - 1]|;
      assert forall i :: 0 <= i < |neurons| - 1 ==> neurons[..|neurons| - 1][i] == neurons[i];
      if last > m then last else m
  }

  /**
   * Running the first m layers and then the rest of the net on their result is running
   * the whole net: the forward pass is the composition of its layers.
   */
  lemma {:induction false} ForwardComposes(neurons: Layers, parameters: Parameters, x: seq<real>, m: nat)
    requires Shaped(|x|, neurons, parameters) && 0 < m < |neurons|
    ensures Shaped(|Run(neurons, parameters, x, m)|, neurons[m..], parameters[m..])
    ensures Forward(neurons[m..], parameters[m..], Run(neurons, parameters, x, m)) == Forward(neurons, parameters, x)
  {
    var mid := Run(neurons, parameters, x, m);
    assert forall i :: 0 <= i < |neurons| - m ==>
      InWidth(|mid|, neurons[m..], i) == InWidth(|x|, neurons, m + i);
    assert Shaped(|mid|, neurons[m..], parameters[m..]);
    var k := |neurons| - m;
    assert |neurons[m..]| == k && m + k == |neurons|;
    RunSuffix(neurons, parameters, x, m, k);
    assert Forward(neurons[m..], parameters[m..], mid) == Run(neurons[m..], parameters[m..], mid, k);
  }

  /** The suffix net started on Run(m) is, after k layers, the whole net after m + k layers. */
  lemma {:induction false} RunSuffix(neurons: Layers, parameters: Parameters, x: seq<real>, m: nat, k: nat)
    requires Shaped(|x|, neurons, parameters) && 0 < m < |neurons| && m + k <= |neurons|
    requires Shaped(|Run(neurons, parameters, x, m)|, neurons[m..], parameters[m..])
    ensures Run(neurons[m..], parameters[m..], Run(neurons, parameters, x, m), k) == Run(neurons, parameters, x, m + k)
    decreases k
  {
    if k > 0 {
      var mid := Run(neurons, parameters, x, m);
      RunSuffix(neurons, parameters, x, m, k - 1);
      RunStep(neurons[m..], parameters[m..], mid, k);
      RunStep(neurons, parameters, x, m + k);
      assert neurons[m..][k - 1] == neurons[m + k - 1] && parameters[m..][k - 1] == parameters[m + k - 1];
    }
  }

  /** Run after k layers is layer k - 1 applied to Run after k - 1 layers. */
  lemma RunStep(neurons: Layers, parameters: Parameters, x: seq<real>, k: nat)
    requires Shaped(|x|, neurons, parameters) && 0 < k <= |neurons|
    ensures Run(neurons, parameters, x, k)
         == ApplyLayer(neurons[k - 1], parameters[k - 1], Run(neurons, parameters, x, k - 1))
  {
    LayerFits(|x|, neurons, parameters, k - 1);
  }

  /**
   * processLayer: for each neuron i, output[i] := Activate(Combine(parameters[i], input)).
   * The input slice is input[..inLen]; entries of output past the layer's width are kept.
   */
  method ProcessLayer(input: array<real>, inLen: nat, layer: seq<Neuron>, parameters: seq<seq<real>>,
                      output: array<real>)
    requires inLen <= input.Length && |parameters| == |layer| && |layer| <= output.Length
    requires forall j :: 0 <= j < |parameters| ==> Fits(parameters[j], inLen)
    requires input != output
    modifies output
    ensures output[..|layer|] == ApplyLayer(layer, parameters, input[..inLen])
    ensures output[|layer|..] == old(output[|layer|..])
  {
    ghost var y := ApplyLayer(layer, parameters, input[..inLen]);
    for i := 0 to |layer|
      invariant forall k :: 0 <= k < output.Length ==> output[k] == if k < i then y[k] else old(output[k])
    {
      var combination := layer[i].Combine(parameters[i], input[..inLen]);
      output[i] := layer[i].Activate(combination);
    }
  }

  /** Neither scratch buffer is the input or the output. */
  predicate ScratchApart(prevTmpOutput: array<real>, tmpOutput: array<real>, input: array<real>, output: array<real>) {
    prevTmpOutput != input && prevTmpOutput != output && tmpOutput != input && tmpOutput != output
  }

  /** The scratch buffer that the ping-pong loop writes for layer i (i < L-1): the
      caller's tmpOutput for even i, prevTmpOutput for odd i. */
  function WrittenBy(i: nat, prevTmpOutput: array<real>, tmpOutput: array<real>): array<real> {
    if i % 2 == 0 then tmpOutput else prevTmpOutput
  }

  /**
   * predict: a single-layer net writes straight into output. Otherwise layer 0 reads the
   * input and writes tmpOutput; each middle layer swaps the two scratch slices, reslices
   * the one it writes to its width and reads the other one; the last layer reads the
   * scratch slice written last and writes output.
   */
  method ForwardPass(input: array<real>, neurons: Layers, parameters: Parameters,
                     prevTmpOutput: array<real>, tmpOutput: array<real>, output: array<real>)
    requires Shaped(input.Length, neurons, parameters)
    requires LastWidth(neurons) <= output.Length
    requires ScratchFits(neurons, prevTmpOutput) && ScratchFits(neurons, tmpOutput)
    requires |neurons| >= 3 ==> prevTmpOutput != tmpOutput
    requires |neurons| >= 2 ==> ScratchApart(prevTmpOutput, tmpOutput, input, output)
    requires |neurons| == 1 ==> input != output
    modifies prevTmpOutput, tmpOutput, output
    ensures output[..LastWidth(neurons)] == Forward(neurons, parameters, old(input[..]))
    ensures output[LastWidth(neurons)..] == old(output[LastWidth(neurons)..])
    ensures input != output ==> input[..] == old(input[..])
    ensures |neurons| >= 2 ==>
      WrittenBy(|neurons| - 2, prevTmpOutput, tmpOutput)[..|neurons[|neurons| - 2]|]
        == Run(neurons, parameters, old(input[..]), |neurons| - 1)
  {
    var nLayers := |neurons|;
    ghost var x := input[..];
    assert input[..input.Length] == x;
    if nLayers == 1 {
      LayerFits(|x|, neurons, parameters, 0);
      assert Forward(neurons, parameters, x) == ApplyLayer(neurons[0], parameters[0], x);
      ProcessLayer(input, input.Length, neurons[0], parameters[0], output);
      return;
    }
    LayerFits(|x|, neurons, parameters, 0);
    var prev, prevLen, cur, curLen := prevTmpOutput, prevTmpOutput.Length, tmpOutput, tmpOutput.Length;
    curLen := |neurons[0]|;
    ProcessLayer(input, input.Length, neurons[0], parameters[0], cur);

    var i := 1;
    while i < nLayers - 1
      invariant 1 <= i <= nLayers - 1
      invariant cur == WrittenBy(i - 1, prevTmpOutput, tmpOutput)
      invariant prev == WrittenBy(i, prevTmpOutput, tmpOutput)
      invariant curLen == |neurons[i - 1]| <= cur.Length
      invariant cur[..curLen] == Run(neurons, parameters, x, i)
      invariant output[..] == old(output[..])
      invariant input[..] == x
    {
      prev, prevLen, cur, curLen := cur, curLen, prev, prevLen;
      curLen := |neurons[i]|;
      LayerFits(|x|, neurons, parameters, i);
      ProcessLayer(prev, prevLen, neurons[i], parameters[i], cur);
      i := i + 1;
    }
    LayerFits(|x|, neurons, parameters, nLayers - 1);
    ghost var penultimate := cur[..curLen];
    assert Forward(neurons, parameters, x)
        == ApplyLayer(neurons[nLayers - 1], parameters[nLayers - 1], penultimate);
    ProcessLayer(cur, curLen, neurons[nLayers - 1], parameters[nLayers - 1], output);
    assert cur[..curLen] == penultimate;
    assert cur == WrittenBy(nLayers - 2, prevTmpOutput, tmpOutput) && curLen == |neurons[nLayers - 2]|;
    assert x == old(input[..]);
  }

  /**
   * newPredictMemory: the two scratch buffers, each as long as the widest layer
   * (found by a running maximum), zero-filled.
   */
  method NewPredictMemory(neurons: Layers) returns (prevOutput: array<real>, output: array<real>)
    requires |neurons| >= 1
    ensures fresh(prevOutput) && fresh(output) && prevOutput != output
    ensures prevOutput.Length == MaxWidth(neurons) && output.Length == MaxWidth(neurons)
    ensures prevOutput[..] == Zeros(MaxWidth(neurons)) && output[..] == Zeros(MaxWidth(neurons))
  {
    var max := |neurons[0]|;
    for i := 1 to |neurons|
      invariant max == MaxWidth(neurons[..i])
    {
      assert neurons[..i + 1][..i] == neurons[..i];
      var l := |neurons[i]|;
      if l > max {
        max := l;
      }
    }
    assert neurons[..|neurons|] == neurons;
    prevOutput := new real[max](_ => 0.0);
    output := new real[max](_ => 0.0);
  }

  /** The widest layer bounds every layer, so buffers of that size fit the forward pass. */
  lemma MaxWidthFits(neurons: Layers, buffer: array<real>)
    requires |neurons| >= 1 && buffer.Length == MaxWidth(neurons)
    ensures ScratchFits(neurons, buffer)
  {
  }

  /** predictor: a view of a net's neurons and parameters plus its own scratch buffers. */
  class Predictor {
    const neurons: Layers
    const parameters: Parameters
    const tmpOutput: array<real>
    const prevTmpOutput: array<real>
    const inputDim: int
    const outputDim: int

    /** The scratch buffers are distinct and as wide as the widest layer. */
    ghost predicate Valid() {
      && |neurons| >= 1
      && tmpOutput != prevTmpOutput
      && tmpOutput.Length == MaxWidth(neurons) && prevTmpOutput.Length == MaxWidth(neurons)
    }

    constructor (neurons: Layers, parameters: Parameters, tmpOutput: array<real>, prevTmpOutput: array<real>,
                 inputDim: int, outputDim: int)
      ensures this.neurons == neurons && this.parameters == parameters
      ensures this.tmpOutput == tmpOutput && this.prevTmpOutput == prevTmpOutput
      ensures this.inputDim == inputDim && this.outputDim == outputDim
    {
      this.neurons := neurons;
      this.parameters := parameters;
      this.tmpOutput := tmpOutput;
      this.prevTmpOutput := prevTmpOutput;
      this.inputDim := inputDim;
      this.outputDim := outputDim;
    }

    function InputDim(): int {
      inputDim
    }

    function OutputDim(): int {
      outputDim
    }

    /** Predict: runs predict on the predictor's own scratch buffers and returns output;
        the error result is always nil. */
    method Predict(input: array<real>, output: array<real>) returns (result: array<real>)
      requires Valid() && Shaped(input.Length, neurons, parameters)
      requires LastWidth(neurons) <= output.Length
      requires ScratchApart(prevTmpOutput, tmpOutput, input, output)
      requires |neurons| == 1 ==> input != output
      modifies prevTmpOutput, tmpOutput, output
      ensures result == output
      ensures output[..LastWidth(neurons)] == Forward(neurons, parameters, old(input[..]))
      ensures output[LastWidth(neurons)..] == old(output[LastWidth(neurons)..])
      ensures input != output ==> input[..] == old(input[..])
    {
      MaxWidthFits(neurons, prevTmpOutput);
      MaxWidthFits(neurons, tmpOutput);
      ForwardPass(input, neurons, parameters, prevTmpOutput, tmpOutput, output);
      result := output;
    }
  }

  /** batchPredictor: what BatchPredict needs to make one predictor per worker. */
  datatype BatchPredictor = BatchPredictor(neurons: Layers, parameters: Parameters, inputDim: int, outputDim: int) {

    /** NewPredictor: fresh scratch memory bound to the shared neurons and parameters. */
    method NewPredictor() returns (p: Predictor)
      requires |neurons| >= 1
      ensures fresh(p) && fresh(p.tmpOutput) && fresh(p.prevTmpOutput) && p.Valid()
      ensures p.neurons == neurons && p.parameters == parameters
      ensures p.inputDim == inputDim && p.outputDim == outputDim
    {
      var prevOutput, tmpOutput := NewPredictMemory(neurons);
      p := new Predictor(neurons, parameters, tmpOutput, prevOutput, inputDim, outputDim);
    }
  }
}

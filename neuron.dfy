/**
 * The computational unit of neuron.go: a SumNeuron combines its inputs into a
 * weighted sum plus a bias (the last parameter) and pipes the sum through an
 * activation function. Activation functions are supplied: an Activator is the
 * pair of functions (activation, derivative of the activation with respect to
 * the sum, given the sum and the output) that Go's Activator interface names.
 */
module Neurons {

  /** The two methods of Go's Activator interface, as supplied functions. */
  datatype Activator = Activator(activate: real -> real, derivative: (real, real) -> real)

  /** The identity activator `Linear` of activator.go: out = sum, derivative 1. */
  const Linear: Activator := Activator(sum => sum, (sum, output) => 1.0)

  /** The parameters fit a combination of the given number of inputs: Combine reads
      parameters[i] for every input and parameters[len-1] as the bias. */
  predicate Fits(parameters: seq<real>, nInputs: int) {
    0 <= nInputs <= |parameters| && 1 <= |parameters|
  }

  /** A vector of NumParameters(nInputs) entries is exactly what Combine needs for nInputs
      inputs: it fits whenever there are no fewer than zero inputs. */
  lemma NumParametersFit(neuron: Neuron, parameters: seq<real>, nInputs: int)
    requires |parameters| == neuron.NumParameters(nInputs)
    ensures Fits(parameters, nInputs) <==> nInputs >= 0
  {
  }

  /** The left-to-right accumulation of w[i] * x[i] over the inputs x. */
  function WeightedSum(w: seq<real>, x: seq<real>): real
    requires |x| <= |w|
    decreases |x|
  {
    if |x| == 0 then 0.0 else WeightedSum(w, x[..|x| - 1]) + w[|x| - 1] * x[|x| - 1]
  }

  /** The value SumNeuron.Combine computes: the weighted sum of the inputs plus the bias. */
  function Combination(parameters: seq<real>, inputs: seq<real>): real
    requires Fits(parameters, |inputs|)
  {
    WeightedSum(parameters, inputs) + parameters[|parameters| - 1]
  }

  /** SumNeuron, the only implementation of Go's Neuron interface. */
  datatype Neuron = SumNeuron(activator: Activator) {

    /** NumParameters: one weight per input plus the bias. */
    function NumParameters(nInputs: int): int {
      nInputs + 1
    }

    /** Activate comes from the embedded activator; the linear one passes the sum through. */
    function Activate(combination: real): (out: real)
      ensures activator == Linear ==> out == combination
    {
      activator.activate(combination)
    }

    /** DActivateDCombination comes from the embedded activator; the linear one has slope 1. */
    function DActivateDCombination(combination: real, output: real): (d: real)
      ensures activator == Linear ==> d == 1.0
    {
      activator.derivative(combination, output)
    }

    /** Combine: accumulate parameters[i] * inputs[i] in input order, then add the bias. */
    method Combine(parameters: seq<real>, inputs: seq<real>) returns (combination: real)
      requires Fits(parameters, |inputs|)
      ensures combination == Combination(parameters, inputs)
    {
      combination := 0.0;
      for i := 0 to |inputs|
        invariant combination == WeightedSum(parameters, inputs[..i])
      {
        assert inputs[..i + 1][..i] == inputs[..i];
        combination := combination + parameters[i] * inputs[i];
      }
      assert inputs[..|inputs|] == inputs;
      combination := combination + parameters[|parameters| - 1];
    }

    /** DCombineDParameters: deriv[i] := inputs[i] for every input, then the last entry
        (the bias's) := 1. Neither params nor combination is read. */
    method DCombineDParameters(params: seq<real>, inputs: seq<real>, combination: real, deriv: array<real>)
      requires |inputs| <= deriv.Length && 1 <= deriv.Length
      modifies deriv
      ensures deriv[deriv.Length - 1] == 1.0
      ensures forall i :: 0 <= i < deriv.Length - 1 ==>
        deriv[i] == if i < |inputs| then inputs[i] else old(deriv[i])
    {
      for i := 0 to |inputs|
        invariant forall k :: 0 <= k < deriv.Length ==> deriv[k] == if k < i then inputs[k] else old(deriv[k])
      {
        deriv[i] := inputs[i];
      }
      deriv[deriv.Length - 1] := 1.0;
    }

    /** DCombineDInput: deriv[i] := params[i] for every input; the bias is deliberately
        not copied, and combination is not read. */
    method DCombineDInput(params: seq<real>, inputs: seq<real>, combination: real, deriv: array<real>)
      requires |inputs| <= deriv.Length && |inputs| <= |params|
      modifies deriv
      ensures forall i :: 0 <= i < deriv.Length ==>
        deriv[i] == if i < |inputs| then params[i] else old(deriv[i])
    {
      for i := 0 to |inputs|
        invariant forall k :: 0 <= k < deriv.Length ==> deriv[k] == if k < i then params[k] else old(deriv[k])
      {
        deriv[i] := params[i];
      }
    }
  }

  /** Only the first |x| weights take part in the weighted sum. */
  lemma {:induction false} WeightedSumPrefix(w: seq<real>, x: seq<real>, n: nat)
    requires |x| <= n <= |w|
    ensures WeightedSum(w[..n], x) == WeightedSum(w, x)
    decreases |x|
  {
    if |x| > 0 {
      WeightedSumPrefix(w, x[..|x| - 1], n);
    }
  }

  /** The weighted sum is symmetric in weights and inputs of equal length. */
  lemma {:induction false} WeightedSumSymmetric(w: seq<real>, x: seq<real>)
    requires |w| == |x|
    ensures WeightedSum(w, x) == WeightedSum(x, w)
    decreases |x|
  {
    if |x| > 0 {
      var n := |x| - 1;
      WeightedSumPrefix(w, x[..n], n);
      WeightedSumPrefix(x, w[..n], n);
      WeightedSumSymmetric(w[..n], x[..n]);
    }
  }

  /**
   * The combination is linear in the parameters, with exactly the coefficients that
   * DCombineDParameters writes into a derivative of length len(inputs)+1: the inputs,
   * then 1 for the bias.
   */
  lemma CombinationParameterGradient(parameters: seq<real>, inputs: seq<real>)
    requires |parameters| == |inputs| + 1
    ensures Combination(parameters, inputs) == WeightedSum(inputs + [1.0], parameters)
  {
    var n := |inputs|;
    var g := inputs + [1.0];
    assert parameters[..n + 1] == parameters;
    assert parameters[..n + 1][..n] == parameters[..n];
    WeightedSumPrefix(g, parameters[..n], n);
    assert g[..n] == inputs;
    WeightedSumSymmetric(inputs, parameters[..n]);
    WeightedSumPrefix(parameters, inputs, n);
  }

  /**
   * The combination is affine in the inputs, with exactly the coefficients that
   * DCombineDInput writes: the first len(inputs) parameters, the bias being the
   * constant term.
   */
  lemma CombinationInputGradient(parameters: seq<real>, inputs: seq<real>)
    requires Fits(parameters, |inputs|)
    ensures Combination(parameters, inputs)
         == WeightedSum(parameters[..|inputs|], inputs) + parameters[|parameters| - 1]
  {
    WeightedSumPrefix(parameters, inputs, |inputs|);
  }
}

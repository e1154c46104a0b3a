/**
 * BatchPredict of batchpredict.go: checks the shapes of an input and an output
 * matrix, allocates the output when none is given, picks how rows reach the
 * predictor (a row view into the matrix, or a copy through a temporary buffer)
 * from whether each matrix can hand out row views, and runs one predictor per
 * chunk of rows that ParallelFor hands out.
 *
 * Both matrices are SosMatrix values; whether a matrix can hand out row views is
 * a flag, standing for the dynamic type check of the Go code.
 */
module Batch {
  import opened Options
  import opened Slices
  import opened Sos
  import opened ParFor
  import opened Network

  datatype BatchError = InputDimMismatch | OutputDimMismatch | RowsMismatch

  /** The four row loops of the dispatcher. */
  datatype Strategy =
    | BothViews    // read and write the rows in place
    | InputView    // read the input row in place, copy the output row through a buffer
    | OutputView   // copy the input row into a buffer, write the output row in place
    | CopyBoth     // copy both rows through buffers

  predicate ReadsInputView(s: Strategy) {
    s == BothViews || s == InputView
  }

  predicate WritesOutputView(s: Strategy) {
    s == BothViews || s == OutputView
  }

  /**
   * The switch as written: its first case lists both flags, which Go reads as
   * "either flag", so the two mixed cases and the default are never reached.
   * None stands for the default's panic.
   */
  function SelectAsWritten(inputIsRowViewer: bool, outputIsRowViewer: bool): (r: Option<Strategy>)
    ensures r.Some?
    ensures r.value == BothViews || r.value == CopyBoth
  {
    if inputIsRowViewer || outputIsRowViewer then Some(BothViews)
    else if inputIsRowViewer && !outputIsRowViewer then Some(InputView)
    else if !inputIsRowViewer && outputIsRowViewer then Some(OutputView)
    else if !inputIsRowViewer && !outputIsRowViewer then Some(CopyBoth)
    else None
  }

  /** The switch as intended: a row view is used exactly on the sides that have one. */
  function Select(inputIsRowViewer: bool, outputIsRowViewer: bool): (s: Strategy)
    ensures ReadsInputView(s) <==> inputIsRowViewer
    ensures WritesOutputView(s) <==> outputIsRowViewer
  {
    if inputIsRowViewer && outputIsRowViewer then BothViews
    else if inputIsRowViewer then InputView
    else if outputIsRowViewer then OutputView
    else CopyBoth
  }

  /** A strategy that asks a matrix without row views for one: the nil interface
      whose RowView call panics. */
  predicate ViewsMissingSide(s: Strategy, inputIsRowViewer: bool, outputIsRowViewer: bool) {
    (ReadsInputView(s) && !inputIsRowViewer) || (WritesOutputView(s) && !outputIsRowViewer)
  }

  /** As written only BothViews and CopyBoth are ever chosen and the default is unreachable. */
  lemma AsWrittenReachable(inputIsRowViewer: bool, outputIsRowViewer: bool)
    ensures SelectAsWritten(inputIsRowViewer, outputIsRowViewer) == Some(BothViews)
        <==> inputIsRowViewer || outputIsRowViewer
    ensures SelectAsWritten(inputIsRowViewer, outputIsRowViewer) == Some(CopyBoth)
        <==> !inputIsRowViewer && !outputIsRowViewer
  {
  }

  /** As written, a matrix pair where exactly one side has row views gets the view loop
      on both sides, so it calls RowView on the side that has none. */
  lemma AsWrittenMixedViewsMissingSide(inputIsRowViewer: bool, outputIsRowViewer: bool)
    requires inputIsRowViewer != outputIsRowViewer
    ensures SelectAsWritten(inputIsRowViewer, outputIsRowViewer).Some?
    ensures ViewsMissingSide(SelectAsWritten(inputIsRowViewer, outputIsRowViewer).value,
                             inputIsRowViewer, outputIsRowViewer)
  {
  }

  /** The intended switch agrees with the written one when the flags agree, and never
      asks a matrix for a view it does not have. */
  lemma SelectAgreesWhenFlagsAgree(inputIsRowViewer: bool, outputIsRowViewer: bool)
    ensures inputIsRowViewer == outputIsRowViewer ==>
      SelectAsWritten(inputIsRowViewer, outputIsRowViewer) == Some(Select(inputIsRowViewer, outputIsRowViewer))
    ensures !ViewsMissingSide(Select(inputIsRowViewer, outputIsRowViewer), inputIsRowViewer, outputIsRowViewer)
  {
  }

  /** An output row after the predictor ran on input row x: the net's output in front,
      the rest of the row as it was. */
  function PredictedRow(neurons: Layers, parameters: Parameters, x: seq<real>, before: seq<real>): (y: seq<real>)
    requires Shaped(|x|, neurons, parameters) && LastWidth(neurons) <= |before|
    ensures |y| == |before|
    ensures y[..LastWidth(neurons)] == Forward(neurons, parameters, x)
    ensures y[LastWidth(neurons)..] == before[LastWidth(neurons)..]
  {
    Forward(neurons, parameters, x) + before[LastWidth(neurons)..]
  }

  /** A row whose prefix is the net's output and whose rest is kept is the predicted row. */
  lemma RowPredicted(batch: BatchPredictor, x: seq<real>, before: seq<real>, after: seq<real>)
    requires Shaped(|x|, batch.neurons, batch.parameters) && LastWidth(batch.neurons) <= |before| == |after|
    requires after[..LastWidth(batch.neurons)] == Forward(batch.neurons, batch.parameters, x)
    requires after[LastWidth(batch.neurons)..] == before[LastWidth(batch.neurons)..]
    ensures after == PredictedRow(batch.neurons, batch.parameters, x, before)
  {
    assert after == after[..LastWidth(batch.neurons)] + after[LastWidth(batch.neurons)..];
  }

  /** No input row buffer is an output row buffer. */
  predicate RowsApart(inputs: SosMatrix, outputs: SosMatrix) {
    forall a, b :: 0 <= a < |inputs.rows| && 0 <= b < |outputs.rows| ==> inputs.rows[a] != outputs.rows[b]
  }

  /** The shapes the row loops run on: the dimension checks passed, and the net
      fits inputDim and outputDim. */
  predicate Ready(batch: BatchPredictor, inputs: SosMatrix, outputs: SosMatrix, inputDim: int, outputDim: int) {
    && inputs.Valid() && outputs.Valid()
    && |inputs.rows| >= 1 && |outputs.rows| == |inputs.rows|
    && inputs.rows[0].Length == inputDim && outputs.rows[0].Length == outputDim
    && Shaped(inputDim, batch.neurons, batch.parameters)
    && LastWidth(batch.neurons) <= outputDim
    && RowsApart(inputs, outputs)
  }

  /** Row lists the row loops can run on: every input row inputDim wide for a net shaped
      for inputDim, every output row wide enough for the last layer. */
  predicate RowsFit(batch: BatchPredictor, inputDim: int, ins: seq<seq<real>>, outs: seq<seq<real>>) {
    && Shaped(inputDim, batch.neurons, batch.parameters)
    && |ins| == |outs|
    && (forall r :: 0 <= r < |ins| ==> |ins[r]| == inputDim)
    && (forall r :: 0 <= r < |outs| ==> LastWidth(batch.neurons) <= |outs[r]|)
  }

  /** The output rows after rows [start, end) were predicted from the input rows. */
  function PredictRows(batch: BatchPredictor, inputDim: int, ins: seq<seq<real>>, outs: seq<seq<real>>,
                       start: int, end: int): (ys: seq<seq<real>>)
    requires RowsFit(batch, inputDim, ins, outs)
    ensures |ys| == |outs|
    ensures forall r :: 0 <= r < |outs| ==>
      ys[r] == if start <= r < end then PredictedRow(batch.neurons, batch.parameters, ins[r], outs[r]) else outs[r]
  {
    seq(|outs|, r requires 0 <= r < |outs| =>
      if start <= r < end then PredictedRow(batch.neurons, batch.parameters, ins[r], outs[r]) else outs[r])
  }

  /** Predicting a row keeps its width, so the predicted rows fit again. */
  lemma PredictRowsFit(batch: BatchPredictor, inputDim: int, ins: seq<seq<real>>, outs: seq<seq<real>>,
                       start: int, end: int)
    requires RowsFit(batch, inputDim, ins, outs)
    ensures RowsFit(batch, inputDim, ins, PredictRows(batch, inputDim, ins, outs, start, end))
  {
    var ys := PredictRows(batch, inputDim, ins, outs, start, end);
    assert forall r :: 0 <= r < |ys| ==> |ys[r]| == |outs[r]|;
  }

  /** Predicting row i next extends the predicted range [start, i) by one. */
  lemma PredictRowsStep(batch: BatchPredictor, inputDim: int, ins: seq<seq<real>>, outs: seq<seq<real>>,
                        start: int, i: int)
    requires RowsFit(batch, inputDim, ins, outs) && 0 <= start <= i < |outs|
    ensures PredictRows(batch, inputDim, ins, outs, start, i)[i := PredictedRow(batch.neurons, batch.parameters, ins[i], outs[i])]
         == PredictRows(batch, inputDim, ins, outs, start, i + 1)
  {
  }

  /** Predicting [a, b) and then [b, c) is predicting [a, c): the chunks compose. */
  lemma PredictRowsCompose(batch: BatchPredictor, inputDim: int, ins: seq<seq<real>>, outs: seq<seq<real>>,
                           a: int, b: int, c: int)
    requires RowsFit(batch, inputDim, ins, outs) && a <= b <= c
    ensures RowsFit(batch, inputDim, ins, PredictRows(batch, inputDim, ins, outs, a, b))
    ensures PredictRows(batch, inputDim, ins, PredictRows(batch, inputDim, ins, outs, a, b), b, c)
         == PredictRows(batch, inputDim, ins, outs, a, c)
  {
    PredictRowsFit(batch, inputDim, ins, outs, a, b);
  }

  /** The dimension checks passing make the matrices' contents fit. */
  lemma ReadyFits(batch: BatchPredictor, inputs: SosMatrix, outputs: SosMatrix, inputDim: int, outputDim: int)
    requires Ready(batch, inputs, outputs, inputDim, outputDim)
    ensures RowsFit(batch, inputDim, inputs.Contents(), outputs.Contents())
  {
  }

  /** Row i of outputs now holds the prediction for row i of inputs; other output rows and
      all input rows are as before. */
  twostate predicate RowDone(batch: BatchPredictor, inputs: SosMatrix, outputs: SosMatrix,
                             inputDim: int, outputDim: int, i: int)
    requires Ready(batch, inputs, outputs, inputDim, outputDim) && 0 <= i < |outputs.rows|
    reads outputs.Repr(), inputs.Repr()
  {
    && outputs.Contents() == old(outputs.Contents())[i :=
         PredictedRow(batch.neurons, batch.parameters, old(inputs.rows[i][..]), old(outputs.rows[i][..]))]
    && inputs.Contents() == old(inputs.Contents())
  }

  /** The predictor's scratch buffers are none of the matrices' rows. */
  ghost predicate PredictorApart(p: Predictor, inputs: SosMatrix, outputs: SosMatrix) {
    && p.Valid()
    && p.tmpOutput !in inputs.rows && p.prevTmpOutput !in inputs.rows
    && p.tmpOutput !in outputs.rows && p.prevTmpOutput !in outputs.rows
  }

  /** A temporary row buffer of the copy loops: none of the rows and neither scratch buffer. */
  ghost predicate BufferApart(buffer: array<real>, p: Predictor, inputs: SosMatrix, outputs: SosMatrix) {
    && buffer !in inputs.rows && buffer !in outputs.rows
    && buffer != p.tmpOutput && buffer != p.prevTmpOutput
  }

  /** Predicts row i into the output row in place from a buffer holding input row i
      (the input row itself or a copy of it). */
  method PredictToView(p: Predictor, batch: BatchPredictor, inputs: SosMatrix, outputs: SosMatrix,
                       inputDim: int, outputDim: int, i: int, input: array<real>)
    requires Ready(batch, inputs, outputs, inputDim, outputDim) && 0 <= i < |inputs.rows|
    requires PredictorApart(p, inputs, outputs)
    requires p.neurons == batch.neurons && p.parameters == batch.parameters
    requires input.Length == inputDim && input[..] == inputs.rows[i][..]
    requires input !in outputs.rows && input != p.tmpOutput && input != p.prevTmpOutput
    modifies outputs.rows[i], p.tmpOutput, p.prevTmpOutput
    ensures RowDone(batch, inputs, outputs, inputDim, outputDim, i)
  {
    ghost var before := outputs.rows[i][..];
    var output := outputs.RowView(i);
    var _ := p.Predict(input, output);
    RowPredicted(batch, old(input[..]), before, output[..]);
  }

  /** Predicts row i into the output buffer, which holds output row i, and copies the
      buffer back: p.Predict(input, output), then outputs.SetRow(i, output). */
  method PredictAndStore(p: Predictor, batch: BatchPredictor, inputs: SosMatrix, outputs: SosMatrix,
                         inputDim: int, outputDim: int, i: int, input: array<real>, output: array<real>)
    requires Ready(batch, inputs, outputs, inputDim, outputDim) && 0 <= i < |inputs.rows|
    requires PredictorApart(p, inputs, outputs)
    requires p.neurons == batch.neurons && p.parameters == batch.parameters
    requires input.Length == inputDim && input[..] == inputs.rows[i][..]
    requires input !in outputs.rows && input != p.tmpOutput && input != p.prevTmpOutput
    requires output.Length == outputDim && BufferApart(output, p, inputs, outputs) && input != output
    requires output[..] == outputs.rows[i][..]
    modifies outputs.rows[i], p.tmpOutput, p.prevTmpOutput, output
    ensures RowDone(batch, inputs, outputs, inputDim, outputDim, i)
  {
    var _ := p.Predict(input, output);
    RowPredicted(batch, old(input[..]), old(output[..]), output[..]);
    var _ := outputs.SetRow(i, output[..]);
    CopyWhole(old(outputs.rows[i][..]), output[..]);
    ContentsAfterRowWrite(outputs, old(outputs.Contents()), i);
  }

  /** Predicts row i through the output buffer: outputs.Row(output, i), then
      PredictAndStore. */
  method PredictThroughBuffer(p: Predictor, batch: BatchPredictor, inputs: SosMatrix, outputs: SosMatrix,
                              inputDim: int, outputDim: int, i: int, input: array<real>, output: array<real>)
    requires Ready(batch, inputs, outputs, inputDim, outputDim) && 0 <= i < |inputs.rows|
    requires PredictorApart(p, inputs, outputs)
    requires p.neurons == batch.neurons && p.parameters == batch.parameters
    requires input.Length == inputDim && input[..] == inputs.rows[i][..]
    requires input !in outputs.rows && input != p.tmpOutput && input != p.prevTmpOutput
    requires output.Length == outputDim && BufferApart(output, p, inputs, outputs) && input != output
    modifies outputs.rows[i], p.tmpOutput, p.prevTmpOutput, output
    ensures RowDone(batch, inputs, outputs, inputDim, outputDim, i)
  {
    ghost var ins, outs := inputs.Contents(), outputs.Contents();
    var _ := outputs.Row(output, i);
    assert output[..] == output[..outputDim];
    assert inputs.Contents() == ins && outputs.Contents() == outs;
    PredictAndStore(p, batch, inputs, outputs, inputDim, outputDim, i, input, output);
    assert outputs.Contents() == outs[i := PredictedRow(batch.neurons, batch.parameters, ins[i], outs[i])];
  }

  /** One row of the row-view loop: p.Predict(inputs.RowView(i), outputs.RowView(i)). */
  method RowBothViews(p: Predictor, batch: BatchPredictor, inputs: SosMatrix, outputs: SosMatrix,
                      inputDim: int, outputDim: int, i: int)
    requires Ready(batch, inputs, outputs, inputDim, outputDim) && 0 <= i < |inputs.rows|
    requires PredictorApart(p, inputs, outputs)
    requires p.neurons == batch.neurons && p.parameters == batch.parameters
    modifies outputs.rows[i], p.tmpOutput, p.prevTmpOutput
    ensures RowDone(batch, inputs, outputs, inputDim, outputDim, i)
  {
    PredictToView(p, batch, inputs, outputs, inputDim, outputDim, i, inputs.RowView(i));
  }

  /** One row of the input-view loop: the input row view, the output through a buffer. */
  method RowInputView(p: Predictor, batch: BatchPredictor, inputs: SosMatrix, outputs: SosMatrix,
                      inputDim: int, outputDim: int, i: int, output: array<real>)
    requires Ready(batch, inputs, outputs, inputDim, outputDim) && 0 <= i < |inputs.rows|
    requires PredictorApart(p, inputs, outputs)
    requires p.neurons == batch.neurons && p.parameters == batch.parameters
    requires output.Length == outputDim && BufferApart(output, p, inputs, outputs)
    modifies outputs.rows[i], p.tmpOutput, p.prevTmpOutput, output
    ensures RowDone(batch, inputs, outputs, inputDim, outputDim, i)
  {
    PredictThroughBuffer(p, batch, inputs, outputs, inputDim, outputDim, i, inputs.RowView(i), output);
  }

  /** One row of the output-view loop: inputs.Row(input, i), then the output row view. */
  method RowOutputView(p: Predictor, batch: BatchPredictor, inputs: SosMatrix, outputs: SosMatrix,
                       inputDim: int, outputDim: int, i: int, input: array<real>)
    requires Ready(batch, inputs, outputs, inputDim, outputDim) && 0 <= i < |inputs.rows|
    requires PredictorApart(p, inputs, outputs)
    requires p.neurons == batch.neurons && p.parameters == batch.parameters
    requires input.Length == inputDim && BufferApart(input, p, inputs, outputs)
    modifies outputs.rows[i], p.tmpOutput, p.prevTmpOutput, input
    ensures RowDone(batch, inputs, outputs, inputDim, outputDim, i)
  {
    var _ := inputs.Row(input, i);
    assert input[..] == input[..inputDim];
    PredictToView(p, batch, inputs, outputs, inputDim, outputDim, i, input);
  }

  /** One row of the copy loop: inputs.Row(input, i), then the output through a buffer. */
  method RowCopyBoth(p: Predictor, batch: BatchPredictor, inputs: SosMatrix, outputs: SosMatrix,
                     inputDim: int, outputDim: int, i: int, input: array<real>, output: array<real>)
    requires Ready(batch, inputs, outputs, inputDim, outputDim) && 0 <= i < |inputs.rows|
    requires PredictorApart(p, inputs, outputs)
    requires p.neurons == batch.neurons && p.parameters == batch.parameters
    requires input.Length == inputDim && BufferApart(input, p, inputs, outputs)
    requires output.Length == outputDim && BufferApart(output, p, inputs, outputs)
    requires input != output
    modifies outputs.rows[i], p.tmpOutput, p.prevTmpOutput, input, output
    ensures RowDone(batch, inputs, outputs, inputDim, outputDim, i)
  {
    var _ := inputs.Row(input, i);
    assert input[..] == input[..inputDim];
    PredictThroughBuffer(p, batch, inputs, outputs, inputDim, outputDim, i, input, output);
  }

  /** The row-view loop: each row is predicted straight from the input row into the
      output row, with one predictor for the chunk. */
  method ChunkBothViews(batch: BatchPredictor, inputs: SosMatrix, outputs: SosMatrix,
                        inputDim: int, outputDim: int, start: int, end: int,
                        ghost ins: seq<seq<real>>, ghost outs: seq<seq<real>>)
    requires Ready(batch, inputs, outputs, inputDim, outputDim)
    requires 0 <= start <= end <= |inputs.rows|
    requires inputs.Contents() == ins && outputs.Contents() == outs && RowsFit(batch, inputDim, ins, outs)
    modifies outputs.Repr()
    ensures inputs.Contents() == ins
    ensures outputs.Contents() == PredictRows(batch, inputDim, ins, outs, start, end)
  {
    var p := batch.NewPredictor();
    for i := start to end
      invariant inputs.Contents() == ins
      invariant outputs.Contents() == PredictRows(batch, inputDim, ins, outs, start, i)
      invariant PredictorApart(p, inputs, outputs)
    {
      RowBothViews(p, batch, inputs, outputs, inputDim, outputDim, i);
      PredictRowsStep(batch, inputDim, ins, outs, start, i);
    }
  }

  /** The input-view loop: one predictor and one output buffer for the chunk. */
  method ChunkInputView(batch: BatchPredictor, inputs: SosMatrix, outputs: SosMatrix,
                        inputDim: int, outputDim: int, start: int, end: int,
                        ghost ins: seq<seq<real>>, ghost outs: seq<seq<real>>)
    requires Ready(batch, inputs, outputs, inputDim, outputDim)
    requires 0 <= start <= end <= |inputs.rows|
    requires inputs.Contents() == ins && outputs.Contents() == outs && RowsFit(batch, inputDim, ins, outs)
    modifies outputs.Repr()
    ensures inputs.Contents() == ins
    ensures outputs.Contents() == PredictRows(batch, inputDim, ins, outs, start, end)
  {
    var p := batch.NewPredictor();
    var output := new real[outputDim](_ => 0.0);
    for i := start to end
      invariant inputs.Contents() == ins
      invariant outputs.Contents() == PredictRows(batch, inputDim, ins, outs, start, i)
      invariant PredictorApart(p, inputs, outputs) && BufferApart(output, p, inputs, outputs)
    {
      RowInputView(p, batch, inputs, outputs, inputDim, outputDim, i, output);
      PredictRowsStep(batch, inputDim, ins, outs, start, i);
    }
  }

  /** The output-view loop: one predictor and one input buffer for the chunk. */
  method ChunkOutputView(batch: BatchPredictor, inputs: SosMatrix, outputs: SosMatrix,
                         inputDim: int, outputDim: int, start: int, end: int,
                        ghost ins: seq<seq<real>>, ghost outs: seq<seq<real>>)
    requires Ready(batch, inputs, outputs, inputDim, outputDim)
    requires 0 <= start <= end <= |inputs.rows|
    requires inputs.Contents() == ins && outputs.Contents() == outs && RowsFit(batch, inputDim, ins, outs)
    modifies outputs.Repr()
    ensures inputs.Contents() == ins
    ensures outputs.Contents() == PredictRows(batch, inputDim, ins, outs, start, end)
  {
    var p := batch.NewPredictor();
    var input := new real[inputDim](_ => 0.0);
    for i := start to end
      invariant inputs.Contents() == ins
      invariant outputs.Contents() == PredictRows(batch, inputDim, ins, outs, start, i)
      invariant PredictorApart(p, inputs, outputs) && BufferApart(input, p, inputs, outputs)
    {
      RowOutputView(p, batch, inputs, outputs, inputDim, outputDim, i, input);
      PredictRowsStep(batch, inputDim, ins, outs, start, i);
    }
  }

  /** The copy loop: one predictor, one input buffer and one output buffer for the chunk. */
  method ChunkCopyBoth(batch: BatchPredictor, inputs: SosMatrix, outputs: SosMatrix,
                       inputDim: int, outputDim: int, start: int, end: int,
                       ghost ins: seq<seq<real>>, ghost outs: seq<seq<real>>)
    requires Ready(batch, inputs, outputs, inputDim, outputDim)
    requires 0 <= start <= end <= |inputs.rows|
    requires inputs.Contents() == ins && outputs.Contents() == outs && RowsFit(batch, inputDim, ins, outs)
    modifies outputs.Repr()
    ensures inputs.Contents() == ins
    ensures outputs.Contents() == PredictRows(batch, inputDim, ins, outs, start, end)
  {
    var p := batch.NewPredictor();
    var input := new real[inputDim](_ => 0.0);
    var output := new real[outputDim](_ => 0.0);
    for i := start to end
      invariant inputs.Contents() == ins
      invariant outputs.Contents() == PredictRows(batch, inputDim, ins, outs, start, i)
      invariant PredictorApart(p, inputs, outputs)
      invariant BufferApart(input, p, inputs, outputs) && BufferApart(output, p, inputs, outputs) && input != output
    {
      RowCopyBoth(p, batch, inputs, outputs, inputDim, outputDim, i, input, output);
      PredictRowsStep(batch, inputDim, ins, outs, start, i);
    }
  }

  /** f(start, end) for the chosen strategy. */
  method Chunk(strategy: Strategy, batch: BatchPredictor, inputs: SosMatrix, outputs: SosMatrix,
               inputDim: int, outputDim: int, start: int, end: int,
               ghost ins: seq<seq<real>>, ghost outs: seq<seq<real>>)
    requires Ready(batch, inputs, outputs, inputDim, outputDim)
    requires 0 <= start <= end <= |inputs.rows|
    requires inputs.Contents() == ins && outputs.Contents() == outs && RowsFit(batch, inputDim, ins, outs)
    modifies outputs.Repr()
    ensures inputs.Contents() == ins
    ensures outputs.Contents() == PredictRows(batch, inputDim, ins, outs, start, end)
  {
    match strategy {
      case BothViews => ChunkBothViews(batch, inputs, outputs, inputDim, outputDim, start, end, ins, outs);
      case InputView => ChunkInputView(batch, inputs, outputs, inputDim, outputDim, start, end, ins, outs);
      case OutputView => ChunkOutputView(batch, inputs, outputs, inputDim, outputDim, start, end, ins, outs);
      case CopyBoth => ChunkCopyBoth(batch, inputs, outputs, inputDim, outputDim, start, end, ins, outs);
    }
  }

  /** f run on each call of a list that tiles the rows, in order. */
  method RunCalls(strategy: Strategy, batch: BatchPredictor, inputs: SosMatrix, outputs: SosMatrix,
                  inputDim: int, outputDim: int, calls: seq<(int, int)>,
                  ghost ins: seq<seq<real>>, ghost outs: seq<seq<real>>)
    requires Ready(batch, inputs, outputs, inputDim, outputDim) && Tiles(calls, |inputs.rows|)
    requires inputs.Contents() == ins && outputs.Contents() == outs && RowsFit(batch, inputDim, ins, outs)
    modifies outputs.Repr()
    ensures inputs.Contents() == ins
    ensures outputs.Contents() == PredictRows(batch, inputDim, ins, outs, 0, |inputs.rows|)
  {
    ghost var done := 0;
    for k := 0 to |calls|
      invariant done == if k == 0 then 0 else calls[k - 1].1
      invariant 0 <= done <= |inputs.rows|
      invariant inputs.Contents() == ins
      invariant outputs.Contents() == PredictRows(batch, inputDim, ins, outs, 0, done)
    {
      TilesCall(calls, |inputs.rows|, k);
      var start, end := calls[k].0, calls[k].1;
      assert start == done;
      ghost var prev := PredictRows(batch, inputDim, ins, outs, 0, done);
      PredictRowsCompose(batch, inputDim, ins, outs, 0, done, end);
      Chunk(strategy, batch, inputs, outputs, inputDim, outputDim, start, end, ins, prev);
      assert outputs.Contents() == PredictRows(batch, inputDim, ins, prev, done, end);
      done := end;
    }
  }

  /** ParallelFor(nSamples, grainSize, f): f runs on every call ParallelFor hands out, and
      together the calls predict every row. */
  method RunChunks(strategy: Strategy, batch: BatchPredictor, inputs: SosMatrix, outputs: SosMatrix,
                   inputDim: int, outputDim: int, grainSize: int)
    requires Ready(batch, inputs, outputs, inputDim, outputDim) && grainSize >= 1
    modifies outputs.Repr()
    ensures RowsFit(batch, inputDim, old(inputs.Contents()), old(outputs.Contents()))
    ensures inputs.Contents() == old(inputs.Contents())
    ensures outputs.Contents()
         == PredictRows(batch, inputDim, old(inputs.Contents()), old(outputs.Contents()), 0, |inputs.rows|)
  {
    ReadyFits(batch, inputs, outputs, inputDim, outputDim);
    var calls := ParallelFor(|inputs.rows|, grainSize);
    ChunksTile(|inputs.rows|, grainSize);
    RunCalls(strategy, batch, inputs, outputs, inputDim, outputDim, calls, inputs.Contents(), outputs.Contents());
  }

  /** The output matrix BatchPredict makes when none is given: nSamples fresh rows of
      outputDim zeros. */
  method NewOutputs(nSamples: nat, outputDim: nat) returns (m: SosMatrix)
    ensures |m.rows| == nSamples && m.Valid()
    ensures forall r :: 0 <= r < nSamples ==> fresh(m.rows[r]) && m.rows[r][..] == Zeros(outputDim)
  {
    var rows: seq<array<real>> := [];
    for i := 0 to nSamples
      invariant |rows| == i
      invariant forall r :: 0 <= r < i ==> fresh(rows[r]) && rows[r][..] == Zeros(outputDim)
      invariant forall a, b :: 0 <= a < b < i ==> rows[a] != rows[b]
    {
      var row := new real[outputDim](_ => 0.0);
      rows := rows + [row];
    }
    m := SosMatrix(rows);
  }

  /** The contents of the output matrix BatchPredict makes: nSamples rows of outputDim zeros. */
  function ZeroRows(nSamples: nat, outputDim: nat): (z: seq<seq<real>>)
    ensures |z| == nSamples && forall r :: 0 <= r < nSamples ==> z[r] == Zeros(outputDim)
  {
    seq(nSamples, _ => Zeros(outputDim))
  }

  /** BatchPredict's three dimension checks all pass: the input width is inputDim and a
      given output has outputDim columns and one row per input row. */
  predicate ChecksPass(inputs: SosMatrix, outputs: Option<SosMatrix>, inputDim: int, outputDim: int) {
    && |inputs.rows| >= 1 && inputs.rows[0].Length == inputDim
    && (outputs.Some? ==>
          |outputs.value.rows| == |inputs.rows| && outputs.value.rows[0].Length == outputDim)
  }

  /**
   * BatchPredict: the input width is checked first; a missing output matrix is then made
   * (and can hand out row views), a given one has its width and then its row count
   * checked. Each failed check returns the given output matrix, untouched, with its error.
   * Otherwise every output row is predicted from its input row, chunk by chunk.
   */
  method BatchPredict(batch: BatchPredictor, inputs: SosMatrix, inputIsRowViewer: bool,
                      outputs: Option<SosMatrix>, outputIsRowViewer: bool,
                      inputDim: int, outputDim: int, grainSize: int)
      returns (res: Option<SosMatrix>, err: Option<BatchError>)
    requires inputs.Valid() && |inputs.rows| >= 1
    requires inputs.rows[0].Length == inputDim && outputs.Some? ==>
      outputs.value.Valid() && |outputs.value.rows| >= 1
    requires ChecksPass(inputs, outputs, inputDim, outputDim) ==>
      && grainSize >= 1
      && (outputs.Some? ==> RowsApart(inputs, outputs.value))
      && Shaped(inputDim, batch.neurons, batch.parameters) && LastWidth(batch.neurons) <= outputDim
    modifies if outputs.Some? then outputs.value.Repr() else {}
    ensures inputs.Contents() == old(inputs.Contents())
    ensures inputs.rows[0].Length != inputDim ==> res == outputs && err == Some(InputDimMismatch)
    ensures outputs.Some? && err.Some? ==> outputs.value.Contents() == old(outputs.value.Contents())
    ensures inputs.rows[0].Length == inputDim && outputs.None? ==>
      && err.None? && res.Some? && res.value.Valid() && |res.value.rows| == |inputs.rows|
      && (forall r :: 0 <= r < |res.value.rows| ==> fresh(res.value.rows[r]))
      && res.value.Contents()
           == PredictRows(batch, inputDim, old(inputs.Contents()), ZeroRows(|inputs.rows|, outputDim), 0, |inputs.rows|)
    ensures inputs.rows[0].Length == inputDim && outputs.Some? ==>
      if outputs.value.rows[0].Length != outputDim then res == outputs && err == Some(OutputDimMismatch)
      else if |outputs.value.rows| != |inputs.rows| then res == outputs && err == Some(RowsMismatch)
      else
        && res == outputs && err.None?
        && outputs.value.Contents()
             == PredictRows(batch, inputDim, old(inputs.Contents()), old(outputs.value.Contents()), 0, |inputs.rows|)
  {
    var (nSamples, dimInputs) := inputs.Dims();
    if inputDim != dimInputs {
      return outputs, Some(InputDimMismatch);
    }
    var out: SosMatrix;
    var outRowViewer := outputIsRowViewer;
    if outputs.None? {
      out := NewOutputs(nSamples, outputDim);
      outRowViewer := true;
    } else {
      out := outputs.value;
      var (nOutputSamples, dimOutputs) := out.Dims();
      if dimOutputs != outputDim {
        return outputs, Some(OutputDimMismatch);
      }
      if nSamples != nOutputSamples {
        return outputs, Some(RowsMismatch);
      }
    }
    var strategy := Select(inputIsRowViewer, outRowViewer);
    RunChunks(strategy, batch, inputs, out, inputDim, outputDim, grainSize);
    return Some(out), None;
  }
}

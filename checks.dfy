/** The argument check that NNNetwork runs before every engine predict call,
    as a specification: the checks are tried in a fixed order and the first
    one that fails decides the error. `Validate` is the whole check; the
    lemmas below state, rule by rule, which error it reports. */
module Checks {
  import opened Dims

  /** Input dataset `data` agrees with its layer and the batch size. */
  predicate InputOk(layer: Layer, data: DataSet, batchSize: int)
  {
    data.dim.dimensions == layer.dim.dimensions
    && SameExtents(data.dim, layer.dim)
    && data.dim.examples == batchSize
  }

  /** Every input agrees with the input layer at the same index. */
  predicate InputsOk(layers: seq<Layer>, inputs: seq<DataSet>, batchSize: int)
  {
    |inputs| == |layers|
    && forall j :: 0 <= j < |inputs| ==> InputOk(layers[j], inputs[j], batchSize)
  }

  /** The shape rule for an output dataset: the layer's extents when the
      full layer is asked for, a flat row of width k otherwise. The rank is
      never compared. */
  predicate OutputShapeOk(config: NetworkConfig, layer: Layer, data: OutputDataSet)
  {
    if config.k == ALL then SameExtents(data.dim, layer.dim)
    else data.dim.x == config.k && data.dim.y == 1 && data.dim.z == 1
  }

  /** Output dataset `data` agrees with its layer, `k` and the batch size. */
  predicate OutputOk(config: NetworkConfig, layer: Layer, data: OutputDataSet)
  {
    OutputShapeOk(config, layer, data) && data.dim.examples == config.batchSize
  }

  /** Every output agrees with the output layer at the same index. */
  predicate OutputsOk(config: NetworkConfig, layers: seq<Layer>, outputs: seq<OutputDataSet>)
  {
    |outputs| == |layers|
    && forall j :: 0 <= j < |outputs| ==> OutputOk(config, layers[j], outputs[j])
  }

  /** The checks on input `i`: rank, then extents, then examples. */
  function InputFault(layer: Layer, data: DataSet, batchSize: int, i: nat): (r: Outcome)
    ensures r == Pass <==> InputOk(layer, data, batchSize)
    ensures r.Fail? ==> r.error.IsInputElement() && r.error.index == i
  {
    if data.dim.dimensions != layer.dim.dimensions then Fail(InputRank(i))
    else if !SameExtents(data.dim, layer.dim) then Fail(InputShape(i))
    else if data.dim.examples != batchSize then Fail(InputBatch(i))
    else Pass
  }

  /** The checks on output `i`: shape (by the rule `k` selects), then examples. */
  function OutputFault(config: NetworkConfig, layer: Layer, data: OutputDataSet, i: nat): (r: Outcome)
    ensures r == Pass <==> OutputOk(config, layer, data)
    ensures r.Fail? ==> r.error.IsOutputElement() && r.error.index == i
  {
    if !OutputShapeOk(config, layer, data) then Fail(OutputShape(i))
    else if data.dim.examples != config.batchSize then Fail(OutputBatch(i))
    else Pass
  }

  /** The input loop from index `i` on: passes exactly when every remaining
      input is fine, and otherwise reports the lowest failing index with
      that input's first failing rule. */
  function InputsFrom(layers: seq<Layer>, inputs: seq<DataSet>, batchSize: int, i: nat): (r: Outcome)
    requires |layers| == |inputs| && i <= |inputs|
    ensures r == Pass <==> forall j :: i <= j < |inputs| ==> InputOk(layers[j], inputs[j], batchSize)
    ensures r.Fail? ==>
      r.error.IsInputElement()
      && i <= r.error.index < |inputs|
      && (forall j :: i <= j < r.error.index ==> InputOk(layers[j], inputs[j], batchSize))
      && r == InputFault(layers[r.error.index], inputs[r.error.index], batchSize, r.error.index)
    decreases |inputs| - i
  {
    if i == |inputs| then Pass
    else if InputFault(layers[i], inputs[i], batchSize, i).Fail? then InputFault(layers[i], inputs[i], batchSize, i)
    else InputsFrom(layers, inputs, batchSize, i + 1)
  }

  /** The output loop from index `i` on, with the same first-failure
      reporting as `InputsFrom`. */
  function OutputsFrom(config: NetworkConfig, layers: seq<Layer>, outputs: seq<OutputDataSet>, i: nat): (r: Outcome)
    requires |layers| == |outputs| && i <= |outputs|
    ensures r == Pass <==> forall j :: i <= j < |outputs| ==> OutputOk(config, layers[j], outputs[j])
    ensures r.Fail? ==>
      r.error.IsOutputElement()
      && i <= r.error.index < |outputs|
      && (forall j :: i <= j < r.error.index ==> OutputOk(config, layers[j], outputs[j]))
      && r == OutputFault(config, layers[r.error.index], outputs[r.error.index], r.error.index)
    decreases |outputs| - i
  {
    if i == |outputs| then Pass
    else if OutputFault(config, layers[i], outputs[i], i).Fail? then OutputFault(config, layers[i], outputs[i], i)
    else OutputsFrom(config, layers, outputs, i + 1)
  }

  /** checkArguments: input count, every input, output count, every output.
      It only ever reports count and per-dataset errors, and a per-dataset
      error names a dataset that exists. */
  function Validate(config: NetworkConfig, inputLayers: seq<Layer>, outputLayers: seq<Layer>,
                    inputs: seq<DataSet>, outputs: seq<OutputDataSet>): (r: Outcome)
    ensures r.Fail? ==>
      r.error == InputArity || r.error.IsInputElement() || r.error == OutputArity || r.error.IsOutputElement()
    ensures r.Fail? && r.error.IsInputElement() ==> r.error.index < |inputs|
    ensures r.Fail? && r.error.IsOutputElement() ==> r.error.index < |outputs|
  {
    if |inputs| != |inputLayers| then Fail(InputArity)
    else if InputsFrom(inputLayers, inputs, config.batchSize, 0).Fail? then InputsFrom(inputLayers, inputs, config.batchSize, 0)
    else if |outputs| != |outputLayers| then Fail(OutputArity)
    else OutputsFrom(config, outputLayers, outputs, 0)
  }

  /** The check passes exactly when every input and every output agrees
      with its layer and the counts match. */
  lemma ValidatePass(config: NetworkConfig, inputLayers: seq<Layer>, outputLayers: seq<Layer>,
                     inputs: seq<DataSet>, outputs: seq<OutputDataSet>)
    ensures Validate(config, inputLayers, outputLayers, inputs, outputs) == Pass
        <==> InputsOk(inputLayers, inputs, config.batchSize) && OutputsOk(config, outputLayers, outputs)
  {
  }

  /** A count mismatch on the inputs is reported before any dataset is
      looked at, whatever the datasets are. */
  lemma ValidateInputArity(config: NetworkConfig, inputLayers: seq<Layer>, outputLayers: seq<Layer>,
                           inputs: seq<DataSet>, outputs: seq<OutputDataSet>)
    requires |inputs| != |inputLayers|
    ensures Validate(config, inputLayers, outputLayers, inputs, outputs) == Fail(InputArity)
  {
  }

  /** When input `i` is the first input that breaks a rule, the error is the
      first rule it breaks, at index `i`, whatever the outputs are. */
  lemma ValidateInputFirstFailure(config: NetworkConfig, inputLayers: seq<Layer>, outputLayers: seq<Layer>,
                                  inputs: seq<DataSet>, outputs: seq<OutputDataSet>, i: nat)
    requires |inputs| == |inputLayers| && i < |inputs|
    requires forall j :: 0 <= j < i ==> InputOk(inputLayers[j], inputs[j], config.batchSize)
    ensures inputs[i].dim.dimensions != inputLayers[i].dim.dimensions
        ==> Validate(config, inputLayers, outputLayers, inputs, outputs) == Fail(InputRank(i))
    ensures inputs[i].dim.dimensions == inputLayers[i].dim.dimensions
        && !SameExtents(inputs[i].dim, inputLayers[i].dim)
        ==> Validate(config, inputLayers, outputLayers, inputs, outputs) == Fail(InputShape(i))
    ensures inputs[i].dim.dimensions == inputLayers[i].dim.dimensions
        && SameExtents(inputs[i].dim, inputLayers[i].dim)
        && inputs[i].dim.examples != config.batchSize
        ==> Validate(config, inputLayers, outputLayers, inputs, outputs) == Fail(InputBatch(i))
  {
  }

  /** Conversely, an input error names an input that breaks a rule, with
      every input before it fine, and names that input's first broken rule. */
  lemma ValidateInputErrorIsFirst(config: NetworkConfig, inputLayers: seq<Layer>, outputLayers: seq<Layer>,
                                  inputs: seq<DataSet>, outputs: seq<OutputDataSet>)
    requires Validate(config, inputLayers, outputLayers, inputs, outputs).Fail?
    requires Validate(config, inputLayers, outputLayers, inputs, outputs).error.IsInputElement()
    ensures var e := Validate(config, inputLayers, outputLayers, inputs, outputs).error;
      |inputs| == |inputLayers| && e.index < |inputs|
      && (forall j :: 0 <= j < e.index ==> InputOk(inputLayers[j], inputs[j], config.batchSize))
      && Fail(e) == InputFault(inputLayers[e.index], inputs[e.index], config.batchSize, e.index)
  {
  }

  /** Inputs are checked completely before outputs: while some input is
      wrong, the error is an input error and the outputs do not affect it. */
  lemma ValidateInputsBeforeOutputs(config: NetworkConfig, inputLayers: seq<Layer>, outputLayers: seq<Layer>,
                                    inputs: seq<DataSet>, outputs: seq<OutputDataSet>, otherOutputs: seq<OutputDataSet>)
    requires !InputsOk(inputLayers, inputs, config.batchSize)
    ensures Validate(config, inputLayers, outputLayers, inputs, outputs).Fail?
    ensures Validate(config, inputLayers, outputLayers, inputs, outputs).error == InputArity
         || Validate(config, inputLayers, outputLayers, inputs, outputs).error.IsInputElement()
    ensures Validate(config, inputLayers, outputLayers, inputs, outputs)
         == Validate(config, inputLayers, outputLayers, inputs, otherOutputs)
  {
  }

  /** With every input fine, a count mismatch on the outputs is reported
      before any output dataset is looked at. */
  lemma ValidateOutputArity(config: NetworkConfig, inputLayers: seq<Layer>, outputLayers: seq<Layer>,
                            inputs: seq<DataSet>, outputs: seq<OutputDataSet>)
    requires InputsOk(inputLayers, inputs, config.batchSize)
    requires |outputs| != |outputLayers|
    ensures Validate(config, inputLayers, outputLayers, inputs, outputs) == Fail(OutputArity)
  {
  }

  /** With every input fine, when output `i` is the first output that breaks
      a rule, the error is its first broken rule: the shape rule `k`
      selects, then the batch size. */
  lemma ValidateOutputFirstFailure(config: NetworkConfig, inputLayers: seq<Layer>, outputLayers: seq<Layer>,
                                   inputs: seq<DataSet>, outputs: seq<OutputDataSet>, i: nat)
    requires InputsOk(inputLayers, inputs, config.batchSize)
    requires |outputs| == |outputLayers| && i < |outputs|
    requires forall j :: 0 <= j < i ==> OutputOk(config, outputLayers[j], outputs[j])
    ensures config.k == ALL && !SameExtents(outputs[i].dim, outputLayers[i].dim)
        ==> Validate(config, inputLayers, outputLayers, inputs, outputs) == Fail(OutputShape(i))
    ensures config.k != ALL && (outputs[i].dim.x != config.k || outputs[i].dim.y != 1 || outputs[i].dim.z != 1)
        ==> Validate(config, inputLayers, outputLayers, inputs, outputs) == Fail(OutputShape(i))
    ensures OutputShapeOk(config, outputLayers[i], outputs[i]) && outputs[i].dim.examples != config.batchSize
        ==> Validate(config, inputLayers, outputLayers, inputs, outputs) == Fail(OutputBatch(i))
  {
  }

  /** Conversely, an output error names an output that breaks a rule, with
      every input and every earlier output fine. */
  lemma ValidateOutputErrorIsFirst(config: NetworkConfig, inputLayers: seq<Layer>, outputLayers: seq<Layer>,
                                   inputs: seq<DataSet>, outputs: seq<OutputDataSet>)
    requires Validate(config, inputLayers, outputLayers, inputs, outputs).Fail?
    requires Validate(config, inputLayers, outputLayers, inputs, outputs).error.IsOutputElement()
    ensures var e := Validate(config, inputLayers, outputLayers, inputs, outputs).error;
      InputsOk(inputLayers, inputs, config.batchSize)
      && |outputs| == |outputLayers| && e.index < |outputs|
      && (forall j :: 0 <= j < e.index ==> OutputOk(config, outputLayers[j], outputs[j]))
      && Fail(e) == OutputFault(config, outputLayers[e.index], outputs[e.index], e.index)
  {
  }

  /** The verdict of the whole check does not depend on the rank of any
      output dataset. */
  lemma ValidateIgnoresOutputRank(config: NetworkConfig, inputLayers: seq<Layer>, outputLayers: seq<Layer>,
                                  inputs: seq<DataSet>, outputs: seq<OutputDataSet>, n: nat, rank: int)
    requires n < |outputs|
    ensures Validate(config, inputLayers, outputLayers, inputs,
                     outputs[n := outputs[n].(dim := outputs[n].dim.(dimensions := rank))])
         == Validate(config, inputLayers, outputLayers, inputs, outputs)
  {
  }
}

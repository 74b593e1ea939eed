/** How NNNetwork sizes output datasets: `createOutputDataSet`, which honours
    `k`, and the allocation done by the array form of `predict`, which does
    not. The lemmas say which of these outputs the argument check accepts. */
module Sizing {
  import opened Dims
  import opened Checks

  /** createOutputDataSet: the layer's shape at the configured batch size,
      with x replaced by k in top-k mode. Rank, y and z always come from the
      layer, also in top-k mode. The dataset gets no name. */
  function CreateOutputDataSet(config: NetworkConfig, layer: Layer): (o: OutputDataSet)
    ensures o.dim.examples == config.batchSize
    ensures o.dim.dimensions == layer.dim.dimensions && o.dim.y == layer.dim.y && o.dim.z == layer.dim.z
    ensures o.dim.x == if config.k == ALL then layer.dim.x else config.k
  {
    if config.k == ALL then OutputDataSet("", layer.dim.(examples := config.batchSize))
    else OutputDataSet("", Dim(layer.dim.dimensions, config.k, layer.dim.y, layer.dim.z, config.batchSize))
  }

  /** In full-layer mode a created output always passes the output check;
      in top-k mode it passes exactly when the layer is flat (y = z = 1). */
  lemma CreatedOutputAgainstCheck(config: NetworkConfig, layer: Layer, i: nat)
    ensures config.k == ALL ==> OutputFault(config, layer, CreateOutputDataSet(config, layer), i) == Pass
    ensures config.k != ALL ==>
      (OutputFault(config, layer, CreateOutputDataSet(config, layer), i) == Pass <==> layer.dim.y == 1 && layer.dim.z == 1)
    ensures config.k != ALL && (layer.dim.y != 1 || layer.dim.z != 1) ==>
      OutputFault(config, layer, CreateOutputDataSet(config, layer), i) == Fail(OutputShape(i))
  {
  }

  /** The outputs the array form of `predict` allocates: one per output
      layer, named after the layer's dataset, with the layer's full shape at
      the configured batch size. */
  function AllocateOutputs(config: NetworkConfig, layers: seq<Layer>): (r: seq<OutputDataSet>)
    ensures |r| == |layers|
    ensures forall i :: 0 <= i < |layers| ==>
      r[i].name == layers[i].datasetName
      && r[i].dim.dimensions == layers[i].dim.dimensions
      && SameExtents(r[i].dim, layers[i].dim)
      && r[i].dim.examples == config.batchSize
  {
    seq(|layers|, i requires 0 <= i < |layers| =>
      OutputDataSet(layers[i].datasetName, layers[i].dim.(examples := config.batchSize)))
  }

  /** In full-layer mode the allocated outputs always pass the output check,
      so the array form of `predict` fails only for input errors. */
  lemma AllocatedOutputsInAllMode(config: NetworkConfig, inputLayers: seq<Layer>, outputLayers: seq<Layer>,
                                  inputs: seq<DataSet>)
    requires config.k == ALL
    ensures OutputsOk(config, outputLayers, AllocateOutputs(config, outputLayers))
    ensures Validate(config, inputLayers, outputLayers, inputs, AllocateOutputs(config, outputLayers)) == Pass
        <==> InputsOk(inputLayers, inputs, config.batchSize)
  {
    var outs := AllocateOutputs(config, outputLayers);
    forall j | 0 <= j < |outs| ensures OutputOk(config, outputLayers[j], outs[j]) {
      assert outs[j].dim == outputLayers[j].dim.(examples := config.batchSize);
    }
    ValidatePass(config, inputLayers, outputLayers, inputs, outs);
  }

  /** In top-k mode the allocation ignores k: the allocated outputs pass the
      output check only when every output layer is a flat row of width k.
      With valid inputs and a first output layer that is not exactly k wide,
      the array form of `predict` therefore always fails on output 0. */
  lemma AllocatedOutputsInTopKMode(config: NetworkConfig, inputLayers: seq<Layer>, outputLayers: seq<Layer>,
                                   inputs: seq<DataSet>)
    requires config.k != ALL
    ensures OutputsOk(config, outputLayers, AllocateOutputs(config, outputLayers))
        <==> forall j :: 0 <= j < |outputLayers| ==>
               outputLayers[j].dim.x == config.k && outputLayers[j].dim.y == 1 && outputLayers[j].dim.z == 1
    ensures InputsOk(inputLayers, inputs, config.batchSize) && |outputLayers| > 0 && outputLayers[0].dim.x != config.k
        ==> Validate(config, inputLayers, outputLayers, inputs, AllocateOutputs(config, outputLayers)) == Fail(OutputShape(0))
  {
    var outs := AllocateOutputs(config, outputLayers);
    assert forall j :: 0 <= j < |outs| ==> outs[j].dim == outputLayers[j].dim.(examples := config.batchSize);
    if InputsOk(inputLayers, inputs, config.batchSize) && |outputLayers| > 0 && outputLayers[0].dim.x != config.k {
      ValidateOutputFirstFailure(config, inputLayers, outputLayers, inputs, outs, 0);
    }
  }
}

/** The NNNetwork object: the configuration, the input and output layers and
    the engine handle, and the operations that go to the native engine.
    The engine itself is not modelled; every call made to it is recorded in
    the ghost `log`, so that contracts can say which calls were made. */
module Networks {
  import opened Dims
  import opened Checks
  import opened Sizing

  /** A call into the native engine, with the arguments it received. */
  datatype EngineCall =
    | LoadDatasets(handle: int, datasets: seq<DataSet>)
    | EnginePredict(handle: int, k: int, inputs: seq<DataSet>, outputs: seq<OutputDataSet>)
    | Shutdown(handle: int)

  /** The constructor's topology check: at most one output layer. */
  function CheckTopology(outputLayers: seq<Layer>): (r: Outcome)
    ensures r == Pass <==> |outputLayers| <= 1
    ensures r.Fail? ==> r.error == Topology(|outputLayers|)
  {
    if |outputLayers| > 1 then Fail(Topology(|outputLayers|)) else Pass
  }

  class Network {
    const config: NetworkConfig
    const ptr: int
    const inputLayers: seq<Layer>
    const outputLayers: seq<Layer>

    /** Every call this network has made into the engine, oldest first. */
    ghost var log: seq<EngineCall>

    /** At most one output layer, and every call went to this network's
        handle; every predict call the engine received used `config.k` and
        datasets that had passed the argument check. */
    ghost predicate Valid()
      reads this
    {
      |outputLayers| <= 1
      && forall n :: 0 <= n < |log| ==>
           log[n].handle == ptr
           && (log[n].EnginePredict? ==>
                 log[n].k == config.k
                 && Validate(config, inputLayers, outputLayers, log[n].inputs, log[n].outputs) == Pass)
    }

    /** The field assignments of the Java constructor; `NewNetwork` runs the
        topology check that precedes them. */
    constructor (config: NetworkConfig, ptr: int, inputLayers: seq<Layer>, outputLayers: seq<Layer>)
      requires CheckTopology(outputLayers) == Pass
      ensures Valid()
      ensures this.config == config && this.ptr == ptr
      ensures this.inputLayers == inputLayers && this.outputLayers == outputLayers
      ensures log == []
    {
      this.config := config;
      this.ptr := ptr;
      this.inputLayers := inputLayers;
      this.outputLayers := outputLayers;
      log := [];
    }

    /** load: hands the datasets to the engine, with no check at all. */
    method Load(datasets: seq<DataSet>)
      requires Valid()
      modifies this
      ensures Valid()
      ensures log == old(log) + [LoadDatasets(ptr, datasets)]
    {
      log := log + [LoadDatasets(ptr, datasets)];
    }

    /** checkArguments: walks the inputs, then the outputs, and stops at the
        first dataset that breaks a rule. */
    method CheckArguments(inputs: seq<DataSet>, outputs: seq<OutputDataSet>) returns (r: Outcome)
      ensures r == Validate(config, inputLayers, outputLayers, inputs, outputs)
    {
      if |inputs| != |inputLayers| {
        return Fail(InputArity);
      }
      var i := 0;
      while i < |inputs|
        invariant 0 <= i <= |inputs|
        invariant InputsFrom(inputLayers, inputs, config.batchSize, i) == InputsFrom(inputLayers, inputs, config.batchSize, 0)
      {
        var dataDim := inputs[i].dim;
        var inputLayer := inputLayers[i];
        if dataDim.dimensions != inputLayer.dim.dimensions {
          return Fail(InputRank(i));
        }
        if dataDim.x != inputLayer.dim.x || dataDim.y != inputLayer.dim.y || dataDim.z != inputLayer.dim.z {
          return Fail(InputShape(i));
        }
        if dataDim.examples != config.batchSize {
          return Fail(InputBatch(i));
        }
        i := i + 1;
      }

      if |outputs| != |outputLayers| {
        return Fail(OutputArity);
      }
      i := 0;
      while i < |outputs|
        invariant 0 <= i <= |outputs|
        invariant InputsFrom(inputLayers, inputs, config.batchSize, 0) == Pass
        invariant OutputsFrom(config, outputLayers, outputs, i) == OutputsFrom(config, outputLayers, outputs, 0)
      {
        var outputLayer := outputLayers[i];
        var dataDim := outputs[i].dim;
        if config.k == ALL {
          if dataDim.x != outputLayer.dim.x || dataDim.y != outputLayer.dim.y || dataDim.z != outputLayer.dim.z {
            return Fail(OutputShape(i));
          }
        } else {
          if dataDim.x != config.k || dataDim.y != 1 || dataDim.z != 1 {
            return Fail(OutputShape(i));
          }
        }
        if dataDim.examples != config.batchSize {
          return Fail(OutputBatch(i));
        }
        i := i + 1;
      }
      return Pass;
    }

    /** predict(inputs, outputs): checks the arguments and, only when they
        pass, makes exactly one engine predict call with `config.k`. */
    method Predict(inputs: seq<DataSet>, outputs: seq<OutputDataSet>) returns (r: Outcome)
      requires Valid()
      modifies this
      ensures Valid()
      ensures r == Validate(config, inputLayers, outputLayers, inputs, outputs)
      ensures log == if r == Pass then old(log) + [EnginePredict(ptr, config.k, inputs, outputs)] else old(log)
    {
      r := CheckArguments(inputs, outputs);
      if r.Fail? {
        return;
      }
      log := log + [EnginePredict(ptr, config.k, inputs, outputs)];
    }

    /** predict(input, output): refused unless the network has exactly one
        input layer and one output layer; otherwise the array form on
        one-element arrays. */
    method PredictOne(input: DataSet, output: OutputDataSet) returns (r: Outcome)
      requires Valid()
      modifies this
      ensures Valid()
      ensures |inputLayers| != 1 || |outputLayers| != 1 ==> r == Fail(Unsupported) && log == old(log)
      ensures |inputLayers| == 1 && |outputLayers| == 1 ==>
        r == Validate(config, inputLayers, outputLayers, [input], [output])
        && log == if r == Pass then old(log) + [EnginePredict(ptr, config.k, [input], [output])] else old(log)
    {
      if |inputLayers| != 1 || |outputLayers| != 1 {
        return Fail(Unsupported);
      }
      r := Predict([input], [output]);
    }

    /** predict(inputs): allocates one output per output layer at the
        layer's full shape (whatever `k` is), then runs the array form and
        returns the outputs when it passes. */
    method PredictAllocating(inputs: seq<DataSet>) returns (r: Result<seq<OutputDataSet>>)
      requires Valid()
      modifies this
      ensures Valid()
      ensures var outs := AllocateOutputs(config, outputLayers);
        var verdict := Validate(config, inputLayers, outputLayers, inputs, outs);
        && (r.Ok? <==> verdict == Pass)
        && (r.Ok? ==> r.value == outs && log == old(log) + [EnginePredict(ptr, config.k, inputs, outs)])
        && (r.Err? ==> verdict == Fail(r.error) && log == old(log))
    {
      var outputs := new OutputDataSet[|outputLayers|];
      var i := 0;
      while i < |outputLayers|
        invariant 0 <= i <= |outputLayers|
        invariant log == old(log)
        invariant forall j :: 0 <= j < i ==> outputs[j] == AllocateOutputs(config, outputLayers)[j]
      {
        var outputLayer := outputLayers[i];
        outputs[i] := OutputDataSet(outputLayer.datasetName, outputLayer.dim.(examples := config.batchSize));
        i := i + 1;
      }
      assert outputs[..] == AllocateOutputs(config, outputLayers);
      var outcome := Predict(inputs, outputs[..]);
      if outcome.Fail? {
        return Err(outcome.error);
      }
      return Ok(outputs[..]);
    }

    /** close: shuts the engine handle down. There is no closed state, so a
        second call shuts the same handle down again. */
    method Close()
      requires Valid()
      modifies this
      ensures Valid()
      ensures log == old(log) + [Shutdown(ptr)]
    {
      log := log + [Shutdown(ptr)];
    }
  }

  /** new NNNetwork(...): throws the topology error for more than one output
      layer; otherwise a fresh network holding the given layers in order,
      which has made no engine call yet. */
  method NewNetwork(config: NetworkConfig, ptr: int, inputLayers: seq<Layer>, outputLayers: seq<Layer>)
    returns (r: Result<Network>)
    ensures r.Err? <==> |outputLayers| > 1
    ensures r.Err? ==> r.error == Topology(|outputLayers|)
    ensures r.Ok? ==> fresh(r.value) && r.value.Valid() && r.value.log == []
    ensures r.Ok? ==> r.value.config == config && r.value.ptr == ptr
    ensures r.Ok? ==> r.value.inputLayers == inputLayers && r.value.outputLayers == outputLayers
  {
    var topology := CheckTopology(outputLayers);
    if topology.Fail? {
      return Err(topology.error);
    }
    var network := new Network(config, ptr, inputLayers, outputLayers);
    return Ok(network);
  }
}

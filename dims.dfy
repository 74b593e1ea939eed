/** The records NNNetwork reads: shapes, layers, datasets, the run
    configuration, and the kinds of failure it reports. Only the fields the
    network code reads are modelled. Java `int` fields are plain `int`s here:
    the network code only compares them and never does arithmetic on them. */
module Dims {

  /** A shape: the rank (`dimensions`), the three extents and the batch
      width `examples`. */
  datatype Dim = Dim(dimensions: int, x: int, y: int, z: int, examples: int)

  /** The extents x, y and z agree; rank and examples are not compared. */
  predicate SameExtents(a: Dim, b: Dim)
  {
    a.x == b.x && a.y == b.y && a.z == b.z
  }

  /** An input or output endpoint of the loaded network. */
  datatype Layer = Layer(name: string, datasetName: string, dim: Dim)

  /** A caller-supplied input dataset (NNDataSet). */
  datatype DataSet = DataSet(name: string, dim: Dim)

  /** An output dataset (OutputNNDataSet); the engine fills its values. */
  datatype OutputDataSet = OutputDataSet(name: string, dim: Dim)

  /** NetworkConfig.ALL: the value of `k` that asks for the full output
      layer instead of a top-k selection. */
  const ALL: int := -1

  /** The two fields of NetworkConfig that the network reads. */
  datatype NetworkConfig = NetworkConfig(batchSize: int, k: int)

  /** The exceptions NNNetwork throws, by kind. Per-dataset failures carry
      the index of the offending dataset. */
  datatype Error =
    | Topology(outputLayerCount: nat)
    | Unsupported
    | InputArity
    | InputRank(index: nat)
    | InputShape(index: nat)
    | InputBatch(index: nat)
    | OutputArity
    | OutputShape(index: nat)
    | OutputBatch(index: nat)
  {
    /** A failure of one input dataset against its layer. */
    predicate IsInputElement()
    {
      InputRank? || InputShape? || InputBatch?
    }

    /** A failure of one output dataset against its layer. */
    predicate IsOutputElement()
    {
      OutputShape? || OutputBatch?
    }
  }

  /** Whether a check passed, or the exception it threw. */
  datatype Outcome = Pass | Fail(error: Error)

  /** A value, or the exception thrown instead of returning it. */
  datatype Result<T> = Ok(value: T) | Err(error: Error)
}

/** Concrete cases of the model: one network with a 10-wide input layer and a
    3-wide output layer at batch size 4, once asking for the full output
    layer and once for the top 2. */
module Scenarios {
  import opened Dims
  import opened Checks
  import opened Sizing
  import opened Networks

  const InLayer := Layer("input", "input", Dim(1, 10, 1, 1, 1))
  const OutLayer := Layer("output", "output", Dim(1, 3, 1, 1, 1))
  const GoodInput := DataSet("input", Dim(1, 10, 1, 1, 4))

  /** Full-layer mode: a 3-wide output passes, a 4-wide one is rejected as a
      shape error on output 0, and a batch of 5 as a batch error. */
  lemma FullLayerScenario()
    ensures Validate(NetworkConfig(4, ALL), [InLayer], [OutLayer], [GoodInput],
                     [OutputDataSet("output", Dim(1, 3, 1, 1, 4))]) == Pass
    ensures Validate(NetworkConfig(4, ALL), [InLayer], [OutLayer], [GoodInput],
                     [OutputDataSet("output", Dim(1, 4, 1, 1, 4))]) == Fail(OutputShape(0))
    ensures Validate(NetworkConfig(4, ALL), [InLayer], [OutLayer], [DataSet("input", Dim(1, 10, 1, 1, 5))],
                     [OutputDataSet("output", Dim(1, 4, 1, 1, 4))]) == Fail(InputBatch(0))
  {
  }

  /** Top-2 mode: the created output is 2 wide at batch size 4 and passes;
      a 3-wide output is rejected as a shape error on output 0. */
  lemma TopKScenario()
    ensures CreateOutputDataSet(NetworkConfig(4, 2), OutLayer).dim == Dim(1, 2, 1, 1, 4)
    ensures Validate(NetworkConfig(4, 2), [InLayer], [OutLayer], [GoodInput],
                     [CreateOutputDataSet(NetworkConfig(4, 2), OutLayer)]) == Pass
    ensures Validate(NetworkConfig(4, 2), [InLayer], [OutLayer], [GoodInput],
                     [OutputDataSet("output", Dim(1, 3, 1, 1, 4))]) == Fail(OutputShape(0))
  {
  }

  /** Two output layers are refused at construction. */
  lemma TwoOutputLayersScenario()
    ensures CheckTopology([OutLayer, OutLayer]) == Fail(Topology(2))
  {
  }
}

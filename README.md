# NNNetwork: argument checking and output sizing, in Dafny

This project models `NNNetwork`, the Java class of DSSTNE that sits in front
of the native inference engine. It covers the class's own logic:

- the constructor's topology check (at most one output layer);
- `checkArguments`, which matches input and output datasets to the layers
  by index and stops at the first broken rule;
- `createOutputDataSet` and the array form of `predict`, which size output
  datasets from a layer's `Dim`, the batch size and `k`;
- `load`, the two `predict` overloads that take datasets, and `close`,
  which forward to the engine.

The engine is not modelled. Each call into it (`Dsstne.loadDatasets`,
`Dsstne.predict`, `Dsstne.shutdown`) is recorded as an entry of a ghost log
in the `Network` object. Contracts then say which calls were made, with
which handle and arguments.

Modules:

- `Dims` (`dims.dfy`): the records the class reads (`Dim`, `Layer`,
  `DataSet`, `OutputDataSet`, `NetworkConfig`, the constant `ALL`) and the
  error kinds that stand for its exceptions.
- `Checks` (`checks.dfy`): `Validate`, the argument check as a recursive
  first-failure specification, and lemmas that give it rule by rule.
- `Sizing` (`sizing.dfy`): `createOutputDataSet`, the allocation done by
  `predict(NNDataSet[])`, and lemmas about how the check judges both.
- `Networks` (`network.dfy`): the `Network` class. Its `CheckArguments`
  method has the source's two early-exit loops and is proved equal to
  `Validate`. `Valid()` says that every predict call the engine got used
  `config.k` and passed the check.
- `Scenarios` (`scenarios.dfy`): concrete networks checked end to end.

The model keeps these behaviours of the code as written:

- In top-k mode `createOutputDataSet` keeps the layer's rank, `y` and `z`
  (NNNetwork.java line 93). It does not collapse the shape to `(k, 1, 1)`.
- The output check never compares rank.
- The constructor accepts zero output layers, not only exactly one.
- `load` checks nothing.
- There is no closed state: `close` can be called again, and every call
  shuts the handle down again.
- `predict(NNDataSet[])` allocates outputs at the layer's full shape even in
  top-k mode. So in top-k mode, once every input passes, it succeeds only if
  every output layer is `k` wide with y = z = 1, and it fails with a shape
  error on output 0 when the first output layer is not `k` wide
  (`AllocatedOutputsInTopKMode`).

## Model

| member | source | states |
|---|---|---|
| `Networks.CheckTopology` | java/src/main/java/com/amazon/dsstne/NNNetwork.java:44-49 | the topology check passes exactly when there is at most one output layer; otherwise the error carries the output-layer count |
| `Networks.NewNetwork` | java/src/main/java/com/amazon/dsstne/NNNetwork.java:42-55 | construction fails with the topology error exactly when there is more than one output layer; on success the network is fresh, valid, holds the config, the handle and both layer lists in the given order, and has made no engine call |
| `Networks.Network.constructor` | java/src/main/java/com/amazon/dsstne/NNNetwork.java:51-54 | the fields hold the given config, handle and layer lists in order; the engine log is empty |
| `Networks.Network.Load` | java/src/main/java/com/amazon/dsstne/NNNetwork.java:57-59 | without any check, appends exactly one load call with this network's handle and the given datasets |
| `Networks.Network.PredictOne` | java/src/main/java/com/amazon/dsstne/NNNetwork.java:61-68 | fails as unsupported, with no engine call, unless there is exactly one input layer and one output layer; otherwise it gives the check's verdict on the one-element arrays and calls the engine once exactly when that verdict is a pass |
| `Networks.Network.PredictAllocating` | java/src/main/java/com/amazon/dsstne/NNNetwork.java:70-80 | builds one output per output layer, named after the layer's dataset, at the layer's full shape and the batch size, whatever k is; returns them after one engine call exactly when the check passes on them, and otherwise returns the check's error with no engine call |
| `Sizing.CreateOutputDataSet` | java/src/main/java/com/amazon/dsstne/NNNetwork.java:82-96 | the created output has the batch size as examples and the layer's rank, y and z; its x is the layer's x when k is ALL and k otherwise |
| `Sizing.CreatedOutputAgainstCheck` | java/src/main/java/com/amazon/dsstne/NNNetwork.java:88-93 | with k ALL a created output always passes the output check; in top-k mode it passes exactly when the layer has y = z = 1, and otherwise fails as a shape error at its index |
| `Networks.Network.Predict` | java/src/main/java/com/amazon/dsstne/NNNetwork.java:98-101 | returns the check's verdict; makes exactly one engine predict call, with this handle, config.k and the given datasets, when the check passes, and no engine call when it fails |
| `Networks.Network.CheckArguments` | java/src/main/java/com/amazon/dsstne/NNNetwork.java:107-169 | the two early-exit loops report exactly the error of the first-failure specification `Validate` |
| `Checks.InputsFrom` | java/src/main/java/com/amazon/dsstne/NNNetwork.java:112-134 | the input loop passes exactly when every input agrees with its layer; otherwise it reports the lowest failing index, every earlier input is fine, and the error is that input's first broken rule (rank, then x/y/z, then examples) |
| `Checks.OutputsFrom` | java/src/main/java/com/amazon/dsstne/NNNetwork.java:141-167 | the output loop passes exactly when every output agrees with its layer; otherwise it reports the lowest failing index, every earlier output is fine, and the error is that output's first broken rule (shape, then examples) |
| `Checks.InputFault` | java/src/main/java/com/amazon/dsstne/NNNetwork.java:117-133 | the checks on one input pass exactly when its rank, x, y and z equal the layer's and its examples equal the batch size; a failure is an input error at the given index, tried in the order rank, then x/y/z, then examples |
| `Checks.OutputFault` | java/src/main/java/com/amazon/dsstne/NNNetwork.java:146-167 | the checks on one output pass exactly when it meets the shape rule k selects (the layer's x, y and z under ALL; x = k and y = z = 1 otherwise; rank never compared) and its examples equal the batch size; a failure is an output error at the given index, shape before examples |
| `Checks.Validate` | java/src/main/java/com/amazon/dsstne/NNNetwork.java:107-169 | checkArguments as a first-failure specification: input count, inputs, output count, outputs; it reports only count and per-dataset errors, and a per-dataset error names an index within the inputs or outputs it belongs to |
| `Sizing.AllocateOutputs` | java/src/main/java/com/amazon/dsstne/NNNetwork.java:71-77 | one output per output layer, in layer order, named after the layer's dataset name, with the layer's rank, x, y and z and the batch size as examples; k plays no part |
| `Checks.ValidatePass` | java/src/main/java/com/amazon/dsstne/NNNetwork.java:107-169 | the check passes if and only if the input count matches and every input agrees with its layer, and the output count matches and every output agrees with its layer |
| `Checks.ValidateInputArity` | java/src/main/java/com/amazon/dsstne/NNNetwork.java:108-110 | when the input count differs from the input-layer count the error is the input-count error, whatever the datasets are |
| `Checks.ValidateInputFirstFailure` | java/src/main/java/com/amazon/dsstne/NNNetwork.java:112-134 | if input i is the first input that breaks a rule, the error is, at index i: the rank error if the rank differs; else the shape error if x, y or z differs; else the batch error if examples differs from the batch size; whatever the outputs are |
| `Checks.ValidateInputErrorIsFirst` | java/src/main/java/com/amazon/dsstne/NNNetwork.java:112-134 | a reported input error names an index in range, every input before it agrees with its layer, and the error is that input's first broken rule |
| `Checks.ValidateInputsBeforeOutputs` | java/src/main/java/com/amazon/dsstne/NNNetwork.java:136-139 | while the inputs do not all pass, the check fails with an input error (count or per-input), and replacing the outputs by any others does not change the verdict |
| `Checks.ValidateOutputArity` | java/src/main/java/com/amazon/dsstne/NNNetwork.java:137-139 | when every input passes and the output count differs from the output-layer count, the error is the output-count error |
| `Checks.ValidateOutputFirstFailure` | java/src/main/java/com/amazon/dsstne/NNNetwork.java:141-167 | with valid inputs, if output i is the first output that breaks a rule, the error is, at index i: the shape error when k is ALL and x, y or z differs from the layer, or when k is not ALL and x differs from k or y or z differs from 1; else the batch error when examples differs from the batch size |
| `Checks.ValidateOutputErrorIsFirst` | java/src/main/java/com/amazon/dsstne/NNNetwork.java:141-167 | a reported output error implies that every input passed, the output count matched, the index is in range, every earlier output passed, and the error is that output's first broken rule |
| `Checks.ValidateIgnoresOutputRank` | java/src/main/java/com/amazon/dsstne/NNNetwork.java:146-162 | the check's verdict never depends on the rank of an output dataset |
| `Sizing.AllocatedOutputsInAllMode` | java/src/main/java/com/amazon/dsstne/NNNetwork.java:70-80 | with k ALL the outputs allocated by predict(NNDataSet[]) always pass the output check, so the check passes on them exactly when the inputs pass |
| `Sizing.AllocatedOutputsInTopKMode` | java/src/main/java/com/amazon/dsstne/NNNetwork.java:70-80 | with k not ALL the allocated outputs pass the output check exactly when every output layer is k wide with y = z = 1; with valid inputs and a first output layer whose x is not k, the check fails with a shape error on output 0 |
| `Networks.Network.Close` | java/src/main/java/com/amazon/dsstne/NNNetwork.java:172-174 | with no guard, appends exactly one shutdown call for this handle, also when the network was closed before |
| `Scenarios.FullLayerScenario` | java/src/main/java/com/amazon/dsstne/NNNetwork.java:141-167 | batch 4, k ALL, layers 10 and 3 wide: a 3-wide output passes, a 4-wide output is a shape error on output 0, and an input with 5 examples is a batch error on input 0 |
| `Scenarios.TopKScenario` | java/src/main/java/com/amazon/dsstne/NNNetwork.java:82-96 | batch 4, k = 2: the created output is (1, 2, 1, 1, 4) and passes the check; a 3-wide output is a shape error on output 0 |
| `Scenarios.TwoOutputLayersScenario` | java/src/main/java/com/amazon/dsstne/NNNetwork.java:44-49 | two output layers are refused with the topology error carrying the count 2 |

## Left out

- The native engine (`Dsstne.loadDatasets`, `Dsstne.predict`, `Dsstne.shutdown`) is a foreign call. Each call is recorded in the ghost log only. Nothing is said about what it does to dataset contents, and engine failures are not modelled.
- The `volatile long ptr` handle is an opaque `int`. Concurrent use of a network is not modelled.
- The Lombok `@Getter` and `@ToString` members are not modelled.
- Exception message text is not modelled. The error kinds carry the index of the offending dataset, not the layer and dataset names the messages print.
- `NetworkConfig`, `NNLayer`, `Dim`, `NNDataSet` and `OutputNNDataSet` are not part of this model. Only the fields the network code reads are modelled, and dataset values and top-k index/score arrays are left out.
- `ALL` is defined in `NetworkConfig`, which is not part of this model. The model uses -1 for it. No lemma depends on its value except through "k is ALL" or "k is not ALL".
- `createOutputDataSet` does not set a name. The model gives the created dataset the empty name, because the default name is set in `OutputNNDataSet`, which is not part of this model.
- Java arrays become immutable sequences. That leaves out null arrays and null elements (a `NullPointerException` in the source), and changes a caller may make to the layer arrays returned by the getters.
- Java `int` fields are unbounded `int`s. The code only compares them, so 32-bit wrap-around cannot arise.
- java/src/test/java/com/amazon/dsstne/NNNetworkTest.java is an ignored integration test that runs the native engine on a local file and asserts nothing. It is not modelled.

# Federated-learning demo: orchestration and data partitioning in Dafny

This project models the two pieces of logic in a browser demo of federated learning.

- **The orchestration rules of `core.js`.** Five clients each train a local model on
  their own MNIST partition. Each client has an id, data, a model, a training history, a
  current accuracy, a training flag and hyperparameters. A coordinator samples which
  clients take part in a round: client *i* is kept iff its uniform draw is below
  `dropoutProbability`, so despite its name the value is an inclusion threshold. The
  coordinator then averages the participants' weights layer by layer, with equal weight
  per client, into a fresh global model and records the global accuracy. Per-epoch and
  per-round accuracies are appended to chart histories. The control handlers (train one,
  train all, aggregate, switch mode, sliders) are modelled as sequential steps.
- **The partitioner `data/mnist_splitter.py`.** From the shuffled MNIST rows it writes
  five IID client files, which are contiguous 1100-row blocks split 1000/100. It also
  writes five non-IID files. Each non-IID file keeps only the rows whose digit is in the
  client's two-digit group, shuffles them, keeps at most 1100, and splits them the same
  way.

External pieces become values:
- a layer's weights are `seq<real>`, so the averaging is exact;
- `Math.random()` is a sequence of draws, one per client;
- `model.fit` is a `FitOutcome`: `Fitted` or `Threw`, each carrying the epoch logs its
  callback saw and the weights the model object holds afterwards;
- `model.evaluate` is an `Option<real>`;
- each fetch is an `Option<RawClientData>`;
- each non-IID shuffle is a permutation of positions.

Modules:
- `Options`
- `DataManager`: the shape check, client loading and the global test set
- `Aggregation`: the pure parts of `aggregateModels`
- `ChartManager`: chart histories as label/value sequences
- `FederatedState`: the `Model`, `Client` and `Coordinator` classes, whose methods update
  state in place
- `MnistSplitter`
- `Pipeline`: the splitter's files meet the browser's shape check

Behaviour worth noting, modelled as the code has it:
- A mode switch is not all-or-nothing. It sets the new mode and clears the charts first.
  If the global test set cannot be built, no client's data changes. Otherwise clients are
  reloaded one at a time, and those loaded before the first failing file keep their new
  data. Models, training histories and accuracies are never cleared.
- `trainHistory` grows only when `fit` succeeds.
- The "already training" guard sits in the button handlers, not in `trainLocalModel`.
- The shape check looks only at row 0's width in each image set
  (`RaggedFilePassesValidation`).
- The averaged model takes its layer count from participant 0. Extra layers of later
  participants are ignored. A missing layer or a size mismatch makes the aggregation fail.

## Model

| member | source | states |
|---|---|---|
| `DataManager.ValidateDataStructure` | core.js:111-117 | a file passes iff all four fields are present, it has 1000 training images and labels and 100 test images and labels, and the first training image and the first test image each have 784 values |
| `DataManager.RaggedFilePassesValidation` | core.js:111-117 | the shape check reads only row 0's width: a file whose row 1 is empty still passes |
| `DataManager.LoadClientData` | core.js:78-109 | a client loads iff the fetch succeeded and the file passes the shape check; a loaded client has 1000/1000/100/100 rows, 784-wide first rows, and exactly the file's fields; a failed fetch and a bad shape are distinguished |
| `DataManager.InitializeGlobalTestSet` | core.js:119-137 | the loop over the five files yields the global test set: absent if any fetch failed or any file lacks a test field, otherwise all test rows and labels concatenated in client order |
| `DataManager.GlobalTestSetOf` | core.js:119-137 | no test set if some fetch failed or some file lacks a test field; otherwise every file's test images and labels concatenated in client order |
| `DataManager.GlobalTestSetSize` | core.js:124-132 | when every file passes the shape check, the global test set exists and has 100 rows and 100 labels per client |
| `DataManager.GlobalTestSetRows` | core.js:124-132 | row 100*f + i of the global test set is test row i of client f, and the label there is that row's label |
| `Aggregation.SampleIndices` | core.js:208-210 | a client takes part iff its draw is below the threshold (both directions), and participants come out in strictly increasing client order |
| `Aggregation.FullParticipation` | core.js:208-210 | draws in [0,1) with a threshold of at least 1 select every client |
| `Aggregation.NoParticipation` | core.js:208-210 | non-negative draws with a threshold of at most 0 select nobody |
| `Aggregation.LayerwiseMean` | core.js:226-232 | averaging succeeds iff every participant has each of participant 0's layers at the same size; the result has participant 0's layer count and layer sizes |
| `Aggregation.MeanOfIdentical` | core.js:226-232 | averaging k copies of the same weights returns those weights |
| `Aggregation.MeanWithinBounds` | core.js:226-232 | every averaged entry lies between the smallest and the largest participant entry |
| `Aggregation.MeanIgnoresOrder` | core.js:226-232 | same-shaped participants listed in any order give the same averaged weights |
| `Aggregation.MeanRaisesByShare` | core.js:226-232 | every participant weighs the same: raising any one participant's entry by d raises that averaged entry by d/k (k participants) and leaves every other averaged entry unchanged |
| `Aggregation.ColumnSum` | core.js:229 | entry j of layer l summed over all participants: the `tf.addN` of that layer |
| `ChartManager.WithEpoch` | core.js:303-304 | one epoch appends the label epoch+1 and the value val_accuracy*100 |
| `ChartManager.WithRound` | core.js:310-311 | one round appends the label (number of labels so far)+1 and the value accuracy*100 |
| `ChartManager.WithEpochsAppends` | core.js:301-305 | training appends, per epoch and in order, the label epoch+1 and the value val_accuracy*100 to what the client chart held |
| `ChartManager.WithRoundKeepsNumbering` | core.js:308-312 | one recorded round adds exactly one label and one value, and labels numbered 1..n become 1..n+1 |
| `ChartManager.RoundsFromEmpty` | core.js:308-312 | after a reset, n recorded rounds leave labels 1..n and the accuracies in percent, in recording order |
| `FederatedState.LoadedCount` | core.js:355-357 | the number of leading client files that load: all before it load, the one at it fails |
| `FederatedState.Coordinator.LoadClients` | core.js:355-357 | clients 1..5 load in turn until the first failure: the number loaded is `LoadedCount`, those clients hold their files' data, the others keep theirs, and no other client field can change |
| `FederatedState.Client.constructor` | core.js:9-21 | a client starts with no data, no model, empty history, accuracy 0, not training, learning rate 0.01, 5 epochs, batch size 32 |
| `FederatedState.Coordinator.constructor` | core.js:6-32 | the initial state: five fresh clients with ids 1..5, IID mode, not loading, no global model or test set, dropout value 1.0, empty charts |
| `FederatedState.Coordinator.UpdateClientChart` | core.js:301-306 | only the given client's chart changes, by one epoch entry |
| `FederatedState.Coordinator.UpdateGlobalChart` | core.js:308-313 | the global chart gains one round entry |
| `FederatedState.Coordinator.ResetCharts` | core.js:315-325 | every client chart and the global chart end empty |
| `FederatedState.Coordinator.TrainLocalModel` | core.js:160-205 | without data nothing changes. Otherwise: the flag ends false either way; each epoch extends the chart; current accuracy is the last epoch's; an existing model is reused; success appends one run and installs the model with the fitted weights; failure leaves the history and the model reference as they were |
| `FederatedState.Coordinator.RunEpochs` | core.js:187-191 | each epoch callback in order: the client chart gains that epoch's entry and the current accuracy becomes the last epoch's; nothing else in the client changes |
| `FederatedState.Coordinator.OnTrainButton` | core.js:368-375 | a client already training is left untouched; otherwise it changes exactly as one training run says (`TrainStep`); other charts are unchanged |
| `FederatedState.Coordinator.TrainAll` | core.js:378-384 | clients 1..5 are visited in order; each one not already training is trained with its own fit outcome, and the others stay as they were |
| `FederatedState.Coordinator.ParticipantWeights` | core.js:221-223 | the participants' weights in participant order; absent iff some participant has no model |
| `FederatedState.Coordinator.AggregateModels` | core.js:207-247 | no participants: nothing changes. A participant without a model, or a shape mismatch: global model and chart unchanged. Otherwise a fresh global model holds the layer-wise mean; the chart gains one entry only if evaluation succeeds. The busy flag ends cleared |
| `FederatedState.Coordinator.FinishAggregation` | core.js:217-246 | with the busy flag set and then cleared: a failed average leaves the global model and chart alone; a successful one is installed as `InstallGlobalModel` says |
| `FederatedState.Coordinator.InstallGlobalModel` | core.js:235-240 | a fresh global model holding the averaged weights; the global chart gains the accuracy only when the model can be evaluated on the global test set |
| `FederatedState.Coordinator.LoadModeData` | core.js:354-357 | if the test set cannot be built, nothing changes. Otherwise it is installed; clients before the first failing file get their files' data and the rest keep theirs. No model, history, accuracy or flag changes |
| `FederatedState.Coordinator.OnModeButton` | core.js:346-365 | acts iff the mode differs and nothing is loading. It then sets the mode, empties all charts, reloads as `LoadModeData` says, and ends not loading; otherwise nothing changes |
| `FederatedState.Coordinator.InitializeApp` | core.js:329-342 | empty charts, then the data reload, ending not loading |
| `FederatedState.Coordinator.OnSlider` | core.js:392-407 | a client slider changes only that client's named hyperparameter; the other slider changes only the dropout value |
| `MnistSplitter.SplitFile` | data/mnist_splitter.py:43-46 | the first 1000 images and labels are the training part and the rest the test part, both columns cut at the same place |
| `MnistSplitter.IidClient` | data/mnist_splitter.py:38-46 | IID client k: both columns sliced from k*1100 to k*1100+1100 (clamped to the data), then split by `SplitFile` |
| `MnistSplitter.SplitFileRows` | data/mnist_splitter.py:43-46 | splitting the label and image columns separately keeps every label with its image; train is the first min(1000, n) rows and test the rest |
| `MnistSplitter.IidClientRows` | data/mnist_splitter.py:38-46 | IID client k holds exactly rows k*1100 up to (k+1)*1100 (clamped to the data), training rows first, each image paired with its label |
| `MnistSplitter.IidClientBlock` | data/mnist_splitter.py:38-46 | with at least 5500 rows, client k trains on rows k*1100..k*1100+999 and tests on the next 100 |
| `MnistSplitter.IidCoverage` | data/mnist_splitter.py:38-42 | the first n IID clients' rows, in client order, are exactly the first 1100*n rows: no overlap and no gap |
| `MnistSplitter.IidPartition` | data/mnist_splitter.py:38-42 | the five IID files together are exactly the first 5500 rows |
| `MnistSplitter.SplitIid` | data/mnist_splitter.py:38-47 | the IID loop writes five files, file k being IID client k |
| `MnistSplitter.RowsInGroup` | data/mnist_splitter.py:63-65 | the rows whose digit is in the group, in data order: every selected row is an in-group row of the data, and every in-group row of the data is selected |
| `MnistSplitter.RowsInGroupCounts` | data/mnist_splitter.py:63-65 | each in-group row is selected exactly as often as it occurs in the data, and no other row is selected |
| `MnistSplitter.IsIn` | data/mnist_splitter.py:63 | the `np.isin` mask: entry i is true iff label i is in the group |
| `MnistSplitter.Masked` | data/mnist_splitter.py:64-65 | boolean indexing: the elements whose mask entry is true, in order |
| `MnistSplitter.Selected` | data/mnist_splitter.py:62-70 | both columns masked with the client group's `IsIn` mask and put side by side again as rows |
| `MnistSplitter.NonIidClient` | data/mnist_splitter.py:61-77 | the selected rows reordered by the shuffle permutation, the first 1100 kept, then split by `SplitFile` |
| `MnistSplitter.MaskedColumns` | data/mnist_splitter.py:63-70 | masking labels and images with the same mask and recombining gives exactly the group's rows in order |
| `MnistSplitter.NonIidClientRows` | data/mnist_splitter.py:72-77 | a non-IID client keeps min(1100, n) shuffled rows: the first min(1000, n) train and the next ones test |
| `MnistSplitter.NonIidLabelsInGroup` | data/mnist_splitter.py:53-70 | every label in a non-IID file lies in the client's group, and every (label, image) pair is a row of the data |
| `MnistSplitter.LabelGroupsPartition` | data/mnist_splitter.py:53-59 | the groups are pairwise disjoint, digit d belongs to client d/2+1, and all labels are 0-9 |
| `MnistSplitter.NonIidClientsDisjoint` | data/mnist_splitter.py:61-65 | two different non-IID clients share no label |
| `MnistSplitter.SplitNonIid` | data/mnist_splitter.py:61-78 | the non-IID loop writes five files, file k being non-IID client k with its own shuffle |
| `Pipeline.IidFilesPassValidation` | data/mnist_splitter.py:38-47 | with at least 5500 rows of 784 pixels, every IID file passes the browser's shape check and loads |
| `Pipeline.NonIidFileValidIff` | data/mnist_splitter.py:72-77 | with 784-pixel images, a non-IID file passes the browser's shape check iff its group has at least 1100 rows |

## Left out

- TensorFlow.js is replaced by values:
  - `SimpleMLP.create`: its initial weights are a parameter.
  - `compile` and the Adam optimiser: hyperparameters are stored but do not shape the fit outcome.
  - `fit`, `evaluate`, `setWeights`, `getWeights().clone()`, `tf.tidy` and `tf.addN`:
    the layer sum is exact real addition.
  - The tensor conversion in `loadClientData` (`div(255)`, `oneHot(10)`).
- Floating-point rounding in the mean and in the `* 100` accuracy scaling: reals are used.
- DataManager.LoadClientData: a file that passes the shape check but has an image row of
  another width loads in the model. In the code, `tf.tensor2d` (core.js:93, 97) throws
  inside the `try`, so that client does not load and the reload loop stops there.
- DataManager.GlobalTestSetOf: the same gap. A test image row of another width makes
  `tf.tensor2d` at core.js:131 throw, so the code builds no test set; the model builds one.
- The epoch log is assumed to carry the two fields core.js reads, `epoch` and
  `val_accuracy`. Which keys the model library actually fills in is not modelled.
- `model.evaluate` returns scalar tensors, so `result[1]` (core.js:254) is a tensor that
  core.js:311 multiplies by 100. The model takes it to be the accuracy as a plain number.
- DOM and Chart.js are not modelled: `UI.*` (including `updateSliderValue`'s `toFixed`
  formatting), `initializeCharts`/`createChartConfig` beyond their empty series,
  `chart.update()` and event-listener binding. Error messages shown to the user become
  status values.
- `fetch` and JSON parsing are not modelled: a fetch is a given `Option<RawClientData>`.
  During a reload each client file is fetched twice, once for the global test set and
  once for the client. The model gives both fetches the same result.
- The parsing of a slider's value and of a button's text into a mode or client id is not
  modelled: the handlers receive the parsed values.
- `Math.random()` and `np.random.shuffle` are not modelled. They are given as draws and
  as permutations; the generators and seed 0 are not modelled.
- async/await interleaving is not modelled. Handlers run one after another, so the
  training flag and `isLoading` are modelled only as the values the code writes and
  tests.
- `pd.read_csv`, `print`, `os.makedirs` and `json.dump` in the splitter are not
  modelled. The loops return the files they would write, and the shuffled CSV rows are
  the input.

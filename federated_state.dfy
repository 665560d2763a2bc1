/**
 * The shared `state` of core.js and the operations that change it: local training of one
 * client (`TrainingManager.trainLocalModel`), sampling and averaging into the global model
 * (`TrainingManager.aggregateModels`), the chart histories (`ChartManager`), and the
 * handlers for the train, train-all, mode, aggregate and slider controls.
 *
 * The handlers are modelled as sequential steps. `model.fit` is given as a `FitOutcome`,
 * `model.evaluate` as an `Option<real>`, fetches as `Option<RawClientData>`, and the
 * `Math.random()` draws as a sequence; the weights a fresh `SimpleMLP` starts with are a
 * parameter as well.
 */
module FederatedState {
  import opened Options
  import opened DataManager
  import opened Aggregation
  import opened ChartManager

  const NumClients := 5

  datatype Mode = Iid | NonIid

  datatype Hyperparameters = Hyperparameters(learningRate: real, epochs: real, batchSize: real)

  /** The `data-param` names of the per-client sliders. */
  datatype HyperParam = LearningRate | Epochs | BatchSize

  const DefaultHyperparameters := Hyperparameters(0.01, 5.0, 32.0)

  /** A slider either belongs to a client card (one of its hyperparameters) or is the dropout slider. */
  datatype SliderTarget = ClientSlider(clientId: int, param: HyperParam) | DropoutSlider

  /**
   * What `model.fit` does: the epoch logs its `onEpochEnd` callback received, and the
   * weights the model object holds when `fit` returns (`Fitted`) or throws (`Threw`).
   */
  datatype FitOutcome =
    | Fitted(epochs: seq<EpochLog>, weights: Weights)
    | Threw(epochs: seq<EpochLog>, weights: Weights)

  /** The `History` object a successful `fit` returns. */
  datatype TrainRun = TrainRun(epochs: seq<EpochLog>)

  datatype TrainStatus = NoData | Trained | TrainingFailed

  datatype AggregateStatus = NoParticipants | AggregationFailed | EvaluationFailed | Aggregated(accuracy: real)

  datatype LoadStatus = AllLoaded | TestSetFailed | ClientLoadFailed(clientId: int)

  /** A TensorFlow model, seen only through its weights, which `fit` updates in place. */
  class Model {
    var weights: Weights

    constructor (w: Weights)
      ensures weights == w
    {
      weights := w;
    }
  }

  /** One entry of `state.clients`. */
  class Client {
    const id: int
    var data: Option<ClientData>
    var model: Model?
    var trainHistory: seq<TrainRun>
    var currentAccuracy: real
    var isTraining: bool
    var hyperparameters: Hyperparameters

    constructor (id: int)
      ensures this.id == id && data == None && model == null && trainHistory == []
      ensures currentAccuracy == 0.0 && !isTraining && hyperparameters == DefaultHyperparameters
    {
      this.id := id;
      data := None;
      model := null;
      trainHistory := [];
      currentAccuracy := 0.0;
      isTraining := false;
      hyperparameters := DefaultHyperparameters;
    }
  }

  /** The number of leading files (in client order) that load; the loading loop stops at the first failure. */
  function LoadedCount(files: seq<Option<RawClientData>>): (n: nat)
    ensures n <= |files|
    ensures forall j :: 0 <= j < n ==> LoadClientData(files[j]).Loaded?
    ensures n < |files| ==> LoadClientData(files[n]).LoadFailed?
  {
    if |files| == 0 || LoadClientData(files[0]).LoadFailed? then 0 else 1 + LoadedCount(files[1..])
  }

  /** The last epoch's validation accuracy, or `previous` when no epoch completed. */
  function LastAccuracy(logs: seq<EpochLog>, previous: real): real {
    if |logs| == 0 then previous else logs[|logs| - 1].valAccuracy
  }

  /** `hyperparameters[paramName] = value`. */
  function WithParam(h: Hyperparameters, param: HyperParam, value: real): Hyperparameters {
    match param
    case LearningRate => h.(learningRate := value)
    case Epochs => h.(epochs := value)
    case BatchSize => h.(batchSize := value)
  }

  /** A client's fields as values, with its model's weights when it has a model. */
  datatype ClientView = ClientView(
    data: Option<ClientData>, model: Model?, modelWeights: Option<Weights>, trainHistory: seq<TrainRun>,
    currentAccuracy: real, isTraining: bool, hyperparameters: Hyperparameters)

  function View(c: Client): ClientView
    reads c, c.model
  {
    ClientView(c.data, c.model, if c.model == null then None else Some(c.model.weights),
               c.trainHistory, c.currentAccuracy, c.isTraining, c.hyperparameters)
  }

  /**
   * What a train button does to one client and its chart: a client already training, or
   * without data, is left as it was; otherwise the epochs go to its chart, the last epoch's
   * accuracy becomes current, the flag ends cleared, a successful fit adds one run and
   * leaves the client with a model holding the fitted weights, and an existing model is
   * kept (a failed fit never installs one).
   */
  predicate TrainStep(before: ClientView, after: ClientView, chartBefore: Series, chartAfter: Series, outcome: FitOutcome) {
    if before.isTraining || before.data.None? then
      after == before && chartAfter == chartBefore
    else
      && !after.isTraining
      && after.data == before.data && after.hyperparameters == before.hyperparameters
      && chartAfter == WithEpochs(chartBefore, outcome.epochs)
      && after.currentAccuracy == LastAccuracy(outcome.epochs, before.currentAccuracy)
      && after.trainHistory == before.trainHistory + (if outcome.Fitted? then [TrainRun(outcome.epochs)] else [])
      && (before.model != null || outcome.Threw? ==> after.model == before.model)
      && (after.model != null ==> after.modelWeights == Some(outcome.weights))
      && (outcome.Fitted? ==> after.model != null)
  }

  /** The global `state` object of core.js, charts included. */
  class Coordinator {
    var currentMode: Mode
    var isLoading: bool
    const clients: seq<Client>
    var globalModel: Model?
    var globalTestSet: Option<TestSet>
    var dropoutProbability: real
    var clientCharts: seq<Series>
    var globalChart: Series

    /**
     * Five clients with ids 1..5 at positions 0..4 (so they are distinct objects), one
     * chart per client, and no model object shared by two clients or by a client and the
     * global model.
     */
    ghost predicate Valid()
      reads this`clientCharts, this`globalModel, clients`model
    {
      && |clients| == NumClients && |clientCharts| == NumClients
      && (forall i :: 0 <= i < NumClients ==> clients[i].id == i + 1)
      && (forall i, j :: 0 <= i < j < NumClients && clients[i].model != null ==> clients[i].model != clients[j].model)
      && (forall i :: 0 <= i < NumClients && clients[i].model != null ==> clients[i].model != globalModel)
    }

    /** The initial `state`, with the charts `initializeCharts` creates. */
    constructor ()
      ensures Valid()
      ensures currentMode == Iid && !isLoading && globalModel == null && globalTestSet == None
      ensures dropoutProbability == 1.0
      ensures clientCharts == seq(NumClients, _ => EmptySeries) && globalChart == EmptySeries
      ensures forall i :: 0 <= i < NumClients ==>
        && fresh(clients[i]) && clients[i].data == None && clients[i].model == null
        && clients[i].trainHistory == [] && clients[i].currentAccuracy == 0.0
        && !clients[i].isTraining && clients[i].hyperparameters == DefaultHyperparameters
    {
      var c1 := new Client(1);
      var c2 := new Client(2);
      var c3 := new Client(3);
      var c4 := new Client(4);
      var c5 := new Client(5);
      clients := [c1, c2, c3, c4, c5];
      currentMode := Iid;
      isLoading := false;
      globalModel := null;
      globalTestSet := None;
      dropoutProbability := 1.0;
      clientCharts := seq(NumClients, _ => EmptySeries);
      globalChart := EmptySeries;
    }

    /** `ChartManager.updateClientChart`. */
    method UpdateClientChart(clientId: int, log: EpochLog)
      requires 1 <= clientId <= |clientCharts|
      modifies this`clientCharts
      ensures clientCharts == old(clientCharts)[clientId - 1 := WithEpoch(old(clientCharts)[clientId - 1], log)]
    {
      clientCharts := clientCharts[clientId - 1 := WithEpoch(clientCharts[clientId - 1], log)];
    }

    /** `ChartManager.updateGlobalChart`. */
    method UpdateGlobalChart(accuracy: real)
      modifies this`globalChart
      ensures globalChart == WithRound(old(globalChart), accuracy)
    {
      globalChart := WithRound(globalChart, accuracy);
    }

    /** `ChartManager.resetCharts`: every client chart and the global chart lose all labels and values. */
    method ResetCharts()
      modifies this`clientCharts, this`globalChart
      ensures clientCharts == seq(|old(clientCharts)|, _ => EmptySeries)
      ensures globalChart == EmptySeries
    {
      for i := 0 to |clientCharts|
        invariant |clientCharts| == |old(clientCharts)|
        invariant forall j :: 0 <= j < i ==> clientCharts[j] == EmptySeries
      {
        clientCharts := clientCharts[i := EmptySeries];
      }
      globalChart := EmptySeries;
    }

    /**
     * `TrainingManager.trainLocalModel`. Without data nothing changes. Otherwise the client
     * is flagged as training for the whole fit; every epoch adds to its chart and sets its
     * current accuracy; the existing model is reused (a fresh one is made only when there
     * is none); and only a successful fit installs the model and records the run. The flag
     * is cleared whatever the outcome.
     */
    method TrainLocalModel(clientId: int, outcome: FitOutcome, initialWeights: Weights) returns (status: TrainStatus)
      requires Valid() && 1 <= clientId <= NumClients
      modifies this`clientCharts, clients[clientId - 1], clients[clientId - 1].model
      ensures Valid()
      ensures var c := clients[clientId - 1];
        if old(c.data).None? then
          && status == NoData && clientCharts == old(clientCharts)
          && c.isTraining == old(c.isTraining) && c.model == old(c.model) && c.trainHistory == old(c.trainHistory)
          && c.currentAccuracy == old(c.currentAccuracy) && c.hyperparameters == old(c.hyperparameters)
          && (c.model != null ==> c.model.weights == old(c.model.weights))
        else
          && !c.isTraining
          && c.data == old(c.data) && c.hyperparameters == old(c.hyperparameters)
          && clientCharts == old(clientCharts)[clientId - 1 := WithEpochs(old(clientCharts)[clientId - 1], outcome.epochs)]
          && c.currentAccuracy == LastAccuracy(outcome.epochs, old(c.currentAccuracy))
          && (status == Trained <==> outcome.Fitted?) && (status == TrainingFailed <==> outcome.Threw?)
          && (outcome.Fitted? ==>
                && c.trainHistory == old(c.trainHistory) + [TrainRun(outcome.epochs)]
                && c.model != null && c.model.weights == outcome.weights
                && (old(c.model) != null ==> c.model == old(c.model))
                && (old(c.model) == null ==> fresh(c.model)))
          && (outcome.Threw? ==>
                && c.trainHistory == old(c.trainHistory) && c.model == old(c.model)
                && (c.model != null ==> c.model.weights == outcome.weights))
      ensures clients[clientId - 1].data == old(clients[clientId - 1].data)
    {
      var client := clients[clientId - 1];
      if client.data.None? {
        return NoData;
      }
      client.isTraining := true;
      var model: Model;
      if client.model != null {
        model := client.model;
      } else {
        model := new Model(initialWeights);
      }
      RunEpochs(clientId, client, outcome.epochs);
      model.weights := outcome.weights;
      if outcome.Fitted? {
        client.model := model;
        client.trainHistory := client.trainHistory + [TrainRun(outcome.epochs)];
        status := Trained;
      } else {
        status := TrainingFailed;
      }
      client.isTraining := false;
    }

    /**
     * The `onEpochEnd` callbacks of one `fit`, in order: each epoch's log goes to the
     * client's chart and its validation accuracy becomes the client's current accuracy.
     */
    method RunEpochs(clientId: int, client: Client, logs: seq<EpochLog>)
      requires 1 <= clientId <= |clientCharts| && |clients| == |clientCharts| && client == clients[clientId - 1]
      modifies this`clientCharts, client`currentAccuracy
      ensures clientCharts == old(clientCharts)[clientId - 1 := WithEpochs(old(clientCharts)[clientId - 1], logs)]
      ensures client.currentAccuracy == LastAccuracy(logs, old(client.currentAccuracy))
    {
      for e := 0 to |logs|
        invariant |clientCharts| == |old(clientCharts)|
        invariant clientCharts == old(clientCharts)[clientId - 1 := WithEpochs(old(clientCharts)[clientId - 1], logs[..e])]
        invariant client.currentAccuracy == LastAccuracy(logs[..e], old(client.currentAccuracy))
      {
        assert logs[..e + 1][..e] == logs[..e];
        UpdateClientChart(clientId, logs[e]);
        client.currentAccuracy := logs[e].valAccuracy;
      }
      assert logs[..|logs|] == logs;
    }

    /** A client train button: train the client unless it is already training. */
    method OnTrainButton(clientId: int, outcome: FitOutcome, initialWeights: Weights)
      requires Valid() && 1 <= clientId <= NumClients
      modifies this`clientCharts, clients[clientId - 1], clients[clientId - 1].model
      ensures Valid()
      ensures TrainStep(old(View(clients[clientId - 1])), View(clients[clientId - 1]),
                        old(clientCharts[clientId - 1]), clientCharts[clientId - 1], outcome)
      ensures forall j :: 0 <= j < NumClients && j != clientId - 1 ==>
        clientCharts[j] == old(clientCharts[j]) && View(clients[j]) == old(View(clients[j]))
    {
      if !clients[clientId - 1].isTraining {
        var _ := TrainLocalModel(clientId, outcome, initialWeights);
      }
    }

    /** The train-all button: clients 1 to 5 in order, each trained unless already training. */
    method TrainAll(outcomes: seq<FitOutcome>, initialWeights: seq<Weights>)
      requires Valid() && |outcomes| == NumClients && |initialWeights| == NumClients
      modifies this`clientCharts, clients, set i | 0 <= i < NumClients && clients[i].model != null :: clients[i].model
      ensures Valid()
      ensures forall i :: 0 <= i < NumClients ==>
        TrainStep(old(View(clients[i])), View(clients[i]), old(clientCharts[i]), clientCharts[i], outcomes[i])
    {
      for i := 0 to NumClients
        invariant Valid()
        invariant forall j :: 0 <= j < i ==>
          TrainStep(old(View(clients[j])), View(clients[j]), old(clientCharts[j]), clientCharts[j], outcomes[j])
        invariant forall j :: i <= j < NumClients ==> View(clients[j]) == old(View(clients[j])) && clientCharts[j] == old(clientCharts[j])
        invariant forall j :: i <= j < NumClients && clients[j].model != null ==> clients[j].model == old(clients[j].model)
      {
        OnTrainButton(i + 1, outcomes[i], initialWeights[i]);
      }
    }

    /**
     * The weights of the clients at the positions `idx`, in that order; `None` when one of
     * them has no model, where `client.model.getWeights()` throws.
     */
    function ParticipantWeights(idx: seq<nat>): (r: Option<seq<Weights>>)
      requires forall j :: 0 <= j < |idx| ==> idx[j] < |clients|
      reads clients, set i | 0 <= i < |clients| && clients[i].model != null :: clients[i].model
      ensures r.Some? <==> forall j :: 0 <= j < |idx| ==> clients[idx[j]].model != null
      ensures r.Some? ==> |r.value| == |idx| && forall j :: 0 <= j < |idx| ==> r.value[j] == clients[idx[j]].model.weights
    {
      if |idx| == 0 then Some([])
      else
        match ParticipantWeights(idx[..|idx| - 1])
        case None => None
        case Some(ws) =>
          var m := clients[idx[|idx| - 1]].model;
          if m == null then None else Some(ws + [m.weights])
    }

    /**
     * `TrainingManager.aggregateModels`. The participants are the clients whose draw is
     * below `dropoutProbability`. With none, nothing changes. If a participant has no model
     * or the layer shapes do not match, the global model and chart stay as they were.
     * Otherwise a fresh global model gets the layer-wise mean of the participants' weights;
     * when it can be evaluated, the accuracy is appended to the global chart. The busy flag
     * ends cleared in every case but the first.
     */
    method AggregateModels(draws: seq<real>, evaluation: Option<real>) returns (status: AggregateStatus)
      requires Valid() && |draws| == NumClients
      modifies this`globalModel, this`globalChart, this`isLoading
      ensures Valid()
      ensures var idx := old(SampleIndices(draws, dropoutProbability));
        var ws := old(ParticipantWeights(idx));
        if |idx| == 0 then
          && status == NoParticipants && globalModel == old(globalModel) && globalChart == old(globalChart)
          && isLoading == old(isLoading)
        else if ws.None? || LayerwiseMean(ws.value).None? then
          && status == AggregationFailed && globalModel == old(globalModel) && globalChart == old(globalChart)
          && !isLoading
        else
          && fresh(globalModel) && globalModel.weights == LayerwiseMean(ws.value).value && !isLoading
          && if globalTestSet.Some? && evaluation.Some? then
               status == Aggregated(evaluation.value) && globalChart == WithRound(old(globalChart), evaluation.value)
             else
               status == EvaluationFailed && globalChart == old(globalChart)
    {
      var idx := SampleIndices(draws, dropoutProbability);
      if |idx| == 0 {
        return NoParticipants;
      }
      var ws := ParticipantWeights(idx);
      var averaged := if ws.None? then None else LayerwiseMean(ws.value);
      status := FinishAggregation(averaged, evaluation);
    }

    /**
     * The `try`/`finally` of `aggregateModels` once the participants are known: with the
     * busy flag set, a successful average becomes a fresh global model (`InstallGlobalModel`);
     * a failed one (`None`) leaves the global model and chart alone. The flag ends cleared.
     */
    method FinishAggregation(averaged: Option<Weights>, evaluation: Option<real>) returns (status: AggregateStatus)
      requires Valid()
      modifies this`globalModel, this`globalChart, this`isLoading
      ensures Valid() && !isLoading
      ensures averaged.None? ==>
        status == AggregationFailed && globalModel == old(globalModel) && globalChart == old(globalChart)
      ensures averaged.Some? ==>
        && fresh(globalModel) && globalModel.weights == averaged.value
        && if globalTestSet.Some? && evaluation.Some? then
             status == Aggregated(evaluation.value) && globalChart == WithRound(old(globalChart), evaluation.value)
           else
             status == EvaluationFailed && globalChart == old(globalChart)
    {
      isLoading := true;
      if averaged.Some? {
        status := InstallGlobalModel(averaged.value, evaluation);
      } else {
        status := AggregationFailed;
      }
      isLoading := false;
    }

    /**
     * `state.globalModel = SimpleMLP.create()` with the averaged weights, then
     * `evaluateGlobalModel` and `updateGlobalChart`: the chart gains the accuracy only when
     * the model can be evaluated on the global test set.
     */
    method InstallGlobalModel(averaged: Weights, evaluation: Option<real>) returns (status: AggregateStatus)
      requires Valid()
      modifies this`globalModel, this`globalChart
      ensures Valid()
      ensures fresh(globalModel) && globalModel.weights == averaged
      ensures if globalTestSet.Some? && evaluation.Some? then
          status == Aggregated(evaluation.value) && globalChart == WithRound(old(globalChart), evaluation.value)
        else
          status == EvaluationFailed && globalChart == old(globalChart)
    {
      globalModel := new Model(averaged);
      if globalTestSet.Some? && evaluation.Some? {
        UpdateGlobalChart(evaluation.value);
        status := Aggregated(evaluation.value);
      } else {
        status := EvaluationFailed;
      }
    }

    /**
     * The effect of loading a mode's data on the test set and the clients' data: when the
     * global test set cannot be built, neither changes; otherwise it is installed, and the
     * clients before the first file that fails to load get that file's data while the rest
     * keep theirs. (The methods that reload may modify only `clients`data` among the
     * clients' fields, so models, histories, accuracies and flags stay as they were.)
     */
    twostate predicate DataReloaded(files: seq<Option<RawClientData>>, status: LoadStatus)
      requires |files| == NumClients && |clients| == NumClients
      reads this`globalTestSet, clients`data
    {
      if GlobalTestSetOf(files).None? then
        && status == TestSetFailed && globalTestSet == old(globalTestSet)
        && forall i :: 0 <= i < NumClients ==> clients[i].data == old(clients[i].data)
      else
        var n := LoadedCount(files);
        && globalTestSet == GlobalTestSetOf(files)
        && status == (if n == NumClients then AllLoaded else ClientLoadFailed(n + 1))
        && (forall i :: 0 <= i < n ==> clients[i].data == Some(LoadClientData(files[i]).data))
        && (forall i :: n <= i < NumClients ==> clients[i].data == old(clients[i].data))
    }

    /**
     * `loadClientData` for clients 1 to 5 in turn: each client whose file loads gets its
     * data, and the first failure ends the loop. Returns how many clients were loaded.
     */
    method LoadClients(files: seq<Option<RawClientData>>) returns (n: nat)
      requires Valid() && |files| == NumClients
      modifies clients`data
      ensures n == LoadedCount(files)
      ensures forall i :: 0 <= i < n ==> clients[i].data == Some(LoadClientData(files[i]).data)
      ensures forall i :: n <= i < NumClients ==> clients[i].data == old(clients[i].data)
    {
      n := 0;
      while n < NumClients && LoadClientData(files[n]).Loaded?
        invariant n <= NumClients
        invariant forall j :: 0 <= j < n ==>
          LoadClientData(files[j]).Loaded? && clients[j].data == Some(LoadClientData(files[j]).data)
        invariant forall j :: n <= j < NumClients ==> clients[j].data == old(clients[j].data)
      {
        clients[n].data := Some(LoadClientData(files[n]).data);
        n := n + 1;
      }
    }

    /** `initializeGlobalTestSet`, then the client loads when it succeeds. */
    method LoadModeData(files: seq<Option<RawClientData>>) returns (status: LoadStatus)
      requires Valid() && |files| == NumClients
      modifies this`globalTestSet, clients`data
      ensures Valid()
      ensures DataReloaded(files, status)
    {
      var testSet := InitializeGlobalTestSet(files);
      if testSet.None? {
        return TestSetFailed;
      }
      globalTestSet := testSet;
      var n := LoadClients(files);
      status := if n == NumClients then AllLoaded else ClientLoadFailed(n + 1);
    }

    /**
     * A mode button: only when the mode changes and nothing is loading, set the mode, clear
     * every chart and load the new mode's data. The reload is not all-or-nothing and the
     * mode stays switched when it fails.
     */
    method OnModeButton(newMode: Mode, files: seq<Option<RawClientData>>) returns (status: Option<LoadStatus>)
      requires Valid() && |files| == NumClients
      modifies this`currentMode, this`isLoading, this`clientCharts, this`globalChart, this`globalTestSet, clients`data
      ensures Valid()
      ensures status.None? <==> old(newMode == currentMode || isLoading)
      ensures status.None? ==>
        && currentMode == old(currentMode) && isLoading == old(isLoading)
        && clientCharts == old(clientCharts) && globalChart == old(globalChart) && globalTestSet == old(globalTestSet)
        && forall i :: 0 <= i < NumClients ==> View(clients[i]) == old(View(clients[i]))
      ensures status.Some? ==>
        && currentMode == newMode && !isLoading
        && clientCharts == seq(NumClients, _ => EmptySeries) && globalChart == EmptySeries
        && DataReloaded(files, status.value)
    {
      if newMode != currentMode && !isLoading {
        isLoading := true;
        currentMode := newMode;
        ResetCharts();
        var loaded := LoadModeData(files);
        isLoading := false;
        status := Some(loaded);
      } else {
        status := None;
      }
    }

    /** `initializeApp`: fresh empty charts, then the IID data for every client. */
    method InitializeApp(files: seq<Option<RawClientData>>) returns (status: LoadStatus)
      requires Valid() && |files| == NumClients
      modifies this`isLoading, this`clientCharts, this`globalChart, this`globalTestSet, clients`data
      ensures Valid() && !isLoading
      ensures clientCharts == seq(NumClients, _ => EmptySeries) && globalChart == EmptySeries
      ensures DataReloaded(files, status)
    {
      isLoading := true;
      ResetCharts();
      status := LoadModeData(files);
      isLoading := false;
    }

    /** A slider: a client card's slider sets that client's hyperparameter, the other one the dropout value. */
    method OnSlider(target: SliderTarget, value: real)
      requires Valid() && (target.ClientSlider? ==> 1 <= target.clientId <= NumClients)
      modifies this`dropoutProbability, clients
      ensures Valid()
      ensures target.DropoutSlider? ==>
        dropoutProbability == value && forall i :: 0 <= i < NumClients ==> View(clients[i]) == old(View(clients[i]))
      ensures target.ClientSlider? ==>
        && dropoutProbability == old(dropoutProbability)
        && forall i :: 0 <= i < NumClients ==>
             View(clients[i]) == old(View(clients[i])).(hyperparameters :=
               if i == target.clientId - 1 then WithParam(old(clients[i].hyperparameters), target.param, value)
               else old(clients[i].hyperparameters))
    {
      if target.ClientSlider? {
        var c := clients[target.clientId - 1];
        c.hyperparameters := WithParam(c.hyperparameters, target.param, value);
      } else {
        dropoutProbability := value;
      }
    }
  }
}

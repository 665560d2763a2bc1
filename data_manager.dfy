/**
 * The data side of the browser app (core.js, class DataManager): the shape check that
 * every fetched client file must pass, the load of one client's file, and the shared
 * test set built by concatenating all five clients' test parts.
 *
 * Fetching and JSON parsing are I/O: a fetch is given as an `Option<RawClientData>`,
 * `None` standing for an HTTP error, a network failure or a body that is not JSON.
 * Conversion to tensors (`div(255)`, `oneHot(10)`) is not part of this model.
 */
module DataManager {
  import opened Options
  import opened Digits

  /** One fetched client file: the four JSON fields, each `None` when the file lacks it. */
  datatype RawClientData = RawClientData(
    xTrain: Option<seq<Image>>,
    yTrain: Option<seq<int>>,
    xTest: Option<seq<Image>>,
    yTest: Option<seq<int>>)

  /** A client's data once it has passed the shape check. */
  datatype ClientData = ClientData(trainX: seq<Image>, trainY: seq<int>, testX: seq<Image>, testY: seq<int>)

  datatype LoadError = FetchFailed | InvalidDataStructure

  datatype LoadResult = Loaded(data: ClientData) | LoadFailed(error: LoadError)

  /** The global evaluation set: every client's x_test and y_test, concatenated in client order. */
  datatype TestSet = TestSet(x: seq<Image>, y: seq<int>)

  const TrainRows := 1000
  const TestRows := 100
  const Features := 784

  /**
   * `validateDataStructure`: all four fields present, 1000 training rows and labels,
   * 100 test rows and labels, and a first row of 784 features in each image set.
   * Only row 0 of each image set has its width checked.
   */
  predicate ValidateDataStructure(d: RawClientData) {
    && d.xTrain.Some? && d.yTrain.Some? && d.xTest.Some? && d.yTest.Some?
    && |d.xTrain.value| == TrainRows && |d.xTrain.value[0]| == Features
    && |d.yTrain.value| == TrainRows
    && |d.xTest.value| == TestRows && |d.xTest.value[0]| == Features
    && |d.yTest.value| == TestRows
  }

  /** A file whose second training row is empty still passes the shape check. */
  lemma RaggedFilePassesValidation()
    ensures exists d :: ValidateDataStructure(d) && |d.xTrain.value[1]| != Features
  {
    var row := seq(Features, _ => 0);
    var train := seq(TrainRows, i => if i == 1 then [] else row);
    var test := seq(TestRows, _ => row);
    var d := RawClientData(Some(train), Some(seq(TrainRows, _ => 0)), Some(test), Some(seq(TestRows, _ => 0)));
    assert ValidateDataStructure(d) && |d.xTrain.value[1]| != Features;
  }

  /**
   * `loadClientData` after the fetch: a failed fetch and a file that fails the shape check
   * are both errors; otherwise the client gets the file's four fields unchanged.
   */
  function LoadClientData(fetched: Option<RawClientData>): (r: LoadResult)
    ensures r.Loaded? <==> fetched.Some? && ValidateDataStructure(fetched.value)
    ensures r.LoadFailed? ==> (r.error == FetchFailed <==> fetched.None?)
    ensures r.Loaded? ==>
      && |r.data.trainX| == TrainRows && |r.data.trainY| == TrainRows
      && |r.data.testX| == TestRows && |r.data.testY| == TestRows
      && |r.data.trainX[0]| == Features && |r.data.testX[0]| == Features
    ensures r.Loaded? ==>
      && Some(r.data.trainX) == fetched.value.xTrain && Some(r.data.trainY) == fetched.value.yTrain
      && Some(r.data.testX) == fetched.value.xTest && Some(r.data.testY) == fetched.value.yTest
  {
    match fetched
    case None => LoadFailed(FetchFailed)
    case Some(d) =>
      if ValidateDataStructure(d) then
        Loaded(ClientData(d.xTrain.value, d.yTrain.value, d.xTest.value, d.yTest.value))
      else
        LoadFailed(InvalidDataStructure)
  }

  /** A fetched file from which the test set can take both test fields. */
  predicate HasTestFields(f: Option<RawClientData>) {
    f.Some? && f.value.xTest.Some? && f.value.yTest.Some?
  }

  predicate AllHaveTestFields(files: seq<Option<RawClientData>>) {
    forall i :: 0 <= i < |files| ==> HasTestFields(files[i])
  }

  function ConcatTestX(files: seq<Option<RawClientData>>): seq<Image>
    requires AllHaveTestFields(files)
  {
    if |files| == 0 then [] else ConcatTestX(files[..|files| - 1]) + files[|files| - 1].value.xTest.value
  }

  function ConcatTestY(files: seq<Option<RawClientData>>): seq<int>
    requires AllHaveTestFields(files)
  {
    if |files| == 0 then [] else ConcatTestY(files[..|files| - 1]) + files[|files| - 1].value.yTest.value
  }

  /**
   * The test set that `initializeGlobalTestSet` builds from the clients' files: it fails
   * when any fetch fails or any file lacks a test field (the spread of a missing field
   * throws); the shape check is not applied here.
   */
  function GlobalTestSetOf(files: seq<Option<RawClientData>>): Option<TestSet> {
    if AllHaveTestFields(files) then Some(TestSet(ConcatTestX(files), ConcatTestY(files))) else None
  }

  /** `initializeGlobalTestSet`: one fetch per client, appending its test rows and labels. */
  method InitializeGlobalTestSet(files: seq<Option<RawClientData>>) returns (r: Option<TestSet>)
    requires |files| == 5
    ensures r == GlobalTestSetOf(files)
  {
    var allTestX: seq<Image> := [];
    var allTestY: seq<int> := [];
    for i := 0 to 5
      invariant AllHaveTestFields(files[..i])
      invariant allTestX == ConcatTestX(files[..i]) && allTestY == ConcatTestY(files[..i])
    {
      var f := files[i];
      if !HasTestFields(f) {
        assert !AllHaveTestFields(files) by { assert !HasTestFields(files[i]); }
        return None;
      }
      allTestX := allTestX + f.value.xTest.value;
      allTestY := allTestY + f.value.yTest.value;
      assert files[..i + 1][..i] == files[..i];
    }
    assert files[..5] == files;
    r := Some(TestSet(allTestX, allTestY));
  }

  /** A fetch that succeeded with a file passing the shape check. */
  predicate ValidFile(f: Option<RawClientData>) {
    f.Some? && ValidateDataStructure(f.value)
  }

  /** When every file passes the shape check, the global test set has 100 rows and labels per file. */
  lemma {:induction false} GlobalTestSetSize(files: seq<Option<RawClientData>>)
    requires forall i :: 0 <= i < |files| ==> ValidFile(files[i])
    ensures GlobalTestSetOf(files).Some?
    ensures |GlobalTestSetOf(files).value.x| == TestRows * |files|
    ensures |GlobalTestSetOf(files).value.y| == TestRows * |files|
  {
    assert AllHaveTestFields(files) by {
      forall i | 0 <= i < |files| ensures HasTestFields(files[i]) { assert ValidFile(files[i]); }
    }
    if |files| > 0 {
      var init := files[..|files| - 1];
      GlobalTestSetSize(init);
      assert ValidFile(files[|files| - 1]);
    }
  }

  /**
   * When every file passes the shape check, row 100*f + i of the global test set is row i
   * of client f's test part, and the label at that position is that row's label.
   */
  lemma {:induction false} GlobalTestSetRows(files: seq<Option<RawClientData>>, f: nat, i: nat)
    requires forall j :: 0 <= j < |files| ==> ValidFile(files[j])
    requires f < |files| && i < TestRows
    ensures GlobalTestSetOf(files).Some?
    ensures |files[f].value.xTest.value| == TestRows && |files[f].value.yTest.value| == TestRows
    ensures |GlobalTestSetOf(files).value.x| == |GlobalTestSetOf(files).value.y| == TestRows * |files|
    ensures GlobalTestSetOf(files).value.x[TestRows * f + i] == files[f].value.xTest.value[i]
    ensures GlobalTestSetOf(files).value.y[TestRows * f + i] == files[f].value.yTest.value[i]
  {
    GlobalTestSetSize(files);
    assert ValidFile(files[f]);
    var init := files[..|files| - 1];
    assert forall j :: 0 <= j < |init| ==> init[j] == files[j];
    GlobalTestSetSize(init);
    var last := files[|files| - 1];
    assert ValidFile(last);
    assert ConcatTestX(files) == ConcatTestX(init) + last.value.xTest.value;
    assert ConcatTestY(files) == ConcatTestY(init) + last.value.yTest.value;
    if f < |files| - 1 {
      GlobalTestSetRows(init, f, i);
    }
  }
}

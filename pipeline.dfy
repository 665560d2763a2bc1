/**
 * Where the two halves meet: the files data/mnist_splitter.py writes are the files the
 * browser fetches and checks with `validateDataStructure` (core.js).
 */
module Pipeline {
  import opened Options
  import DataManager
  import MnistSplitter

  /** A file written by `save_client_data`, as the browser reads it back: all four fields present. */
  function AsFetched(f: MnistSplitter.ClientFile): DataManager.RawClientData {
    DataManager.RawClientData(Some(f.xTrain), Some(f.yTrain), Some(f.xTest), Some(f.yTest))
  }

  /** Every image of the CSV has 784 pixels. */
  predicate AllImagesWide(rows: seq<MnistSplitter.Row>) {
    forall i :: 0 <= i < |rows| ==> |rows[i].pixels| == DataManager.Features
  }

  /** With at least 5500 rows of 784 pixels, every IID file passes the browser's shape check and loads. */
  lemma IidFilesPassValidation(rows: seq<MnistSplitter.Row>, clientIdx: nat)
    requires clientIdx < MnistSplitter.NumClients
    requires |rows| >= MnistSplitter.NumClients * MnistSplitter.SamplesPerClient && AllImagesWide(rows)
    ensures DataManager.ValidateDataStructure(AsFetched(MnistSplitter.IidClient(rows, clientIdx)))
    ensures DataManager.LoadClientData(Some(AsFetched(MnistSplitter.IidClient(rows, clientIdx)))).Loaded?
  {
    var f := MnistSplitter.IidClient(rows, clientIdx);
    var s := clientIdx * MnistSplitter.SamplesPerClient;
    MnistSplitter.IidClientBlock(rows, clientIdx);
    assert MnistSplitter.Zip(f.yTrain, f.xTrain)[0] == rows[s];
    assert MnistSplitter.Zip(f.yTest, f.xTest)[0] == rows[s + MnistSplitter.TrainSamplesPerClient];
  }

  /**
   * With images of 784 pixels, a non-IID file passes the browser's shape check exactly
   * when its label group has at least 1100 rows.
   */
  lemma NonIidFileValidIff(rows: seq<MnistSplitter.Row>, clientIdx: int, perm: seq<nat>)
    requires clientIdx in MnistSplitter.LabelGroups
    requires MnistSplitter.IsPermutation(perm, |MnistSplitter.Selected(rows, clientIdx)|)
    requires AllImagesWide(rows)
    ensures DataManager.ValidateDataStructure(AsFetched(MnistSplitter.NonIidClient(rows, clientIdx, perm)))
        <==> |MnistSplitter.Selected(rows, clientIdx)| >= MnistSplitter.SamplesPerClient
  {
    var f := MnistSplitter.NonIidClient(rows, clientIdx, perm);
    MnistSplitter.NonIidClientRows(rows, clientIdx, perm);
    MnistSplitter.NonIidLabelsInGroup(rows, clientIdx, perm);
    if |MnistSplitter.Selected(rows, clientIdx)| >= MnistSplitter.SamplesPerClient {
      assert MnistSplitter.Zip(f.yTrain, f.xTrain)[0] in rows;
      assert MnistSplitter.Zip(f.yTest, f.xTest)[0] in rows;
    }
  }
}

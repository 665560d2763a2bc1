/**
 * The partitioner of data/mnist_splitter.py: from the shuffled MNIST rows it builds the
 * five clients' files, once IID (contiguous blocks) and once non-IID (each client only the
 * rows whose label is in its group of two digits).
 *
 * The CSV rows after `np.random.shuffle` are the input; the shuffle of each non-IID
 * client's rows is given as a permutation of their positions. Writing the JSON files is
 * I/O: the loops collect the files they would write, in order.
 */
module MnistSplitter {
  import opened Digits

  /** One CSV row: column 0 is the label (the digit), the rest the pixels. */
  datatype Row = Row(digit: int, pixels: Image)

  /** The four arrays `save_client_data` writes for one client. */
  datatype ClientFile = ClientFile(xTrain: seq<Image>, yTrain: seq<int>, xTest: seq<Image>, yTest: seq<int>)

  const NumClients: nat := 5
  const SamplesPerClient: nat := 1100
  const TrainSamplesPerClient: nat := 1000
  const TestSamplesPerClient: nat := 100

  /** `label_groups`: the two digits each non-IID client receives. */
  const LabelGroups: map<int, seq<int>> := map[1 := [0, 1], 2 := [2, 3], 3 := [4, 5], 4 := [6, 7], 5 := [8, 9]]

  /** `df[:, 0]` */
  function Labels(rows: seq<Row>): seq<int> {
    seq(|rows|, i requires 0 <= i < |rows| => rows[i].digit)
  }

  /** `df[:, 1:]` */
  function Images(rows: seq<Row>): seq<Image> {
    seq(|rows|, i requires 0 <= i < |rows| => rows[i].pixels)
  }

  /** `np.c_[labels, images]`: label i next to image i. */
  function Zip(labels: seq<int>, images: seq<Image>): seq<Row>
    requires |labels| == |images|
  {
    seq(|labels|, i requires 0 <= i < |labels| => Row(labels[i], images[i]))
  }

  /** `s[:n]`: at most the first n elements. */
  function Take<T>(s: seq<T>, n: nat): seq<T> {
    if |s| <= n then s else s[..n]
  }

  /** `s[n:]`: what follows the first n elements, empty when there are not more than n. */
  function Drop<T>(s: seq<T>, n: nat): seq<T> {
    if |s| <= n then [] else s[n..]
  }

  /** `s[lo:hi]` with the end clamped to the length, as NumPy slices are. */
  function Slice<T>(s: seq<T>, lo: nat, hi: nat): seq<T>
    requires lo <= hi
  {
    Take(Drop(s, lo), hi - lo)
  }

  /** The first 1000 rows are for training and the rest for testing. */
  function SplitFile(images: seq<Image>, labels: seq<int>): ClientFile {
    ClientFile(Take(images, TrainSamplesPerClient), Take(labels, TrainSamplesPerClient),
               Drop(images, TrainSamplesPerClient), Drop(labels, TrainSamplesPerClient))
  }

  /** IID client `clientIdx` (0-based): rows clientIdx*1100 up to (clientIdx+1)*1100, images and labels sliced alike. */
  function IidClient(rows: seq<Row>, clientIdx: nat): ClientFile {
    var labels := Labels(rows);
    var images := Images(rows);
    var startIdx := clientIdx * SamplesPerClient;
    var endIdx := startIdx + SamplesPerClient;
    SplitFile(Slice(images, startIdx, endIdx), Slice(labels, startIdx, endIdx))
  }

  /** A file whose images and labels pair up, part by part. */
  predicate Paired(f: ClientFile) {
    |f.xTrain| == |f.yTrain| && |f.xTest| == |f.yTest|
  }

  /** The rows a file holds: its training rows, then its test rows, each image next to its label. */
  function FileRows(f: ClientFile): seq<Row>
    requires Paired(f)
  {
    Zip(f.yTrain, f.xTrain) + Zip(f.yTest, f.xTest)
  }

  lemma ZipOfColumns(rows: seq<Row>)
    ensures Zip(Labels(rows), Images(rows)) == rows
  {
  }

  lemma ColumnsOfTake(rows: seq<Row>, n: nat)
    ensures Labels(Take(rows, n)) == Take(Labels(rows), n) && Images(Take(rows, n)) == Take(Images(rows), n)
  {
  }

  lemma ColumnsOfDrop(rows: seq<Row>, n: nat)
    ensures Labels(Drop(rows, n)) == Drop(Labels(rows), n) && Images(Drop(rows, n)) == Drop(Images(rows), n)
  {
  }

  /** Splitting the labels and the images separately keeps each label with its image. */
  lemma SplitFileRows(rows: seq<Row>)
    ensures Paired(SplitFile(Images(rows), Labels(rows)))
    ensures FileRows(SplitFile(Images(rows), Labels(rows))) == rows
    ensures |SplitFile(Images(rows), Labels(rows)).yTrain| == if |rows| <= TrainSamplesPerClient then |rows| else TrainSamplesPerClient
  {
    ColumnsOfTake(rows, TrainSamplesPerClient);
    ColumnsOfDrop(rows, TrainSamplesPerClient);
    ZipOfColumns(Take(rows, TrainSamplesPerClient));
    ZipOfColumns(Drop(rows, TrainSamplesPerClient));
    if |rows| > TrainSamplesPerClient {
      assert rows[..TrainSamplesPerClient] + rows[TrainSamplesPerClient..] == rows;
    }
  }

  /**
   * IID client k holds exactly the rows k*1100 up to (k+1)*1100 (fewer when the data runs
   * out), training rows first: the i-th training image stays next to the i-th training
   * label, and likewise for the test part.
   */
  lemma IidClientRows(rows: seq<Row>, clientIdx: nat)
    ensures Paired(IidClient(rows, clientIdx))
    ensures FileRows(IidClient(rows, clientIdx))
         == Slice(rows, clientIdx * SamplesPerClient, clientIdx * SamplesPerClient + SamplesPerClient)
  {
    var startIdx := clientIdx * SamplesPerClient;
    var endIdx := startIdx + SamplesPerClient;
    var block := Slice(rows, startIdx, endIdx);
    ColumnsOfDrop(rows, startIdx);
    ColumnsOfTake(Drop(rows, startIdx), SamplesPerClient);
    SplitFileRows(block);
  }

  /**
   * With at least 5500 rows, IID client k (0-based) trains on rows k*1100 .. k*1100+999
   * and tests on rows k*1100+1000 .. k*1100+1099.
   */
  lemma IidClientBlock(rows: seq<Row>, clientIdx: nat)
    requires clientIdx < NumClients && |rows| >= NumClients * SamplesPerClient
    ensures var f := IidClient(rows, clientIdx);
      var s := clientIdx * SamplesPerClient;
      && |f.xTrain| == |f.yTrain| == TrainSamplesPerClient && |f.xTest| == |f.yTest| == TestSamplesPerClient
      && Zip(f.yTrain, f.xTrain) == rows[s..s + TrainSamplesPerClient]
      && Zip(f.yTest, f.xTest) == rows[s + TrainSamplesPerClient..s + SamplesPerClient]
  {
    var s := clientIdx * SamplesPerClient;
    var f := IidClient(rows, clientIdx);
    IidClientRows(rows, clientIdx);
    assert Slice(rows, s, s + SamplesPerClient) == rows[s..s + SamplesPerClient];
    var train := Zip(f.yTrain, f.xTrain);
    var test := Zip(f.yTest, f.xTest);
    SplitFileRows(rows[s..s + SamplesPerClient]);
    assert |train| == TrainSamplesPerClient;
    assert train + test == rows[s..s + SamplesPerClient];
    assert train == (train + test)[..TrainSamplesPerClient];
    assert test == (train + test)[TrainSamplesPerClient..];
  }

  /** The rows of the first n IID clients, in client order. */
  function IidRowsUpTo(rows: seq<Row>, n: nat): seq<Row> {
    if n == 0 then []
    else
      IidClientRows(rows, n - 1);
      IidRowsUpTo(rows, n - 1) + FileRows(IidClient(rows, n - 1))
  }

  /** A prefix followed by the next slice is a longer prefix. */
  lemma TakeThenSlice<T>(s: seq<T>, lo: nat, len: nat)
    ensures Take(s, lo) + Slice(s, lo, lo + len) == Take(s, lo + len)
  {
    if |s| > lo {
      assert Drop(s, lo) == s[lo..];
      if |s| > lo + len {
        assert s[lo..][..len] == s[lo..lo + len];
        assert s[..lo] + s[lo..lo + len] == s[..lo + len];
      } else {
        assert s[..lo] + s[lo..] == s;
      }
    }
  }

  /**
   * The IID clients' rows, one client after the other, are exactly the first 1100 * n
   * rows (all of them if there are fewer): no row goes to two clients and none below
   * that bound is skipped.
   */
  lemma {:induction false} IidCoverage(rows: seq<Row>, n: nat)
    ensures IidRowsUpTo(rows, n) == Take(rows, n * SamplesPerClient)
  {
    if n > 0 {
      IidCoverage(rows, n - 1);
      IidClientRows(rows, n - 1);
      var lo := (n - 1) * SamplesPerClient;
      assert n * SamplesPerClient == lo + SamplesPerClient;
      TakeThenSlice(rows, lo, SamplesPerClient);
    }
  }

  /** The five IID files together hold exactly the first 5500 shuffled rows (all rows if there are fewer). */
  lemma IidPartition(rows: seq<Row>)
    ensures IidRowsUpTo(rows, NumClients) == Take(rows, 5500)
  {
    IidCoverage(rows, NumClients);
  }

  /** The IID loop: client files 1 to 5, in order. */
  method SplitIid(rows: seq<Row>) returns (files: seq<ClientFile>)
    ensures |files| == NumClients
    ensures forall k :: 0 <= k < NumClients ==> files[k] == IidClient(rows, k)
  {
    files := [];
    for clientIdx := 0 to NumClients
      invariant files == seq(clientIdx, (k: nat) requires k < clientIdx => IidClient(rows, k))
    {
      files := files + [IidClient(rows, clientIdx)];
    }
  }


  // Non-IID partition

  /** `np.isin(labels, group)` */
  function IsIn(labels: seq<int>, group: seq<int>): seq<bool> {
    seq(|labels|, i requires 0 <= i < |labels| => labels[i] in group)
  }

  /** `xs[mask]`: the elements whose mask entry is true, in order. */
  function Masked<T>(xs: seq<T>, mask: seq<bool>): seq<T>
    requires |xs| == |mask|
  {
    if |xs| == 0 then [] else (if mask[0] then [xs[0]] else []) + Masked(xs[1..], mask[1..])
  }

  /**
   * The rows whose label is in `group`, in their original order: every selected row is
   * an in-group row of the data, and every in-group row of the data is selected.
   */
  function RowsInGroup(rows: seq<Row>, group: seq<int>): (r: seq<Row>)
    ensures forall i :: 0 <= i < |r| ==> r[i] in rows && r[i].digit in group
    ensures forall i :: 0 <= i < |rows| && rows[i].digit in group ==> rows[i] in r
  {
    if |rows| == 0 then []
    else
      var rest := RowsInGroup(rows[1..], group);
      assert forall i :: 0 <= i < |rest| ==> rest[i] in rows;
      assert forall i :: 1 <= i < |rows| ==> rows[i] == rows[1..][i - 1];
      (if rows[0].digit in group then [rows[0]] else []) + rest
  }

  /** Each in-group row is selected exactly as many times as it occurs in the data, and no other row is. */
  lemma {:induction false} RowsInGroupCounts(rows: seq<Row>, group: seq<int>)
    ensures forall x :: multiset(RowsInGroup(rows, group))[x] == if x.digit in group then multiset(rows)[x] else 0
  {
    if |rows| > 0 {
      RowsInGroupCounts(rows[1..], group);
      assert rows == [rows[0]] + rows[1..];
    }
  }

  /**
   * Masking the label column and the image column with the same mask, then putting them
   * side by side again, gives the rows whose label is in the group: no label is separated
   * from its image.
   */
  lemma {:induction false} MaskedColumns(rows: seq<Row>, group: seq<int>)
    ensures |Masked(Labels(rows), IsIn(Labels(rows), group))| == |Masked(Images(rows), IsIn(Labels(rows), group))|
    ensures Zip(Masked(Labels(rows), IsIn(Labels(rows), group)), Masked(Images(rows), IsIn(Labels(rows), group)))
         == RowsInGroup(rows, group)
  {
    if |rows| > 0 {
      var tail := rows[1..];
      MaskedColumns(tail, group);
      var mask := IsIn(Labels(rows), group);
      assert Labels(rows)[1..] == Labels(tail);
      assert Images(rows)[1..] == Images(tail);
      assert mask[1..] == IsIn(Labels(tail), group);
      var ys := Masked(Labels(tail), IsIn(Labels(tail), group));
      var xs := Masked(Images(tail), IsIn(Labels(tail), group));
      var y0: seq<int> := if mask[0] then [rows[0].digit] else [];
      var x0: seq<Image> := if mask[0] then [rows[0].pixels] else [];
      assert Masked(Labels(rows), mask) == y0 + ys;
      assert Masked(Images(rows), mask) == x0 + xs;
      ZipAppend(y0, ys, x0, xs);
      assert Zip(y0, x0) == if rows[0].digit in group then [rows[0]] else [];
    }
  }

  /** Zipping two concatenations of equally long parts zips part by part. */
  lemma ZipAppend(ys: seq<int>, ys': seq<int>, xs: seq<Image>, xs': seq<Image>)
    requires |ys| == |xs| && |ys'| == |xs'|
    ensures Zip(ys + ys', xs + xs') == Zip(ys, xs) + Zip(ys', xs')
  {
  }

  /** An arrangement of the positions 0 .. n-1, each exactly once: what a shuffle does. */
  predicate IsPermutation(perm: seq<nat>, n: nat) {
    && |perm| == n
    && (forall i :: 0 <= i < n ==> perm[i] < n)
    && (forall i, j :: 0 <= i < j < n ==> perm[i] != perm[j])
  }

  /** The rows after the shuffle: position i gets the row from position perm[i]. */
  function Permuted<T>(xs: seq<T>, perm: seq<nat>): seq<T>
    requires IsPermutation(perm, |xs|)
  {
    seq(|xs|, i requires 0 <= i < |xs| => xs[perm[i]])
  }

  /** The rows non-IID client `clientIdx` (1..5) selects, before its shuffle. */
  function Selected(rows: seq<Row>, clientIdx: int): seq<Row>
    requires clientIdx in LabelGroups
  {
    var labels := Labels(rows);
    var images := Images(rows);
    var idx := IsIn(labels, LabelGroups[clientIdx]);
    MaskedColumns(rows, LabelGroups[clientIdx]);
    Zip(Masked(labels, idx), Masked(images, idx))
  }

  /**
   * Non-IID client `clientIdx` (1..5): the rows with a label in its group, shuffled by
   * `perm`, then at most 1100 of them, the first 1000 for training and the rest for testing.
   */
  function NonIidClient(rows: seq<Row>, clientIdx: int, perm: seq<nat>): ClientFile
    requires clientIdx in LabelGroups && IsPermutation(perm, |Selected(rows, clientIdx)|)
  {
    var shuffled := Permuted(Selected(rows, clientIdx), perm);
    var clientImages := Take(Images(shuffled), SamplesPerClient);
    var clientLabels := Take(Labels(shuffled), SamplesPerClient);
    SplitFile(clientImages, clientLabels)
  }

  function Min(a: nat, b: nat): nat {
    if a <= b then a else b
  }

  /**
   * A non-IID client keeps min(1100, n) of the n rows in its group: the first min(1000, n)
   * after the shuffle for training and the next ones for testing, so the two parts are
   * disjoint stretches of the shuffled rows that together make up the kept rows.
   */
  lemma NonIidClientRows(rows: seq<Row>, clientIdx: int, perm: seq<nat>)
    requires clientIdx in LabelGroups && IsPermutation(perm, |Selected(rows, clientIdx)|)
    ensures var f := NonIidClient(rows, clientIdx, perm);
      var n := |Selected(rows, clientIdx)|;
      && Paired(f)
      && |f.yTrain| == Min(TrainSamplesPerClient, n)
      && |f.yTest| == Min(SamplesPerClient, n) - Min(TrainSamplesPerClient, n)
      && FileRows(f) == Take(Permuted(Selected(rows, clientIdx), perm), SamplesPerClient)
  {
    var shuffled := Permuted(Selected(rows, clientIdx), perm);
    var kept := Take(shuffled, SamplesPerClient);
    ColumnsOfTake(shuffled, SamplesPerClient);
    SplitFileRows(kept);
  }

  /**
   * Every label in a non-IID client's file lies in its group, and every image sits next
   * to the label it had in the original data.
   */
  lemma NonIidLabelsInGroup(rows: seq<Row>, clientIdx: int, perm: seq<nat>)
    requires clientIdx in LabelGroups && IsPermutation(perm, |Selected(rows, clientIdx)|)
    ensures var f := NonIidClient(rows, clientIdx, perm);
      && Paired(f)
      && (forall i :: 0 <= i < |f.yTrain| ==> f.yTrain[i] in LabelGroups[clientIdx] && Row(f.yTrain[i], f.xTrain[i]) in rows)
      && (forall i :: 0 <= i < |f.yTest| ==> f.yTest[i] in LabelGroups[clientIdx] && Row(f.yTest[i], f.xTest[i]) in rows)
  {
    var group := LabelGroups[clientIdx];
    var sel := Selected(rows, clientIdx);
    MaskedColumns(rows, group);
    assert sel == RowsInGroup(rows, group);
    var shuffled := Permuted(sel, perm);
    assert forall i :: 0 <= i < |shuffled| ==> shuffled[i] in rows && shuffled[i].digit in group;
    NonIidClientRows(rows, clientIdx, perm);
    PairsFromRows(NonIidClient(rows, clientIdx, perm), rows, group);
  }

  /** When every row a file holds is a row of `rows` with a label in `group`, so is every label/image pair of its parts. */
  lemma PairsFromRows(f: ClientFile, rows: seq<Row>, group: seq<int>)
    requires Paired(f)
    requires forall r :: r in FileRows(f) ==> r in rows && r.digit in group
    ensures forall i :: 0 <= i < |f.yTrain| ==> f.yTrain[i] in group && Row(f.yTrain[i], f.xTrain[i]) in rows
    ensures forall i :: 0 <= i < |f.yTest| ==> f.yTest[i] in group && Row(f.yTest[i], f.xTest[i]) in rows
  {
    var train := Zip(f.yTrain, f.xTrain);
    var test := Zip(f.yTest, f.xTest);
    forall i | 0 <= i < |f.yTrain|
      ensures f.yTrain[i] in group && Row(f.yTrain[i], f.xTrain[i]) in rows
    {
      assert Row(f.yTrain[i], f.xTrain[i]) == train[i] == FileRows(f)[i];
    }
    forall i | 0 <= i < |f.yTest|
      ensures f.yTest[i] in group && Row(f.yTest[i], f.xTest[i]) in rows
    {
      assert Row(f.yTest[i], f.xTest[i]) == test[i] == FileRows(f)[|train| + i];
    }
  }

  /** The label groups are pairwise disjoint, and digit d belongs to client d/2 + 1 (so together they cover 0-9). */
  lemma LabelGroupsPartition()
    ensures forall a, b, d :: a in LabelGroups && b in LabelGroups && d in LabelGroups[a] && d in LabelGroups[b] ==> a == b
    ensures forall d :: 0 <= d < 10 ==> d / 2 + 1 in LabelGroups && d in LabelGroups[d / 2 + 1]
    ensures forall a, d :: a in LabelGroups && d in LabelGroups[a] ==> 0 <= d < 10
  {
  }

  /** All labels of a file, training part first. */
  function FileLabels(f: ClientFile): seq<int> {
    f.yTrain + f.yTest
  }

  /** Two different non-IID clients never share a label, so they never share a row. */
  lemma NonIidClientsDisjoint(rows: seq<Row>, a: int, permA: seq<nat>, b: int, permB: seq<nat>)
    requires a in LabelGroups && IsPermutation(permA, |Selected(rows, a)|)
    requires b in LabelGroups && IsPermutation(permB, |Selected(rows, b)|)
    requires a != b
    ensures forall y :: y in FileLabels(NonIidClient(rows, a, permA)) ==> y !in FileLabels(NonIidClient(rows, b, permB))
  {
    NonIidLabelsInGroup(rows, a, permA);
    NonIidLabelsInGroup(rows, b, permB);
    LabelGroupsPartition();
  }

  /** The non-IID loop: client files 1 to 5, in order, each with its own shuffle. */
  method SplitNonIid(rows: seq<Row>, perms: seq<seq<nat>>) returns (files: seq<ClientFile>)
    requires |perms| == NumClients
    requires forall k :: 1 <= k <= NumClients ==> IsPermutation(perms[k - 1], |Selected(rows, k)|)
    ensures |files| == NumClients
    ensures forall k :: 0 <= k < NumClients ==> files[k] == NonIidClient(rows, k + 1, perms[k])
  {
    files := [];
    for clientIdx := 1 to NumClients + 1
      invariant |files| == clientIdx - 1
      invariant forall k :: 0 <= k < clientIdx - 1 ==> files[k] == NonIidClient(rows, k + 1, perms[k])
    {
      files := files + [NonIidClient(rows, clientIdx, perms[clientIdx - 1])];
    }
  }
}

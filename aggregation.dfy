/**
 * The pure parts of `TrainingManager.aggregateModels` (core.js): which clients take part
 * in a round, and the layer-wise unweighted mean of their weights.
 *
 * A model's weights are a sequence of layers, each flattened to a sequence of reals, so
 * that the sum and the division are exact. The `Math.random()` draws are given as a
 * sequence, one per client in client order.
 */
module Aggregation {
  import opened Options

  type Layer = seq<real>
  type Weights = seq<Layer>

  /**
   * The positions kept by `clients.filter(() => Math.random() < dropoutProbability)`:
   * client i takes part iff its draw is below the threshold, so the threshold is an
   * inclusion probability. The positions come out in client order.
   */
  function SampleIndices(draws: seq<real>, p: real): (r: seq<nat>)
    ensures forall j :: 0 <= j < |r| ==> r[j] < |draws| && draws[r[j]] < p
    ensures forall i :: 0 <= i < |draws| && draws[i] < p ==> i in r
    ensures forall j, k :: 0 <= j < k < |r| ==> r[j] < r[k]
  {
    if |draws| == 0 then []
    else
      var earlier := SampleIndices(draws[..|draws| - 1], p);
      if draws[|draws| - 1] < p then earlier + [|draws| - 1] else earlier
  }

  /** Every position 0 .. n-1, in order. */
  function AllIndices(n: nat): (r: seq<nat>)
    ensures |r| == n && forall i :: 0 <= i < n ==> r[i] == i
  {
    seq(n, i => i)
  }

  /** With draws in [0, 1) and a threshold of at least 1, every client takes part. */
  lemma {:induction false} FullParticipation(draws: seq<real>, p: real)
    requires forall i :: 0 <= i < |draws| ==> 0.0 <= draws[i] < 1.0
    requires p >= 1.0
    ensures SampleIndices(draws, p) == AllIndices(|draws|)
  {
    if |draws| > 0 {
      FullParticipation(draws[..|draws| - 1], p);
      assert AllIndices(|draws|) == AllIndices(|draws| - 1) + [|draws| - 1];
    }
  }

  /** With non-negative draws and a threshold of at most 0, nobody takes part. */
  lemma {:induction false} NoParticipation(draws: seq<real>, p: real)
    requires forall i :: 0 <= i < |draws| ==> 0.0 <= draws[i]
    requires p <= 0.0
    ensures SampleIndices(draws, p) == []
  {
    if |draws| > 0 {
      NoParticipation(draws[..|draws| - 1], p);
    }
  }

  /**
   * The averaging succeeds only when every participant has each layer of participant 0
   * with the same number of entries: a missing layer or a shape mismatch makes `tf.addN`
   * throw. Layers beyond participant 0's count are never read.
   */
  predicate Compatible(ws: seq<Weights>) {
    && |ws| > 0
    && (forall i :: 0 <= i < |ws| ==> |ws[0]| <= |ws[i]|)
    && forall i, l :: 0 <= i < |ws| && 0 <= l < |ws[0]| ==> |ws[i][l]| == |ws[0][l]|
  }

  /** Entry j of layer l summed over the participants (the `tf.addN` of that layer). */
  function ColumnSum(ws: seq<Weights>, l: nat, j: nat): real
    requires forall i :: 0 <= i < |ws| ==> l < |ws[i]| && j < |ws[i][l]|
  {
    if |ws| == 0 then 0.0 else ColumnSum(ws[..|ws| - 1], l, j) + ws[|ws| - 1][l][j]
  }

  /**
   * The averaged weights: as many layers as participant 0, and entry j of layer l is the
   * sum of the participants' entries divided by their number; `None` when `tf.addN` throws.
   */
  function LayerwiseMean(ws: seq<Weights>): (r: Option<Weights>)
    ensures r.Some? <==> Compatible(ws)
    ensures r.Some? ==> |r.value| == |ws[0]| && forall l :: 0 <= l < |ws[0]| ==> |r.value[l]| == |ws[0][l]|
  {
    if Compatible(ws) then
      Some(seq(|ws[0]|, l requires 0 <= l < |ws[0]| =>
        seq(|ws[0][l]|, j requires 0 <= j < |ws[0][l]| => ColumnSum(ws, l, j) / (|ws| as real))))
    else None
  }

  /** Summing k equal entries gives k times that entry. */
  lemma {:induction false} ColumnSumOfEqual(ws: seq<Weights>, l: nat, j: nat, x: real)
    requires forall i :: 0 <= i < |ws| ==> l < |ws[i]| && j < |ws[i][l]| && ws[i][l][j] == x
    ensures ColumnSum(ws, l, j) == (|ws| as real) * x
  {
    if |ws| > 0 {
      ColumnSumOfEqual(ws[..|ws| - 1], l, j, x);
    }
  }

  /** Sums of entries that lie in [lo, hi] lie in [k*lo, k*hi]. */
  lemma {:induction false} ColumnSumBounds(ws: seq<Weights>, l: nat, j: nat, lo: real, hi: real)
    requires forall i :: 0 <= i < |ws| ==> l < |ws[i]| && j < |ws[i][l]| && lo <= ws[i][l][j] <= hi
    ensures (|ws| as real) * lo <= ColumnSum(ws, l, j) <= (|ws| as real) * hi
  {
    if |ws| > 0 {
      ColumnSumBounds(ws[..|ws| - 1], l, j, lo, hi);
    }
  }

  /** Averaging k copies of the same weights gives those weights back. */
  lemma MeanOfIdentical(ws: seq<Weights>, w: Weights)
    requires |ws| > 0 && forall i :: 0 <= i < |ws| ==> ws[i] == w
    ensures LayerwiseMean(ws) == Some(w)
  {
    assert Compatible(ws);
    var r := LayerwiseMean(ws).value;
    forall l, j | 0 <= l < |w| && 0 <= j < |w[l]| ensures r[l][j] == w[l][j] {
      ColumnSumOfEqual(ws, l, j, w[l][j]);
    }
    assert ws[0] == w && |r| == |w|;
    forall l | 0 <= l < |w| ensures r[l] == w[l] {
      assert |r[l]| == |w[l]|;
    }
    assert r == w;
  }

  /** Each averaged entry lies between the smallest and largest participant entry. */
  lemma MeanWithinBounds(ws: seq<Weights>, l: nat, j: nat, lo: real, hi: real)
    requires Compatible(ws) && l < |ws[0]| && j < |ws[0][l]|
    requires forall i :: 0 <= i < |ws| ==> lo <= ws[i][l][j] <= hi
    ensures lo <= LayerwiseMean(ws).value[l][j] <= hi
  {
    ColumnSumBounds(ws, l, j, lo, hi);
    DivideBounds(ColumnSum(ws, l, j), |ws| as real, lo, hi);
  }

  /** Dividing a value in [k*lo, k*hi] by a positive k lands in [lo, hi]. */
  lemma DivideBounds(s: real, k: real, lo: real, hi: real)
    requires k > 0.0 && k * lo <= s <= k * hi
    ensures lo <= s / k <= hi
  {
    assert (s / k - lo) * k == s - k * lo >= 0.0;
    assert (hi - s / k) * k == k * hi - s >= 0.0;
  }

  /** Removing participant k from a sum takes away exactly its entry. */
  lemma {:induction false} ColumnSumRemove(ws: seq<Weights>, k: nat, l: nat, j: nat)
    requires k < |ws|
    requires forall i :: 0 <= i < |ws| ==> l < |ws[i]| && j < |ws[i][l]|
    ensures ColumnSum(ws, l, j) == ColumnSum(ws[..k] + ws[k + 1..], l, j) + ws[k][l][j]
  {
    var init := ws[..|ws| - 1];
    if k < |ws| - 1 {
      ColumnSumRemove(init, k, l, j);
      assert ws[..k] + ws[k + 1..] == (init[..k] + init[k + 1..]) + [ws[|ws| - 1]];
    } else {
      assert ws[..k] + ws[k + 1..] == init;
    }
  }

  lemma MultisetCancel<T>(a: multiset<T>, b: multiset<T>, x: T)
    requires a + multiset{x} == b + multiset{x}
    ensures a == b
  {
    forall w ensures a[w] == b[w] {
      assert (a + multiset{x})[w] == (b + multiset{x})[w];
    }
  }

  /**
   * When two lists of participants hold the same multiset, the last participant of the
   * first sits at some position k of the second, and what remains on both sides matches.
   */
  lemma MatchLast(ws: seq<Weights>, vs: seq<Weights>) returns (k: nat)
    requires |ws| > 0 && multiset(ws) == multiset(vs)
    ensures k < |vs| && vs[k] == ws[|ws| - 1]
    ensures multiset(ws[..|ws| - 1]) == multiset(vs[..k] + vs[k + 1..])
  {
    var last := ws[|ws| - 1];
    assert ws == ws[..|ws| - 1] + [last];
    assert last in multiset(vs);
    k :| 0 <= k < |vs| && vs[k] == last;
    assert vs == vs[..k] + [vs[k]] + vs[k + 1..];
    MultisetCancel(multiset(ws[..|ws| - 1]), multiset(vs[..k] + vs[k + 1..]), last);
  }

  /** Sums over the same participants, in any order, are equal. */
  lemma {:induction false} ColumnSumReordered(ws: seq<Weights>, vs: seq<Weights>, l: nat, j: nat)
    requires multiset(ws) == multiset(vs)
    requires forall i :: 0 <= i < |ws| ==> l < |ws[i]| && j < |ws[i][l]|
    ensures forall i :: 0 <= i < |vs| ==> l < |vs[i]| && j < |vs[i][l]|
    ensures ColumnSum(ws, l, j) == ColumnSum(vs, l, j)
  {
    forall i | 0 <= i < |vs| ensures l < |vs[i]| && j < |vs[i][l]| {
      assert vs[i] in multiset(ws);
    }
    if |ws| == 0 {
      assert |vs| == |multiset(vs)| == 0;
    } else {
      var k := MatchLast(ws, vs);
      ColumnSumReordered(ws[..|ws| - 1], vs[..k] + vs[k + 1..], l, j);
      ColumnSumRemove(vs, k, l, j);
    }
  }

  /** All participants have participant 0's shape (the fixed architecture). */
  predicate SameShape(ws: seq<Weights>) {
    && |ws| > 0
    && forall i :: 0 <= i < |ws| ==> |ws[i]| == |ws[0]| && forall l :: 0 <= l < |ws[0]| ==> |ws[i][l]| == |ws[0][l]|
  }

  /**
   * The mean is unweighted: when all participants share one shape, listing them in
   * another order gives the same averaged weights.
   */
  lemma MeanIgnoresOrder(ws: seq<Weights>, vs: seq<Weights>)
    requires SameShape(ws) && multiset(ws) == multiset(vs)
    ensures LayerwiseMean(ws).Some? && LayerwiseMean(vs).Some?
    ensures LayerwiseMean(ws) == LayerwiseMean(vs)
  {
    assert |ws| == |multiset(ws)| == |multiset(vs)| == |vs|;
    assert vs[0] in multiset(ws);
    var i0 :| 0 <= i0 < |ws| && ws[i0] == vs[0];
    forall i | 0 <= i < |vs| ensures |vs[i]| == |ws[0]| && forall l :: 0 <= l < |ws[0]| ==> |vs[i][l]| == |ws[0][l]| {
      assert vs[i] in multiset(ws);
    }
    assert Compatible(ws) && Compatible(vs);
    var a := LayerwiseMean(ws).value;
    var b := LayerwiseMean(vs).value;
    forall l, j | 0 <= l < |ws[0]| && 0 <= j < |ws[0][l]| ensures a[l][j] == b[l][j] {
      ColumnSumReordered(ws, vs, l, j);
    }
    forall l | 0 <= l < |ws[0]| ensures a[l] == b[l] {
      assert |a[l]| == |b[l]|;
    }
    assert a == b;
  }

  /** Participant m's entry (l, j) raised by d, everything else as it was. */
  function Raise(ws: seq<Weights>, m: nat, l: nat, j: nat, d: real): (vs: seq<Weights>)
    requires m < |ws| && l < |ws[m]| && j < |ws[m][l]|
    ensures |vs| == |ws|
    ensures forall i :: 0 <= i < |ws| ==> |vs[i]| == |ws[i]| && forall l2 :: 0 <= l2 < |ws[i]| ==> |vs[i][l2]| == |ws[i][l2]|
    ensures vs[m][l][j] == ws[m][l][j] + d
    ensures forall i, l2, j2 :: 0 <= i < |ws| && 0 <= l2 < |ws[i]| && 0 <= j2 < |ws[i][l2]| && (i != m || l2 != l || j2 != j) ==>
      vs[i][l2][j2] == ws[i][l2][j2]
  {
    ws[m := ws[m][l := ws[m][l][j := ws[m][l][j] + d]]]
  }

  /** Sums over participants whose entries agree are equal. */
  lemma {:induction false} ColumnSumAgree(ws: seq<Weights>, vs: seq<Weights>, l: nat, j: nat)
    requires |ws| == |vs|
    requires forall i :: 0 <= i < |ws| ==> l < |ws[i]| && j < |ws[i][l]| && l < |vs[i]| && j < |vs[i][l]|
    requires forall i :: 0 <= i < |ws| ==> vs[i][l][j] == ws[i][l][j]
    ensures ColumnSum(vs, l, j) == ColumnSum(ws, l, j)
  {
    if |ws| > 0 {
      ColumnSumAgree(ws[..|ws| - 1], vs[..|vs| - 1], l, j);
    }
  }

  /** When only participant m's entry differs, by d, the sum differs by d. */
  lemma {:induction false} ColumnSumShift(ws: seq<Weights>, vs: seq<Weights>, m: nat, l: nat, j: nat, d: real)
    requires |ws| == |vs| && m < |ws|
    requires forall i :: 0 <= i < |ws| ==> l < |ws[i]| && j < |ws[i][l]| && l < |vs[i]| && j < |vs[i][l]|
    requires forall i :: 0 <= i < |ws| && i != m ==> vs[i][l][j] == ws[i][l][j]
    requires vs[m][l][j] == ws[m][l][j] + d
    ensures ColumnSum(vs, l, j) == ColumnSum(ws, l, j) + d
  {
    var n := |ws| - 1;
    if m < n {
      ColumnSumShift(ws[..n], vs[..n], m, l, j, d);
    } else {
      ColumnSumAgree(ws[..n], vs[..n], l, j);
    }
  }

  /**
   * Every participant weighs the same: raising any one participant's entry by d raises
   * that averaged entry by d / k, for k participants, and leaves every other averaged
   * entry as it was.
   */
  lemma MeanRaisesByShare(ws: seq<Weights>, m: nat, l: nat, j: nat, d: real)
    requires Compatible(ws) && m < |ws| && l < |ws[0]| && j < |ws[0][l]|
    ensures var vs := Raise(ws, m, l, j, d);
      && LayerwiseMean(vs).Some? && LayerwiseMean(ws).Some?
      && |LayerwiseMean(vs).value| == |LayerwiseMean(ws).value|
      && forall l2, j2 :: 0 <= l2 < |ws[0]| && 0 <= j2 < |ws[0][l2]| ==>
           LayerwiseMean(vs).value[l2][j2]
             == LayerwiseMean(ws).value[l2][j2] + (if l2 == l && j2 == j then d / (|ws| as real) else 0.0)
  {
    var vs := Raise(ws, m, l, j, d);
    var k := |ws| as real;
    var a := LayerwiseMean(ws).value;
    var b := LayerwiseMean(vs).value;
    forall l2, j2 | 0 <= l2 < |ws[0]| && 0 <= j2 < |ws[0][l2]|
      ensures b[l2][j2] == a[l2][j2] + (if l2 == l && j2 == j then d / k else 0.0)
    {
      var e := if l2 == l && j2 == j then d else 0.0;
      ColumnSumShift(ws, vs, m, l2, j2, e);
      DivideSum(ColumnSum(ws, l2, j2), e, k);
    }
  }

  lemma DivideSum(s: real, e: real, k: real)
    requires k > 0.0
    ensures (s + e) / k == s / k + e / k
  {
  }
}

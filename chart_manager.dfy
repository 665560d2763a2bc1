/**
 * What `ChartManager` (core.js) keeps of a Chart.js line chart: the label array and the
 * data array of its one dataset. Drawing is not part of this model.
 */
module ChartManager {

  /** The record the `onEpochEnd` callback reads: the epoch index and the validation accuracy. */
  datatype EpochLog = EpochLog(epoch: int, valAccuracy: real)

  /** A chart's `data.labels` and `data.datasets[0].data`. */
  datatype Series = Series(labels: seq<int>, values: seq<real>)

  const EmptySeries := Series([], [])

  /** `updateClientChart`: push `epoch + 1` as label and the accuracy in percent as value. */
  function WithEpoch(s: Series, log: EpochLog): Series {
    Series(s.labels + [log.epoch + 1], s.values + [log.valAccuracy * 100.0])
  }

  /** A client chart after one `updateClientChart` per epoch log, in order. */
  function WithEpochs(s: Series, logs: seq<EpochLog>): Series {
    if |logs| == 0 then s else WithEpoch(WithEpochs(s, logs[..|logs| - 1]), logs[|logs| - 1])
  }

  function EpochLabels(logs: seq<EpochLog>): seq<int> {
    seq(|logs|, i requires 0 <= i < |logs| => logs[i].epoch + 1)
  }

  function EpochValues(logs: seq<EpochLog>): seq<real> {
    seq(|logs|, i requires 0 <= i < |logs| => logs[i].valAccuracy * 100.0)
  }

  /** Training appends one label and one value per epoch, in epoch order, to what was there. */
  lemma {:induction false} WithEpochsAppends(s: Series, logs: seq<EpochLog>)
    ensures WithEpochs(s, logs) == Series(s.labels + EpochLabels(logs), s.values + EpochValues(logs))
  {
    if |logs| > 0 {
      var init := logs[..|logs| - 1];
      WithEpochsAppends(s, init);
      assert EpochLabels(logs) == EpochLabels(init) + [logs[|logs| - 1].epoch + 1];
      assert EpochValues(logs) == EpochValues(init) + [logs[|logs| - 1].valAccuracy * 100.0];
    }
  }

  /** `updateGlobalChart`: push the current label count plus one, and the accuracy in percent. */
  function WithRound(s: Series, accuracy: real): Series {
    Series(s.labels + [|s.labels| + 1], s.values + [accuracy * 100.0])
  }

  /** The global chart after one `updateGlobalChart` per recorded accuracy, in order. */
  function WithRounds(s: Series, accuracies: seq<real>): Series {
    if |accuracies| == 0 then s
    else WithRound(WithRounds(s, accuracies[..|accuracies| - 1]), accuracies[|accuracies| - 1])
  }

  function RoundNumbers(n: nat): seq<int> {
    seq(n, i => i + 1)
  }

  /** The global chart's labels read 1, 2, ..., n. */
  predicate Numbered(s: Series) {
    s.labels == RoundNumbers(|s.labels|)
  }

  /** One more round keeps the labels numbered and adds exactly one label and one value. */
  lemma WithRoundKeepsNumbering(s: Series, accuracy: real)
    requires Numbered(s)
    ensures Numbered(WithRound(s, accuracy))
    ensures |WithRound(s, accuracy).labels| == |s.labels| + 1
    ensures |WithRound(s, accuracy).values| == |s.values| + 1
  {
    assert RoundNumbers(|s.labels| + 1) == RoundNumbers(|s.labels|) + [|s.labels| + 1];
  }

  /**
   * After a reset, n recorded rounds leave the labels 1 .. n and the values the
   * accuracies in percent, in the order they were recorded.
   */
  lemma {:induction false} RoundsFromEmpty(accuracies: seq<real>)
    ensures WithRounds(EmptySeries, accuracies)
         == Series(RoundNumbers(|accuracies|), seq(|accuracies|, i requires 0 <= i < |accuracies| => accuracies[i] * 100.0))
  {
    if |accuracies| > 0 {
      var init := accuracies[..|accuracies| - 1];
      RoundsFromEmpty(init);
      WithRoundKeepsNumbering(WithRounds(EmptySeries, init), accuracies[|accuracies| - 1]);
    }
  }
}

/**
 * The six-step autoregressive rollout (src/predict.py). The fitted model is
 * a function parameter: the rollout's behaviour is stated for every model.
 */
module Predict {
  import opened Wrappers
  import opened Numeric
  import opened Preprocessing

  /** Number of hours forecast ahead. */
  const Horizon := 6

  /** The fitted regression model: a feature vector in, a crowd estimate out. */
  type Predictor = seq<real> -> real

  /** `X.iloc[-1]`: the most recent feature row, if the table has one. */
  function SeedRow(table: seq<FeatureRow>): (r: Option<FeatureRow>)
    ensures r.None? <==> table == []
    ensures r.Some? ==> r.value in table && r.value == table[|table| - 1]
  {
    if table == [] then None else Some(table[|table| - 1])
  }

  /**
   * The row the model is given on step `k` (1-based): the seed with its hour
   * advanced `k` hours on a 24-hour clock and, from step 2 on, the raw
   * prediction of the step before as its lag.
   */
  function StepInput(seed: FeatureRow, predict: Predictor, k: nat): (r: FeatureRow)
    requires 1 <= k
    ensures r.hour == (seed.hour + k) % 24 && 0 <= r.hour < 24
    ensures r.dayOfWeek == seed.dayOfWeek && r.isWeekend == seed.isWeekend
    ensures r.flights == seed.flights && r.avgPassengers == seed.avgPassengers
    ensures k == 1 ==> r.prevHourCrowd == seed.prevHourCrowd
    ensures k > 1 ==> r.prevHourCrowd == StepPrediction(seed, predict, k - 1)
    decreases k, 0
  {
    seed.(hour := (seed.hour + k) % 24,
          prevHourCrowd := if k == 1 then seed.prevHourCrowd else StepPrediction(seed, predict, k - 1))
  }

  /** The unrounded prediction of step `k`. */
  function StepPrediction(seed: FeatureRow, predict: Predictor, k: nat): real
    requires 1 <= k
    decreases k, 1
  {
    predict(FeatureVector(StepInput(seed, predict, k)))
  }

  /** The forecast: step k's prediction rounded to two decimals, in step order. */
  function Forecast(seed: FeatureRow, predict: Predictor): (r: seq<real>)
    ensures |r| == Horizon
  {
    seq(Horizon, i requires 0 <= i < Horizon => Round2(StepPrediction(seed, predict, i + 1)))
  }

  /** The working row once step `k` has stored its prediction as the lag. */
  function AfterStep(seed: FeatureRow, predict: Predictor, k: nat): FeatureRow
  {
    if k == 0 then seed
    else StepInput(seed, predict, k).(prevHourCrowd := StepPrediction(seed, predict, k))
  }

  /** Advancing the clock one hour from hour `h + k` lands on hour `h + k + 1`. */
  lemma NextHour(h: int, k: nat)
    ensures ((h + k) % 24 + 1) % 24 == (h + k + 1) % 24
  {
    var q := (h + k) / 24;
    assert h + k == q * 24 + (h + k) % 24;
    assert h + k + 1 == q * 24 + ((h + k) % 24 + 1);
    if (h + k) % 24 == 23 {
      assert h + k + 1 == (q + 1) * 24;
    }
  }

  /** Advancing the working row after step `k` by one hour gives the row step `k + 1` is given. */
  lemma AdvanceAfterStep(seed: FeatureRow, predict: Predictor, k: nat)
    ensures AfterStep(seed, predict, k).(hour := (AfterStep(seed, predict, k).hour + 1) % 24)
            == StepInput(seed, predict, k + 1)
  {
    NextHour(seed.hour, k);
  }

  /**
   * `predict_next_6_hours`: builds the feature table from the history, copies
   * its last row, and six times advances the hour, asks the model, stores the
   * raw prediction as the next lag and appends it rounded to two decimals.
   * For a history of fewer than two rows the feature table is empty and
   * `X.iloc[-1]` raises IndexError; the model returns `None` there.
   */
  method PredictNext6Hours(history: seq<HistoryRow>, predict: Predictor) returns (predictions: Option<seq<real>>)
    ensures predictions.None? <==> |history| < 2
    ensures predictions.Some? ==>
      SeedRow(Preprocess(history).x).Some? &&
      predictions.value == Forecast(SeedRow(Preprocess(history).x).value, predict)
  {
    var data := Preprocess(history);
    ShortHistoryHasNoFeatures(history);
    var seed := SeedRow(data.x);
    if seed.None? {
      return None;
    }
    var lastRow := seed.value;
    var out: seq<real> := [];
    for i := 0 to Horizon
      invariant |out| == i
      invariant lastRow == AfterStep(seed.value, predict, i)
      invariant forall k :: 0 <= k < i ==> out[k] == Round2(StepPrediction(seed.value, predict, k + 1))
    {
      AdvanceAfterStep(seed.value, predict, i);
      lastRow := lastRow.(hour := (lastRow.hour + 1) % 24);
      assert lastRow == StepInput(seed.value, predict, i + 1);
      var pred := predict(FeatureVector(lastRow));
      lastRow := lastRow.(prevHourCrowd := pred);
      out := out + [Round2(pred)];
    }
    predictions := Some(out);
  }

  /** On every step the model sees an hour of the day, `seed.hour + k` on a 24-hour clock. */
  lemma StepHour(seed: FeatureRow, predict: Predictor, k: nat)
    requires 1 <= k <= Horizon
    ensures StepInput(seed, predict, k).hour == (seed.hour + k) % 24
    ensures 0 <= StepInput(seed, predict, k).hour < 24
    ensures FeatureVector(StepInput(seed, predict, k))[0] == ((seed.hour + k) % 24) as real
  {
  }

  /**
   * Step 1 sees the seed's lag; every later step sees the previous step's
   * unrounded prediction, so rounding never feeds back.
   */
  lemma StepFeedback(seed: FeatureRow, predict: Predictor, k: nat)
    requires 1 <= k <= Horizon
    ensures k == 1 ==> FeatureVector(StepInput(seed, predict, k))[5] == seed.prevHourCrowd
    ensures k > 1 ==> FeatureVector(StepInput(seed, predict, k))[5] == StepPrediction(seed, predict, k - 1)
  {
  }

  /**
   * The calendar columns and the flight columns stay those of the seed on
   * every step, even when the hour wraps past midnight into the next day.
   */
  lemma CalendarFrozen(seed: FeatureRow, predict: Predictor, k: nat)
    requires 0 <= seed.hour < 24 && 1 <= k <= Horizon
    ensures seed.hour + k >= 24 ==> StepInput(seed, predict, k).hour == seed.hour + k - 24
    ensures seed.hour + k < 24 ==> StepInput(seed, predict, k).hour == seed.hour + k
    ensures StepInput(seed, predict, k).dayOfWeek == seed.dayOfWeek
    ensures StepInput(seed, predict, k).isWeekend == seed.isWeekend
    ensures StepInput(seed, predict, k).flights == seed.flights
    ensures StepInput(seed, predict, k).avgPassengers == seed.avgPassengers
  {
  }

  /** Every forecast value has at most two decimals and lies within 0.005 of its raw prediction. */
  lemma ForecastRounded(seed: FeatureRow, predict: Predictor, k: nat)
    requires 0 <= k < Horizon
    ensures HasTwoDecimals(Forecast(seed, predict)[k])
    ensures -0.005 <= Forecast(seed, predict)[k] - StepPrediction(seed, predict, k + 1) <= 0.005
  {
  }

  /** A model that always answers `c` gives six copies of `c` rounded to two decimals. */
  lemma ConstantPredictor(seed: FeatureRow, predict: Predictor, c: real)
    requires forall v :: predict(v) == c
    ensures Forecast(seed, predict) == [Round2(c), Round2(c), Round2(c), Round2(c), Round2(c), Round2(c)]
  {
  }

  /** The forecast depends on the model only through the predictions it makes along the rollout. */
  lemma {:induction false} SameAnswersSameRollout(seed: FeatureRow, p: Predictor, q: Predictor, k: nat)
    requires 1 <= k
    requires forall j :: 1 <= j <= k ==> p(FeatureVector(StepInput(seed, p, j))) == q(FeatureVector(StepInput(seed, p, j)))
    ensures StepInput(seed, p, k) == StepInput(seed, q, k)
    ensures StepPrediction(seed, p, k) == StepPrediction(seed, q, k)
  {
    if k > 1 {
      SameAnswersSameRollout(seed, p, q, k - 1);
    }
  }
}

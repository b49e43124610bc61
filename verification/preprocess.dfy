/**
 * Lag-feature construction (src/preprocess.py): the crowd column is shifted
 * down one row into `prev_hour_crowd`, the row whose lag is missing is
 * dropped, and the six model features plus the `crowd` target are selected.
 */
module Preprocessing {
  import opened Wrappers

  /** One row of the hourly history. The timestamp column plays no part in the features. */
  datatype HistoryRow = HistoryRow(
    hour: int,
    dayOfWeek: int,
    isWeekend: int,
    flights: int,
    avgPassengers: int,
    crowd: real)

  /** A history row after the lag column is added; `None` stands for pandas' NaN. */
  datatype LaggedRow = LaggedRow(row: HistoryRow, prevHourCrowd: Option<real>)

  /** The model's feature row; the declaration order is the model's column order. */
  datatype FeatureRow = FeatureRow(
    hour: int,
    dayOfWeek: int,
    isWeekend: int,
    flights: int,
    avgPassengers: int,
    prevHourCrowd: real)

  /** The feature table `X` and the target column `y`, row for row. */
  datatype Dataset = Dataset(x: seq<FeatureRow>, y: seq<real>)

  /** Number of feature columns the model is fitted on. */
  const FeatureCount := 6

  /** The feature row as the numeric vector handed to the model, in column order. */
  function FeatureVector(f: FeatureRow): (v: seq<real>)
    ensures |v| == FeatureCount
  {
    [f.hour as real, f.dayOfWeek as real, f.isWeekend as real,
     f.flights as real, f.avgPassengers as real, f.prevHourCrowd]
  }

  /** Reads a feature row back from a vector whose first five entries are whole numbers. */
  function FromVector(v: seq<real>): FeatureRow
    requires |v| == FeatureCount
  {
    FeatureRow(v[0].Floor, v[1].Floor, v[2].Floor, v[3].Floor, v[4].Floor, v[5])
  }

  /** No two feature rows give the same vector: every column keeps its place. */
  lemma FeatureVectorRoundTrip(f: FeatureRow)
    ensures FromVector(FeatureVector(f)) == f
  {
    var v := FeatureVector(f);
    assert v[0].Floor == f.hour && v[1].Floor == f.dayOfWeek && v[2].Floor == f.isWeekend;
    assert v[3].Floor == f.flights && v[4].Floor == f.avgPassengers;
  }

  /**
   * `shift(1)` on the crowd column: walking the rows in order, each row is
   * paired with the crowd of the row before it (`prev`, NaN for the first).
   * The rows themselves stay where they were.
   */
  function Lag(h: seq<HistoryRow>, prev: Option<real>): (r: seq<LaggedRow>)
    ensures |r| == |h|
    ensures forall i :: 0 <= i < |h| ==> r[i].row == h[i]
    ensures |h| > 0 ==> r[0].prevHourCrowd == prev
    ensures forall i :: 0 < i < |h| ==> r[i].prevHourCrowd == Some(h[i - 1].crowd)
  {
    if h == [] then []
    else
      var rest := Lag(h[1..], Some(h[0].crowd));
      [LaggedRow(h[0], prev)] + rest
  }

  /** The history with its `prev_hour_crowd` column: missing on the first row, the previous crowd on every other. */
  function ShiftCrowd(h: seq<HistoryRow>): (r: seq<LaggedRow>)
    ensures |r| == |h|
    ensures forall i :: 0 <= i < |h| ==> r[i].row == h[i]
    ensures |h| > 0 ==> r[0].prevHourCrowd.None?
    ensures forall i :: 0 < i < |h| ==> r[i].prevHourCrowd == Some(h[i - 1].crowd)
  {
    Lag(h, None)
  }

  /** `dropna()`: keeps, in order, the rows whose lag is present. */
  function DropMissing(rows: seq<LaggedRow>): (r: seq<LaggedRow>)
    ensures |r| <= |rows|
    ensures forall i :: 0 <= i < |r| ==> r[i].prevHourCrowd.Some?
  {
    if rows == [] then []
    else if rows[0].prevHourCrowd.None? then DropMissing(rows[1..])
    else [rows[0]] + DropMissing(rows[1..])
  }

  /**
   * Selects the feature columns and the target from rows whose lag is
   * present: one feature row and one target per row, in row order, the lag
   * becoming the sixth feature.
   */
  function Project(rows: seq<LaggedRow>): (d: Dataset)
    requires forall i :: 0 <= i < |rows| ==> rows[i].prevHourCrowd.Some?
    ensures |d.x| == |d.y| == |rows|
    ensures forall i :: 0 <= i < |rows| ==>
      FeatureVector(d.x[i]) == [rows[i].row.hour as real, rows[i].row.dayOfWeek as real,
                                rows[i].row.isWeekend as real, rows[i].row.flights as real,
                                rows[i].row.avgPassengers as real, rows[i].prevHourCrowd.value]
    ensures forall i :: 0 <= i < |rows| ==> d.y[i] == rows[i].row.crowd
  {
    Dataset(
      seq(|rows|, i requires 0 <= i < |rows| =>
        var r := rows[i].row;
        FeatureRow(r.hour, r.dayOfWeek, r.isWeekend, r.flights, r.avgPassengers,
                   rows[i].prevHourCrowd.value)),
      seq(|rows|, i requires 0 <= i < |rows| => rows[i].row.crowd))
  }

  /**
   * `preprocess()` with the CSV read replaced by the history passed in. The
   * feature table has one row fewer than the history; row j takes its lag
   * from history row j and every other column, and the target, from history
   * row j + 1, so the order of the history is kept.
   */
  function Preprocess(h: seq<HistoryRow>): (d: Dataset)
    ensures |d.x| == |d.y| == if h == [] then 0 else |h| - 1
    ensures forall j {:trigger d.x[j]} :: 0 <= j < |d.x| ==>
      d.x[j] == FeatureRow(h[j + 1].hour, h[j + 1].dayOfWeek, h[j + 1].isWeekend,
                           h[j + 1].flights, h[j + 1].avgPassengers, h[j].crowd)
    ensures forall j {:trigger d.y[j]} :: 0 <= j < |d.y| ==> d.y[j] == h[j + 1].crowd
  {
    ShiftThenDrop(h);
    Project(DropMissing(ShiftCrowd(h)))
  }

  /** A sequence whose lags are all present passes `dropna()` unchanged. */
  lemma {:induction false} DropMissingKeepsComplete(rows: seq<LaggedRow>)
    requires forall i :: 0 <= i < |rows| ==> rows[i].prevHourCrowd.Some?
    ensures DropMissing(rows) == rows
  {
    if rows != [] {
      DropMissingKeepsComplete(rows[1..]);
      assert [rows[0]] + rows[1..] == rows;
    }
  }

  /** The shift leaves exactly one missing value, so `dropna()` removes just the first row. */
  lemma ShiftThenDrop(h: seq<HistoryRow>)
    ensures DropMissing(ShiftCrowd(h)) == if h == [] then [] else ShiftCrowd(h)[1..]
  {
    if h != [] {
      var s := ShiftCrowd(h);
      DropMissingKeepsComplete(s[1..]);
    }
  }

  /** A history of fewer than two rows yields an empty table, hence no seed row. */
  lemma ShortHistoryHasNoFeatures(h: seq<HistoryRow>)
    ensures Preprocess(h).x == [] <==> |h| < 2
  {
  }
}

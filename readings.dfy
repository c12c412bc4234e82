/**
 * Motor readings, the thresholds they are judged against, the per-quantity
 * status labels stored with each reading, and the two totals the analysis
 * page charts.
 */
module Readings {

  /** The two labels the motors table stores in its status columns. */
  const OK: string := "OK"
  const NOT_OK: string := "NOT OK"

  predicate IsLabel(s: string)
  {
    s == OK || s == NOT_OK
  }

  /** The singleton conditions row: one threshold per measured quantity. */
  datatype Thresholds = Thresholds(current: real, temperature: real, vibration: real)

  /** One row of the motors table (its database id is its position in the table). */
  datatype Motor = Motor(
    name: string,
    current: real,
    temperature: real,
    vibration: real,
    currentStatus: string,
    temperatureStatus: string,
    vibrationStatus: string)

  /** The three status columns of the motors table. */
  datatype Column = CurrentColumn | TemperatureColumn | VibrationColumn

  function StatusIn(m: Motor, c: Column): string
  {
    match c
    case CurrentColumn => m.currentStatus
    case TemperatureColumn => m.temperatureStatus
    case VibrationColumn => m.vibrationStatus
  }

  /** A row whose three status columns each hold one of the two labels. */
  predicate Labelled(m: Motor)
  {
    IsLabel(m.currentStatus) && IsLabel(m.temperatureStatus) && IsLabel(m.vibrationStatus)
  }

  // ---------------------------------------------------------------------------
  // Status derivation
  // ---------------------------------------------------------------------------

  /** `status` is one of the two labels, and it is OK exactly when the reading is strictly below its threshold. */
  predicate Judged(value: real, threshold: real, status: string)
  {
    IsLabel(status) && (status == OK <==> value < threshold)
  }

  /** Every status of `m` is the verdict of its reading against `t`. */
  predicate DerivedFrom(m: Motor, t: Thresholds)
  {
    && Judged(m.current, t.current, m.currentStatus)
    && Judged(m.temperature, t.temperature, m.temperatureStatus)
    && Judged(m.vibration, t.vibration, m.vibrationStatus)
  }

  /** The status one reading earns against its threshold. */
  function StatusFor(value: real, threshold: real): (s: string)
    ensures Judged(value, threshold, s)
    ensures s == NOT_OK <==> threshold <= value
  {
    if value < threshold then OK else NOT_OK
  }

  /** The row `add_motor` inserts: the submitted name and raw values with their three verdicts. */
  function Derive(name: string, current: real, temperature: real, vibration: real, t: Thresholds): (m: Motor)
    ensures m.name == name
    ensures m.current == current && m.temperature == temperature && m.vibration == vibration
    ensures DerivedFrom(m, t) && Labelled(m)
  {
    Motor(name, current, temperature, vibration,
          StatusFor(current, t.current),
          StatusFor(temperature, t.temperature),
          StatusFor(vibration, t.vibration))
  }

  /** The verdicts a set of thresholds gives are unique: Derive is the only row DerivedFrom them. */
  lemma DerivedFromIsDerive(m: Motor, t: Thresholds)
    requires DerivedFrom(m, t)
    ensures m == Derive(m.name, m.current, m.temperature, m.vibration, t)
  {
  }

  /** A reading equal to its threshold fails. */
  lemma AtThresholdIsNotOk(value: real)
    ensures StatusFor(value, value) == NOT_OK
  {
  }

  /** thresholds (10, 80, 5) and the reading (9, 85, 5) give (OK, NOT OK, NOT OK). */
  lemma SampleReading(name: string)
    ensures var m := Derive(name, 9.0, 85.0, 5.0, Thresholds(10.0, 80.0, 5.0));
            m.currentStatus == OK && m.temperatureStatus == NOT_OK && m.vibrationStatus == NOT_OK
  {
  }

  /**
   * Statuses are not recomputed when the thresholds change, so a stored row can
   * disagree with the thresholds now in force: the sample reading, judged under
   * (10, 80, 5), is no longer DerivedFrom (8, 80, 5).
   */
  lemma StoredStatusCanBeStale(name: string)
    ensures var m := Derive(name, 9.0, 85.0, 5.0, Thresholds(10.0, 80.0, 5.0));
            DerivedFrom(m, Thresholds(10.0, 80.0, 5.0)) && !DerivedFrom(m, Thresholds(8.0, 80.0, 5.0))
  {
  }

  // ---------------------------------------------------------------------------
  // Analysis counts
  // ---------------------------------------------------------------------------

  /** How many rows hold `status` in column `c`: one generator-expression sum of the analysis page. */
  function ColumnCount(rows: seq<Motor>, c: Column, status: string): (n: nat)
    ensures n <= |rows|
    ensures rows == [] ==> n == 0
  {
    if rows == [] then 0
    else (if StatusIn(rows[0], c) == status then 1 else 0) + ColumnCount(rows[1..], c, status)
  }

  /** Occurrences of `status` over all three status columns combined. */
  function LabelCount(rows: seq<Motor>, status: string): (n: nat)
    ensures n <= 3 * |rows|
  {
    ColumnCount(rows, CurrentColumn, status)
      + ColumnCount(rows, TemperatureColumn, status)
      + ColumnCount(rows, VibrationColumn, status)
  }

  /** `ok_count` of the analysis page. */
  function OkCount(rows: seq<Motor>): (n: nat)
    ensures n <= 3 * |rows|
    ensures rows == [] ==> n == 0
  {
    LabelCount(rows, OK)
  }

  /** `not_ok_count` of the analysis page. */
  function NotOkCount(rows: seq<Motor>): (n: nat)
    ensures n <= 3 * |rows|
    ensures rows == [] ==> n == 0
  {
    LabelCount(rows, NOT_OK)
  }

  /** Every status cell of the table, row by row: the reference the counts are checked against. */
  function Labels(rows: seq<Motor>): (s: seq<string>)
    ensures |s| == 3 * |rows|
  {
    if rows == [] then []
    else [rows[0].currentStatus, rows[0].temperatureStatus, rows[0].vibrationStatus] + Labels(rows[1..])
  }

  /** Summing the three columns separately counts exactly the cells of the whole table that hold `status`. */
  lemma {:induction false} LabelCountIsMultiplicity(rows: seq<Motor>, status: string)
    ensures LabelCount(rows, status) == multiset(Labels(rows))[status]
  {
    if rows != [] {
      LabelCountIsMultiplicity(rows[1..], status);
      var head := [rows[0].currentStatus, rows[0].temperatureStatus, rows[0].vibrationStatus];
      assert Labels(rows) == head + Labels(rows[1..]);
      assert multiset(Labels(rows)) == multiset(head) + multiset(Labels(rows[1..]));
    }
  }

  /** When every row is labelled, the two totals together cover every cell: three per row. */
  lemma {:induction false} CountsCoverTable(rows: seq<Motor>)
    requires forall i :: 0 <= i < |rows| ==> Labelled(rows[i])
    ensures OkCount(rows) + NotOkCount(rows) == 3 * |rows|
  {
    if rows != [] {
      assert Labelled(rows[0]);
      CountsCoverTable(rows[1..]);
    }
  }

  /** For one column, appending a row adds one exactly when that row holds the status there. */
  lemma {:induction false} ColumnCountAppend(rows: seq<Motor>, m: Motor, c: Column, status: string)
    ensures ColumnCount(rows + [m], c, status) == ColumnCount(rows, c, status) + (if StatusIn(m, c) == status then 1 else 0)
  {
    if rows != [] {
      assert (rows + [m])[1..] == rows[1..] + [m];
      ColumnCountAppend(rows[1..], m, c, status);
    } else {
      assert [] + [m] == [m];
    }
  }

  /** Counts are cumulative: a table extended by one row counts that row's labels on top of the old totals. */
  lemma LabelCountAppend(rows: seq<Motor>, m: Motor, status: string)
    ensures LabelCount(rows + [m], status) == LabelCount(rows, status) + LabelCount([m], status)
  {
    ColumnCountAppend(rows, m, CurrentColumn, status);
    ColumnCountAppend(rows, m, TemperatureColumn, status);
    ColumnCountAppend(rows, m, VibrationColumn, status);
    ColumnCountAppend([], m, CurrentColumn, status);
    ColumnCountAppend([], m, TemperatureColumn, status);
    ColumnCountAppend([], m, VibrationColumn, status);
  }
}

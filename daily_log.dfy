/**
 * The daily log: the workbook of `(Date, Total Cups)` rows, one row per
 * calendar day, that the app reads at startup and rewrites after every
 * change of the counter. The workbook is a sequence of rows whose dates are
 * already in `YYYY-MM-DD` form.
 */
module DailyLog {
  import opened Wrappers

  /** One row of the log table. */
  datatype Row = Row(date: string, totalCups: int)

  /** The log file as the program finds it when it tries to read it. */
  datatype LogFile =
    | Missing              // reading raises FileNotFoundError
    | Unreadable           // reading raises any other exception (corrupt workbook, no `Date` column, a date `to_datetime` rejects)
    | Table(rows: seq<Row>)

  predicate HasDate(rows: seq<Row>, d: string) {
    exists i :: 0 <= i < |rows| && rows[i].date == d
  }

  /** At most one row per date. */
  predicate UniqueDates(rows: seq<Row>) {
    forall i, j :: 0 <= i < j < |rows| ==> rows[i].date != rows[j].date
  }

  /** The position of the first row dated `d`, the row `today_entry.iloc[0]` picks. */
  function FirstIndex(rows: seq<Row>, d: string): (r: Option<nat>)
    ensures r.Some? ==> r.value < |rows| && rows[r.value].date == d
    ensures r.Some? ==> forall j :: 0 <= j < r.value ==> rows[j].date != d
    ensures r.None? <==> !HasDate(rows, d)
  {
    if rows == [] then None
    else if rows[0].date == d then Some(0)
    else
      match FirstIndex(rows[1..], d)
      case None =>
        assert forall i :: 1 <= i < |rows| ==> rows[i] == rows[1..][i - 1];
        None
      case Some(k) => Some(k + 1)
  }

  /**
   * Every row dated `d` gets the total `total` and every other row is kept:
   * the in-place column assignment `save_log` makes when today already has a row.
   */
  function SetTotal(rows: seq<Row>, d: string, total: int): (r: seq<Row>)
    ensures |r| == |rows|
    ensures forall i :: 0 <= i < |rows| ==> r[i].date == rows[i].date
    ensures forall i :: 0 <= i < |rows| && rows[i].date == d ==> r[i].totalCups == total
    ensures forall i :: 0 <= i < |rows| && rows[i].date != d ==> r[i] == rows[i]
  {
    if rows == [] then []
    else
      var head := if rows[0].date == d then Row(d, total) else rows[0];
      [head] + SetTotal(rows[1..], d, total)
  }

  /** The table `save_log` writes back: today's row patched if present, else a row appended. */
  function Upsert(rows: seq<Row>, d: string, total: int): seq<Row> {
    if HasDate(rows, d) then SetTotal(rows, d, total) else rows + [Row(d, total)]
  }

  /**
   * The file after `save_log` for day `d`: a missing file becomes a one-row
   * table, a table is upserted, and an unreadable file makes the read raise,
   * so nothing is written (None).
   */
  function Save(file: LogFile, d: string, total: int): Option<LogFile> {
    match file
    case Missing => Some(Table([Row(d, total)]))
    case Unreadable => None
    case Table(rows) => Some(Table(Upsert(rows, d, total)))
  }

  /** The total recorded for `d` in a table: the first row dated `d`, or 0 when there is none. */
  function TodayTotal(rows: seq<Row>, d: string): int {
    match FirstIndex(rows, d)
    case Some(i) => rows[i].totalCups
    case None => 0
  }

  /** What `load_or_create_log` reads for `d`: 0 when the file is missing or unreadable. */
  function LoadTotal(file: LogFile, d: string): int {
    if file.Table? then TodayTotal(file.rows, d) else 0
  }

  /** Tables with the same dates, position by position, have their first `d` at the same place. */
  lemma {:induction false} FirstIndexSameDates(a: seq<Row>, b: seq<Row>, d: string)
    requires |a| == |b|
    requires forall i :: 0 <= i < |a| ==> a[i].date == b[i].date
    ensures FirstIndex(a, d) == FirstIndex(b, d)
  {
    if a != [] && a[0].date != d {
      FirstIndexSameDates(a[1..], b[1..], d);
    }
  }

  /**
   * Today has a row and dates are unique: exactly that row's total changes,
   * every other row and the row count stay as they were.
   */
  lemma UpsertExisting(rows: seq<Row>, d: string, total: int)
    requires HasDate(rows, d) && UniqueDates(rows)
    ensures FirstIndex(rows, d).Some?
    ensures Upsert(rows, d, total) == rows[FirstIndex(rows, d).value := Row(d, total)]
  {
  }

  /** Today has no row: one row `(d, total)` is appended after the unchanged earlier rows. */
  lemma UpsertNew(rows: seq<Row>, d: string, total: int)
    requires !HasDate(rows, d)
    ensures Upsert(rows, d, total) == rows + [Row(d, total)]
  {
  }

  /** Saving the same total for the same day twice leaves the log as saving it once. */
  lemma UpsertIdempotent(rows: seq<Row>, d: string, total: int)
    ensures Upsert(Upsert(rows, d, total), d, total) == Upsert(rows, d, total)
  {
    var once := Upsert(rows, d, total);
    assert HasDate(once, d) by {
      if !HasDate(rows, d) {
        assert once[|rows|].date == d;
      } else {
        var k := FirstIndex(rows, d).value;
        assert once[k].date == d;
      }
    }
    var twice := SetTotal(once, d, total);
    forall i | 0 <= i < |once|
      ensures twice[i] == once[i]
    {
      if !HasDate(rows, d) && i == |rows| {
        assert once[i] == Row(d, total);
      }
    }
  }

  /** Reading today's total right after saving it gives back the saved total. */
  lemma LoadAfterUpsert(rows: seq<Row>, d: string, total: int)
    ensures TodayTotal(Upsert(rows, d, total), d) == total
  {
    var r := Upsert(rows, d, total);
    if HasDate(rows, d) {
      var k := FirstIndex(rows, d).value;
      assert r[k].date == d;
    } else {
      assert r[|rows|].date == d;
    }
  }

  /**
   * Round trip through the file: whenever `save_log` writes, reading today's
   * total back gives the saved total; a missing file becomes a one-row log.
   */
  lemma LoadAfterSave(file: LogFile, d: string, total: int)
    ensures Save(file, d, total).Some? <==> !file.Unreadable?
    ensures Save(file, d, total).Some? ==> LoadTotal(Save(file, d, total).value, d) == total
    ensures file.Missing? ==> Save(file, d, total) == Some(Table([Row(d, total)]))
  {
    if file.Table? {
      LoadAfterUpsert(file.rows, d, total);
    }
  }

  /** Saving today's total leaves what every other day reads unchanged. */
  lemma UpsertOtherDays(rows: seq<Row>, d: string, total: int, other: string)
    requires other != d
    ensures TodayTotal(Upsert(rows, d, total), other) == TodayTotal(rows, other)
  {
    var r := Upsert(rows, d, total);
    if HasDate(rows, d) {
      FirstIndexSameDates(rows, r, other);
    } else {
      assert forall i :: 0 <= i < |rows| ==> r[i] == rows[i];
      if FirstIndex(r, other).Some? {
        assert FirstIndex(r, other).value < |rows| by {
          assert r[|rows|].date == d;
        }
      }
    }
  }

  /** Saving keeps the log at most one row per date. */
  lemma UpsertKeepsDatesUnique(rows: seq<Row>, d: string, total: int)
    requires UniqueDates(rows)
    ensures UniqueDates(Upsert(rows, d, total))
  {
  }
}

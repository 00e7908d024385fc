/**
 The sales table: one row per record, three hierarchy keys and a set of numeric
 metric columns. A cell missing from a row's map is a NaN cell; a column missing
 from `columns` is a column the loaded file does not have.
 */
module Table {
  import opened Wrappers

  /** The three hierarchy columns: `DSM`, `ASE` and `SO_Territory`. */
  datatype Level = Dsm | Ase | Territory

  datatype Row = Row(
    dsm: Option<string>,
    ase: Option<string>,
    territory: Option<string>,
    cells: map<string, real>)

  datatype Table = Table(columns: set<string>, rows: seq<Row>)

  function KeyOf(row: Row, level: Level): Option<string>
  {
    match level
    case Dsm => row.dsm
    case Ase => row.ase
    case Territory => row.territory
  }

  /** The hierarchy column `level`, NaN entries included. */
  function Keys(rows: seq<Row>, level: Level): (r: seq<Option<string>>)
    ensures |r| == |rows|
    ensures forall i :: 0 <= i < |rows| ==> r[i] == KeyOf(rows[i], level)
  {
    seq(|rows|, i requires 0 <= i < |rows| => KeyOf(rows[i], level))
  }

  lemma KeysMembership(rows: seq<Row>, level: Level, v: string)
    ensures Some(v) in Keys(rows, level) <==> exists row :: row in rows && KeyOf(row, level) == Some(v)
  {
    var ks := Keys(rows, level);
    if Some(v) in ks {
      var i :| 0 <= i < |ks| && ks[i] == Some(v);
      assert rows[i] in rows;
    }
    if exists row :: row in rows && KeyOf(row, level) == Some(v) {
      var row :| row in rows && KeyOf(row, level) == Some(v);
      var i :| 0 <= i < |rows| && rows[i] == row;
      assert ks[i] == Some(v);
    }
  }

  /** The rows whose `level` key equals `v` (a NaN key never equals anything), in order. */
  function Restrict(rows: seq<Row>, level: Level, v: string): (r: seq<Row>)
    ensures forall row :: row in r <==> row in rows && KeyOf(row, level) == Some(v)
    ensures |r| <= |rows|
  {
    if |rows| == 0 then []
    else
      assert rows == [rows[0]] + rows[1..];
      var rest := Restrict(rows[1..], level, v);
      if KeyOf(rows[0], level) == Some(v) then [rows[0]] + rest else rest
  }

  /** Restricting distributes over concatenation: order is preserved, nothing is reordered. */
  lemma {:induction false} RestrictAppend(a: seq<Row>, b: seq<Row>, level: Level, v: string)
    ensures Restrict(a + b, level, v) == Restrict(a, level, v) + Restrict(b, level, v)
    decreases |a|
  {
    if |a| == 0 {
      assert a + b == b;
    } else {
      assert (a + b)[1..] == a[1..] + b;
      RestrictAppend(a[1..], b, level, v);
    }
  }

  /** A cell's contribution to a column sum: pandas `sum` skips NaN. */
  function Cell(row: Row, col: string): real
  {
    if col in row.cells then row.cells[col] else 0.0
  }

  function ColumnSum(rows: seq<Row>, col: string): real
  {
    if |rows| == 0 then 0.0 else Cell(rows[0], col) + ColumnSum(rows[1..], col)
  }

  lemma {:induction false} ColumnSumAppend(a: seq<Row>, b: seq<Row>, col: string)
    ensures ColumnSum(a + b, col) == ColumnSum(a, col) + ColumnSum(b, col)
    decreases |a|
  {
    if |a| == 0 {
      assert a + b == b;
    } else {
      assert (a + b)[1..] == a[1..] + b;
      ColumnSumAppend(a[1..], b, col);
    }
  }

  lemma ColumnSumSingle(row: Row, col: string)
    ensures ColumnSum([row], col) == Cell(row, col)
  {
    assert [row][1..] == [];
  }

  /** A column whose every cell is NaN (or a table with no rows) sums to 0. */
  lemma {:induction false} ColumnSumAllNaN(rows: seq<Row>, col: string)
    requires forall row :: row in rows ==> col !in row.cells
    ensures ColumnSum(rows, col) == 0.0
    decreases |rows|
  {
    if |rows| > 0 {
      assert rows[0] in rows;
      ColumnSumAllNaN(rows[1..], col);
    }
  }

  /** `sum_or_zero`: the column sum when the column exists, else 0. */
  function SumOrZero(t: Table, col: string): real
  {
    if col in t.columns then ColumnSum(t.rows, col) else 0.0
  }

  /** `sum_or_zero` adds up over a split of the rows of a table with fixed columns. */
  lemma SumOrZeroAppend(columns: set<string>, a: seq<Row>, b: seq<Row>, col: string)
    ensures SumOrZero(Table(columns, a + b), col)
      == SumOrZero(Table(columns, a), col) + SumOrZero(Table(columns, b), col)
  {
    ColumnSumAppend(a, b, col);
  }

  /** On a single row `sum_or_zero` is the row's cell, NaN counting as 0, or 0 for a missing column. */
  lemma SumOrZeroSingle(columns: set<string>, row: Row, col: string)
    ensures SumOrZero(Table(columns, [row]), col)
      == (if col in columns && col in row.cells then row.cells[col] else 0.0)
  {
    ColumnSumSingle(row, col);
  }

  /** With no rows, every `sum_or_zero` is 0. */
  lemma SumOrZeroEmpty(columns: set<string>, col: string)
    ensures SumOrZero(Table(columns, []), col) == 0.0
  {
    ColumnSumAllNaN([], col);
  }

  /** How many cells of the column are not NaN: the divisor of pandas `mean`. */
  function PresentCount(rows: seq<Row>, col: string): (n: nat)
    ensures n <= |rows|
  {
    if |rows| == 0 then 0
    else (if col in rows[0].cells then 1 else 0) + PresentCount(rows[1..], col)
  }

  lemma {:induction false} PresentCountZero(rows: seq<Row>, col: string)
    ensures PresentCount(rows, col) == 0 <==> forall row :: row in rows ==> col !in row.cells
    decreases |rows|
  {
    if |rows| > 0 {
      assert rows == [rows[0]] + rows[1..];
      PresentCountZero(rows[1..], col);
    }
  }

  /** `a` added up `n` times. */
  function Times(a: real, n: nat): real
  {
    if n == 0 then 0.0 else a + Times(a, n - 1)
  }

  lemma {:induction false} TimesIsProduct(a: real, n: nat)
    ensures Times(a, n) == a * (n as real)
  {
    if n > 0 {
      TimesIsProduct(a, n - 1);
      assert a * (n as real) == a * ((n - 1) as real) + a;
    }
  }

  /** A column sum is at least `lo` once per present cell when every present cell is at least `lo`. */
  lemma {:induction false} ColumnSumLowerBound(rows: seq<Row>, col: string, lo: real)
    requires forall row :: row in rows && col in row.cells ==> lo <= row.cells[col]
    ensures Times(lo, PresentCount(rows, col)) <= ColumnSum(rows, col)
    decreases |rows|
  {
    if |rows| > 0 {
      assert forall row :: row in rows[1..] ==> row in rows;
      ColumnSumLowerBound(rows[1..], col, lo);
      assert rows[0] in rows;
    }
  }

  /** A column sum is at most `hi` once per present cell when every present cell is at most `hi`. */
  lemma {:induction false} ColumnSumUpperBound(rows: seq<Row>, col: string, hi: real)
    requires forall row :: row in rows && col in row.cells ==> row.cells[col] <= hi
    ensures ColumnSum(rows, col) <= Times(hi, PresentCount(rows, col))
    decreases |rows|
  {
    if |rows| > 0 {
      assert forall row :: row in rows[1..] ==> row in rows;
      ColumnSumUpperBound(rows[1..], col, hi);
      assert rows[0] in rows;
    }
  }

  lemma QuotientBounds(s: real, n: real, lo: real, hi: real)
    requires n > 0.0 && lo * n <= s <= hi * n
    ensures lo <= s / n <= hi
  {
    var q := s / n;
    assert q * n == s;
    assert (q - lo) * n == s - lo * n;
    assert (hi - q) * n == hi * n - s;
  }

  /** pandas `mean` with NaN skipped; `None` is the NaN mean of an all-NaN column. */
  function ColumnMean(rows: seq<Row>, col: string): (m: Option<real>)
    ensures m.None? <==> forall row :: row in rows ==> col !in row.cells
    // the mean times the number of present cells gives back the NaN-skipping sum
    ensures m.Some? ==> m.value * (PresentCount(rows, col) as real) == ColumnSum(rows, col)
  {
    PresentCountZero(rows, col);
    var n := PresentCount(rows, col);
    if n == 0 then None else Some(ColumnSum(rows, col) / (n as real))
  }

  /** The mean of a column lies between the bounds of its present cells. */
  lemma MeanBounds(rows: seq<Row>, col: string, lo: real, hi: real)
    requires forall row :: row in rows && col in row.cells ==> lo <= row.cells[col] <= hi
    requires ColumnMean(rows, col).Some?
    ensures lo <= ColumnMean(rows, col).value <= hi
  {
    var n := PresentCount(rows, col);
    var s := ColumnSum(rows, col);
    assert n != 0;
    assert ColumnMean(rows, col) == Some(s / (n as real));
    SumWithinProducts(rows, col, lo, hi);
    QuotientBounds(s, n as real, lo, hi);
  }

  lemma SumWithinProducts(rows: seq<Row>, col: string, lo: real, hi: real)
    requires forall row :: row in rows && col in row.cells ==> lo <= row.cells[col] <= hi
    ensures lo * (PresentCount(rows, col) as real) <= ColumnSum(rows, col) <= hi * (PresentCount(rows, col) as real)
  {
    ColumnSumLowerBound(rows, col, lo);
    ColumnSumUpperBound(rows, col, hi);
    TimesIsProduct(lo, PresentCount(rows, col));
    TimesIsProduct(hi, PresentCount(rows, col));
  }

  /** The `TP per Outlet` style aggregate: the mean when the column exists, else 0. */
  function MeanOrZero(t: Table, col: string): (m: Option<real>)
    ensures col !in t.columns ==> m == Some(0.0)
    ensures col in t.columns ==> (m.None? <==> forall row :: row in t.rows ==> col !in row.cells)
    ensures col in t.columns && m.Some? ==> m.value * (PresentCount(t.rows, col) as real) == ColumnSum(t.rows, col)
  {
    if col in t.columns then ColumnMean(t.rows, col) else Some(0.0)
  }
}

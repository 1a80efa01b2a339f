/** The data frame the pipeline works on: named, typed columns of equal length, as
    `pd.read_csv` produces them. */
module Frame {
  import opened Wrappers

  /** A point in time as `pd.to_datetime` yields it: its year, its month, and where in
      that month it falls. */
  datatype Moment = Moment(year: int, month: int, within: nat)

  /** One cell: a number, a string, a boolean, a timestamp, or a missing value (NaN,
      and NaT in a datetime column). */
  datatype Cell = Num(x: real) | Str(s: string) | Flag(b: bool) | Stamp(at: Moment) | Missing

  /** A column's dtype: int64/float64, object, bool, or datetime64. */
  datatype Kind = Numeric | Categorical | Boolean | Datetime

  datatype Column = Column(name: string, kind: Kind, cells: seq<Cell>)

  /** Columns in order and the number of rows they all have. */
  datatype Table = Table(columns: seq<Column>, rows: nat)

  /** What a cell of each dtype can hold: a numeric column numbers and NaN, an object
      column strings (and Python booleans next to NaN), a bool column booleans only, a
      datetime column timestamps (the only datetime column the pipeline stores, the
      selected signup dates, holds no NaT). */
  predicate Fits(k: Kind, c: Cell) {
    match k
    case Numeric => c.Num? || c.Missing?
    case Categorical => c.Str? || c.Flag? || c.Missing?
    case Boolean => c.Flag?
    case Datetime => c.Stamp?
  }

  predicate ColumnFits(col: Column, rows: nat) {
    && |col.cells| == rows
    && forall i :: 0 <= i < |col.cells| ==> Fits(col.kind, col.cells[i])
  }

  predicate WellFormed(t: Table) {
    forall j :: 0 <= j < |t.columns| ==> ColumnFits(t.columns[j], t.rows)
  }

  function Names(cols: seq<Column>): (r: seq<string>)
    ensures |r| == |cols|
    ensures forall j :: 0 <= j < |cols| ==> r[j] == cols[j].name
  {
    seq(|cols|, j requires 0 <= j < |cols| => cols[j].name)
  }

  predicate DistinctNames(cols: seq<Column>) {
    forall j, k :: 0 <= j < k < |cols| ==> cols[j].name != cols[k].name
  }

  /** The position of the first column called `name`. */
  function ColumnIndex(cols: seq<Column>, name: string): (r: Option<nat>)
    ensures r.Some? ==> r.value < |cols| && cols[r.value].name == name
    ensures r.Some? ==> forall j :: 0 <= j < r.value ==> cols[j].name != name
    ensures r.None? <==> forall j :: 0 <= j < |cols| ==> cols[j].name != name
  {
    if |cols| == 0 then None
    else if cols[0].name == name then Some(0)
    else match ColumnIndex(cols[1..], name)
      case Some(k) => Some(k + 1)
      case None => None
  }

  /** The cells of row `i`, one per column. */
  function Row(t: Table, i: nat): (r: seq<Cell>)
    requires WellFormed(t) && i < t.rows
    ensures |r| == |t.columns|
    ensures forall j :: 0 <= j < |t.columns| ==> r[j] == t.columns[j].cells[i]
  {
    seq(|t.columns|, j requires 0 <= j < |t.columns| => t.columns[j].cells[i])
  }

  predicate DistinctRows(t: Table)
    requires WellFormed(t)
  {
    forall i, k :: 0 <= i < k < t.rows ==> Row(t, i) != Row(t, k)
  }

  predicate NoMissingCells(cells: seq<Cell>) {
    forall i :: 0 <= i < |cells| ==> !cells[i].Missing?
  }

  predicate NoMissing(t: Table) {
    forall j :: 0 <= j < |t.columns| ==> NoMissingCells(t.columns[j].cells)
  }

  function CountMissing(cells: seq<Cell>): (n: nat)
    ensures n <= |cells|
    ensures n == 0 <==> NoMissingCells(cells)
  {
    if |cells| == 0 then 0
    else (if cells[0].Missing? then 1 else 0) + CountMissing(cells[1..])
  }

  /** `df.isnull().sum().sum()`. */
  function MissingCount(cols: seq<Column>): nat {
    if |cols| == 0 then 0 else CountMissing(cols[0].cells) + MissingCount(cols[1..])
  }

  lemma MissingCountBound(t: Table)
    requires WellFormed(t)
    ensures MissingCount(t.columns) <= t.rows * |t.columns|
    ensures MissingCount(t.columns) == 0 <==> NoMissing(t)
  {
    assert forall j :: 0 <= j < |t.columns| ==> ColumnFits(t.columns[j], t.rows);
    ColumnsMissingBound(t.columns, t.rows);
    ColumnsMissingZero(t.columns);
  }

  lemma {:induction false} ColumnsMissingBound(cols: seq<Column>, rows: nat)
    requires forall j :: 0 <= j < |cols| ==> |cols[j].cells| == rows
    ensures MissingCount(cols) <= rows * |cols|
    decreases |cols|
  {
    if |cols| > 0 {
      var rest := cols[1..];
      assert forall j :: 0 <= j < |rest| ==> |rest[j].cells| == |cols[j + 1].cells|;
      ColumnsMissingBound(rest, rows);
      var m := MissingCount(rest);
      assert MissingCount(cols) == CountMissing(cols[0].cells) + m;
      MultiplySuccessor(rows, |rest|);
    }
  }

  lemma MultiplySuccessor(a: nat, b: nat)
    ensures a * (b + 1) == a + a * b
  {
  }

  lemma {:induction false} ColumnsMissingZero(cols: seq<Column>)
    ensures MissingCount(cols) == 0 <==> forall j :: 0 <= j < |cols| ==> NoMissingCells(cols[j].cells)
    decreases |cols|
  {
    if |cols| > 0 {
      var rest := cols[1..];
      ColumnsMissingZero(rest);
      if NoMissingCells(cols[0].cells) && forall j :: 0 <= j < |rest| ==> NoMissingCells(rest[j].cells) {
        forall j | 0 <= j < |cols| ensures NoMissingCells(cols[j].cells) {
          if j > 0 { assert cols[j] == rest[j - 1]; }
        }
      }
      if forall j :: 0 <= j < |cols| ==> NoMissingCells(cols[j].cells) {
        assert forall j :: 0 <= j < |rest| ==> rest[j] == cols[j + 1];
      }
    }
  }

  /** The rows at positions `idx`, in that order (`df.iloc[idx]`, a boolean mask). */
  function SelectRows(t: Table, idx: seq<nat>): (r: Table)
    requires WellFormed(t)
    requires forall k :: 0 <= k < |idx| ==> idx[k] < t.rows
    ensures WellFormed(r) && r.rows == |idx| && |r.columns| == |t.columns|
    ensures Names(r.columns) == Names(t.columns)
    ensures forall j :: 0 <= j < |t.columns| ==> r.columns[j].kind == t.columns[j].kind
    ensures forall k :: 0 <= k < |idx| ==> Row(r, k) == Row(t, idx[k])
  {
    var cols := seq(|t.columns|, j requires 0 <= j < |t.columns| =>
      var c := t.columns[j];
      c.(cells := seq(|idx|, k requires 0 <= k < |idx| => c.cells[idx[k]])));
    var r := Table(cols, |idx|);
    assert WellFormed(r) by {
      forall j | 0 <= j < |cols| ensures ColumnFits(cols[j], |idx|) {
        assert ColumnFits(t.columns[j], t.rows);
      }
    }
    r
  }

  /** Selecting rows keeps every cell a cell of the same column, so a table without
      missing cells stays without them. */
  lemma SelectKeepsNoMissing(t: Table, idx: seq<nat>)
    requires WellFormed(t) && NoMissing(t)
    requires forall k :: 0 <= k < |idx| ==> idx[k] < t.rows
    ensures NoMissing(SelectRows(t, idx))
  {
    var r := SelectRows(t, idx);
    forall j | 0 <= j < |r.columns| ensures NoMissingCells(r.columns[j].cells) {
      forall k | 0 <= k < r.rows ensures !r.columns[j].cells[k].Missing? {
        assert r.columns[j].cells[k] == Row(r, k)[j] == Row(t, idx[k])[j];
        assert NoMissingCells(t.columns[j].cells);
      }
    }
  }

  /** The positions at which `mask` holds, in increasing order: the labels a boolean
      filter keeps, which is how `drop` and a boolean index preserve order. */
  function Positions(mask: seq<bool>): (keep: seq<nat>)
    ensures |keep| <= |mask|
    ensures forall k :: 0 <= k < |keep| ==> keep[k] < |mask| && mask[keep[k]]
    ensures forall k, l :: 0 <= k < l < |keep| ==> keep[k] < keep[l]
    ensures forall i :: 0 <= i < |mask| && mask[i] ==> i in keep
  {
    if |mask| == 0 then []
    else
      var front := mask[..|mask| - 1];
      var rest := Positions(front);
      assert forall i :: 0 <= i < |front| ==> front[i] == mask[i];
      rest + (if mask[|mask| - 1] then [|mask| - 1] else [])
  }

  /** The elements of `xs` at which `mask` holds, in their order (a boolean filter). */
  function Pick<T>(xs: seq<T>, mask: seq<bool>): (r: seq<T>)
    requires |xs| == |mask|
    ensures |r| <= |xs|
  {
    if |xs| == 0 then []
    else (if mask[0] then [xs[0]] else []) + Pick(xs[1..], mask[1..])
  }

  /** The filter of all but the last element, then the last one when the mask holds. */
  lemma {:induction false} PickSnoc<T>(xs: seq<T>, mask: seq<bool>)
    requires |xs| == |mask| > 0
    ensures Pick(xs, mask) ==
              Pick(xs[..|xs| - 1], mask[..|mask| - 1]) + (if mask[|mask| - 1] then [xs[|xs| - 1]] else [])
  {
    if |xs| > 1 {
      PickSnoc(xs[1..], mask[1..]);
      assert xs[..|xs| - 1][1..] == xs[1..][..|xs| - 2];
      assert mask[..|mask| - 1][1..] == mask[1..][..|mask| - 2];
    }
  }

  /** Entry k of the filter is the element at the k-th position where the mask holds:
      the order is kept and nothing is repeated. */
  lemma {:induction false} PickInOrder<T>(xs: seq<T>, mask: seq<bool>)
    requires |xs| == |mask|
    ensures var keep := Positions(mask); var r := Pick(xs, mask);
      |r| == |keep| && forall k :: 0 <= k < |keep| ==> r[k] == xs[keep[k]]
  {
    if |xs| > 0 {
      var rest := Pick(xs[..|xs| - 1], mask[..|mask| - 1]);
      PickInOrder(xs[..|xs| - 1], mask[..|mask| - 1]);
      PickSnoc(xs, mask);
      var r := Pick(xs, mask);
      var keep := Positions(mask);
      assert keep == Positions(mask[..|mask| - 1]) + (if mask[|mask| - 1] then [|mask| - 1] else []);
      forall k | 0 <= k < |keep| ensures r[k] == xs[keep[k]] {
        if k < |rest| { assert xs[..|xs| - 1][keep[k]] == xs[keep[k]]; }
      }
    }
  }
}

/** `clean_data` (app.py:41-110): validate a freshly read frame, lowercase it, fill its
    missing cells, drop duplicate rows, coerce the charge columns, drop identifier
    columns and score the result. The steps are functions, composed by `Clean` in the
    order of the source; `CleanData` runs the column loops of the source and is proved
    to compute `Clean`. */
module Cleaning {
  import opened Wrappers
  import opened Strings
  import opened Frame
  import Stats

  /** The errors `clean_data` raises: its own ValueErrors, and the AttributeError
      of `.str` on an object column that holds no string (`NotText`). */
  datatype CleanError =
    | EmptyDataset
    | TooFewRows
    | AmbiguousColumns
    | OnlyMissing(column: string)
    | NotText(column: string)
    | NoValidCharges(column: string)
    | NotNumeric(column: string)

  /** The quality score, or NaN when no column survives (0 cells, 0/0). */
  datatype Quality = Score(value: real) | Undefined

  datatype Cleaned = Cleaned(table: Table, quality: Quality)

  const MinRows: nat := 10
  const IdMarker := "id"
  const TotalCharges := "totalcharges"
  const MonthlyCharges := "monthlycharges"
  const Tenure := "tenure"

  // ---------------------------------------------------------------------------
  // Lowercasing names and object cells (app.py:53-56)

  function LowerNames(cols: seq<Column>): (r: seq<Column>)
    ensures |r| == |cols|
    ensures forall j :: 0 <= j < |cols| ==> r[j] == cols[j].(name := Lower(cols[j].name))
  {
    seq(|cols|, j requires 0 <= j < |cols| => cols[j].(name := Lower(cols[j].name)))
  }

  /** On a column `.str` accepts, `.str.lower()` lowercases strings and turns every
      other value into NaN. */
  function LowerCell(c: Cell): (r: Cell)
    ensures r.Str? <==> c.Str?
    ensures c.Str? ==> r.s == Lower(c.s)
  {
    match c
    case Str(s) => Str(Lower(s))
    case _ => Missing
  }

  function LowerValues(col: Column): (r: Column)
    ensures r.name == col.name && r.kind == col.kind && |r.cells| == |col.cells|
    ensures col.kind == Categorical ==> forall i :: 0 <= i < |col.cells| ==> r.cells[i] == LowerCell(col.cells[i])
    ensures col.kind != Categorical ==> r == col
  {
    if col.kind == Categorical then
      col.(cells := seq(|col.cells|, i requires 0 <= i < |col.cells| => LowerCell(col.cells[i])))
    else col
  }

  /** What the loop over `categorical_cols` leaves behind. */
  function LowerAll(cols: seq<Column>): (r: seq<Column>)
    ensures |r| == |cols| && forall j :: 0 <= j < |cols| ==> r[j] == LowerValues(cols[j])
  {
    seq(|cols|, j requires 0 <= j < |cols| => LowerValues(cols[j]))
  }

  /** An object column that `.str` refuses: with NaN skipped, pandas infers its values
      as booleans, because it holds a boolean and no string. `.str.lower()` raises
      `AttributeError` on it. A column that also holds a string infers as mixed, and its
      booleans become NaN. */
  predicate InfersBoolean(col: Column) {
    && col.kind == Categorical
    && (exists i :: 0 <= i < |col.cells| && col.cells[i].Flag?)
    && forall i :: 0 <= i < |col.cells| ==> !col.cells[i].Str?
  }

  /** The first object column the lowering loop raises on. */
  function FirstBooleanObject(cols: seq<Column>): (r: Option<nat>)
    ensures r.Some? ==> r.value < |cols| && InfersBoolean(cols[r.value])
    ensures r.Some? ==> forall l :: 0 <= l < r.value ==> !InfersBoolean(cols[l])
    ensures r.None? <==> forall l :: 0 <= l < |cols| ==> !InfersBoolean(cols[l])
  {
    if |cols| == 0 then None
    else if InfersBoolean(cols[0]) then Some(0)
    else match FirstBooleanObject(cols[1..])
      case Some(k) => Some(k + 1)
      case None => None
  }

  /** Lines 54-56: every object column lowered, or the error of the first one that
      `.str` refuses, which stops the loop before any fill. */
  function LowerPass(cols: seq<Column>): (r: Result<seq<Column>, CleanError>)
    ensures r.Ok? <==> forall l :: 0 <= l < |cols| ==> !InfersBoolean(cols[l])
    ensures r.Ok? ==> r.value == LowerAll(cols)
    ensures r.Err? ==> FirstBooleanObject(cols).Some? && r.error == NotText(cols[FirstBooleanObject(cols).value].name)
  {
    match FirstBooleanObject(cols)
    case Some(j) => Err(NotText(cols[j].name))
    case None => Ok(LowerAll(cols))
  }

  // ---------------------------------------------------------------------------
  // Filling missing cells (app.py:59-68)

  predicate AllMissing(cells: seq<Cell>) {
    forall i :: 0 <= i < |cells| ==> cells[i].Missing?
  }

  /** The numbers of a column, in order. */
  function NumValues(cells: seq<Cell>): (r: seq<real>)
    ensures |r| <= |cells|
    ensures forall i :: 0 <= i < |cells| && cells[i].Num? ==> cells[i].x in r
    ensures forall v :: v in r ==> Num(v) in cells
  {
    if |cells| == 0 then []
    else
      var rest := NumValues(cells[1..]);
      assert forall i :: 1 <= i < |cells| ==> cells[i] == cells[1..][i - 1];
      if cells[0].Num? then [cells[0].x] + rest else rest
  }

  /** The strings of a column, in order. */
  function StrValues(cells: seq<Cell>): (r: seq<string>)
    ensures |r| <= |cells|
    ensures forall i :: 0 <= i < |cells| && cells[i].Str? ==> cells[i].s in r
    ensures forall v :: v in r ==> Str(v) in cells
  {
    if |cells| == 0 then []
    else
      var rest := StrValues(cells[1..]);
      assert forall i :: 1 <= i < |cells| ==> cells[i] == cells[1..][i - 1];
      if cells[0].Str? then [cells[0].s] + rest else rest
  }

  /** `fillna(v)`: every missing cell replaced by `v`, every other cell kept. */
  function FillWith(cells: seq<Cell>, v: Cell): (r: seq<Cell>)
    requires !v.Missing?
    ensures |r| == |cells| && NoMissingCells(r)
    ensures forall i :: 0 <= i < |cells| ==> r[i] == (if cells[i].Missing? then v else cells[i])
  {
    seq(|cells|, i requires 0 <= i < |cells| => if cells[i].Missing? then v else cells[i])
  }

  /** Cells an object column can hold once lowercased: strings and NaN. */
  predicate Lowered(col: Column) {
    col.kind == Categorical ==> forall i :: 0 <= i < |col.cells| ==> col.cells[i].Str? || col.cells[i].Missing?
  }

  /** The dtypes `select_dtypes` picks for the fill loops: numbers and objects. */
  predicate Fillable(k: Kind) {
    k == Numeric || k == Categorical
  }

  /** Fill one column of kind `k` (a numeric column with its median, an object column
      with its mode); a column with nothing to take a fill value from raises. */
  function FillColumn(col: Column): (r: Result<Column, CleanError>)
    requires Fillable(col.kind)
    requires forall i :: 0 <= i < |col.cells| ==> Fits(col.kind, col.cells[i])
    requires Lowered(col)
    ensures r.Err? <==> AllMissing(col.cells)
    ensures r.Err? ==> r.error == OnlyMissing(col.name)
    ensures r.Ok? ==> && r.value.name == col.name && r.value.kind == col.kind
                      && |r.value.cells| == |col.cells| && NoMissingCells(r.value.cells)
                      && (forall i :: 0 <= i < |col.cells| ==> Fits(col.kind, r.value.cells[i]))
                      && (forall i :: 0 <= i < |col.cells| && !col.cells[i].Missing? ==> r.value.cells[i] == col.cells[i])
  {
    if AllMissing(col.cells) then Err(OnlyMissing(col.name))
    else
      HasValues(col);
      var fill := if col.kind == Numeric then Num(Stats.Median(NumValues(col.cells)))
                  else Str(Stats.Mode(StrValues(col.cells)));
      Ok(col.(cells := FillWith(col.cells, fill)))
  }

  /** A column not entirely missing has a value to take its fill value from. */
  lemma HasValues(col: Column)
    requires Fillable(col.kind)
    requires forall i :: 0 <= i < |col.cells| ==> Fits(col.kind, col.cells[i])
    requires Lowered(col) && !AllMissing(col.cells)
    ensures col.kind == Numeric ==> |NumValues(col.cells)| > 0
    ensures col.kind == Categorical ==> |StrValues(col.cells)| > 0
  {
    var i :| 0 <= i < |col.cells| && !col.cells[i].Missing?;
    assert Fits(col.kind, col.cells[i]);
    if col.kind == Numeric {
      assert col.cells[i].x in NumValues(col.cells);
    } else {
      assert col.cells[i].s in StrValues(col.cells);
    }
  }

  /** One column's part of the loop over the columns of kind `k`. */
  function FillStep(col: Column, k: Kind): Result<Column, CleanError>
    requires Fillable(k)
    requires forall i :: 0 <= i < |col.cells| ==> Fits(col.kind, col.cells[i])
    requires Lowered(col)
  {
    if col.kind == k then FillColumn(col) else Ok(col)
  }

  predicate ColumnsFit(cols: seq<Column>) {
    forall j :: 0 <= j < |cols| ==> forall i :: 0 <= i < |cols[j].cells| ==> Fits(cols[j].kind, cols[j].cells[i])
  }

  predicate AllLowered(cols: seq<Column>) {
    forall j :: 0 <= j < |cols| ==> Lowered(cols[j])
  }

  /** The loop over the columns of kind `k`: fill them left to right, raising at the
      first one that is entirely missing. */
  function FillPass(cols: seq<Column>, k: Kind): (r: Result<seq<Column>, CleanError>)
    requires Fillable(k) && ColumnsFit(cols) && AllLowered(cols)
  {
    if |cols| == 0 then Ok([])
    else
      var head :- FillStep(cols[0], k);
      var tail :- FillPass(cols[1..], k);
      Ok([head] + tail)
  }

  lemma SuffixFits(cols: seq<Column>, j: nat)
    requires ColumnsFit(cols) && AllLowered(cols) && j <= |cols|
    ensures ColumnsFit(cols[j..]) && AllLowered(cols[j..])
  {
    assert forall l :: 0 <= l < |cols[j..]| ==> cols[j..][l] == cols[j + l];
  }

  /** The columns already filled, put in front of the result for the rest. */
  function Prefixed(done: seq<Column>, rest: Result<seq<Column>, CleanError>): Result<seq<Column>, CleanError> {
    match rest
    case Err(e) => Err(e)
    case Ok(cols) => Ok(done + cols)
  }

  lemma PrefixedNothing(rest: Result<seq<Column>, CleanError>)
    ensures Prefixed([], rest) == rest
  {
    if rest.Ok? {
      assert [] + rest.value == rest.value;
    }
  }

  lemma PrefixedTwice(a: seq<Column>, b: seq<Column>, rest: Result<seq<Column>, CleanError>)
    ensures Prefixed(a, Prefixed(b, rest)) == Prefixed(a + b, rest)
  {
    if rest.Ok? {
      assert a + (b + rest.value) == (a + b) + rest.value;
    }
  }

  /** One step of a fill pass: the first column's fill, then the rest. */
  lemma FillPassUnfold(cols: seq<Column>, k: Kind)
    requires Fillable(k) && ColumnsFit(cols) && AllLowered(cols) && |cols| > 0
    ensures ColumnsFit(cols[1..]) && AllLowered(cols[1..])
    ensures FillPass(cols, k) ==
      match FillStep(cols[0], k)
      case Err(e) => Err(e)
      case Ok(c) => Prefixed([c], FillPass(cols[1..], k))
  {
    SuffixFits(cols, 1);
  }

  /** A fill pass succeeds exactly when no column of kind `k` is entirely missing, and
      then fills each of them; otherwise it raises for the first such column. */
  lemma {:induction false} FillPassSpec(cols: seq<Column>, k: Kind)
    requires Fillable(k) && ColumnsFit(cols) && AllLowered(cols)
    ensures var r := FillPass(cols, k);
      && (r.Ok? <==> forall j :: 0 <= j < |cols| && cols[j].kind == k ==> !AllMissing(cols[j].cells))
      && (r.Ok? ==> |r.value| == |cols| && forall j :: 0 <= j < |cols| ==> Ok(r.value[j]) == FillStep(cols[j], k))
      && (r.Err? ==> exists j :: && 0 <= j < |cols| && cols[j].kind == k && AllMissing(cols[j].cells)
                                 && r.error == OnlyMissing(cols[j].name)
                                 && forall l :: 0 <= l < j && cols[l].kind == k ==> !AllMissing(cols[l].cells))
  {
    FillPassOkIff(cols, k);
    FillPassValues(cols, k);
    FillPassFirstError(cols, k);
  }

  lemma {:induction false} FillPassOkIff(cols: seq<Column>, k: Kind)
    requires Fillable(k) && ColumnsFit(cols) && AllLowered(cols)
    ensures FillPass(cols, k).Ok? <==> forall j :: 0 <= j < |cols| && cols[j].kind == k ==> !AllMissing(cols[j].cells)
  {
    if |cols| > 0 {
      FillPassUnfold(cols, k);
      assert forall j :: 1 <= j < |cols| ==> cols[j] == cols[1..][j - 1];
      FillPassOkIff(cols[1..], k);
    }
  }

  lemma {:induction false} FillPassValues(cols: seq<Column>, k: Kind)
    requires Fillable(k) && ColumnsFit(cols) && AllLowered(cols)
    ensures var r := FillPass(cols, k);
      r.Ok? ==> |r.value| == |cols| && forall j :: 0 <= j < |cols| ==> Ok(r.value[j]) == FillStep(cols[j], k)
  {
    if |cols| > 0 {
      FillPassUnfold(cols, k);
      assert forall j :: 1 <= j < |cols| ==> cols[j] == cols[1..][j - 1];
      FillPassValues(cols[1..], k);
    }
  }

  lemma {:induction false} FillPassFirstError(cols: seq<Column>, k: Kind)
    requires Fillable(k) && ColumnsFit(cols) && AllLowered(cols)
    ensures var r := FillPass(cols, k);
      r.Err? ==> exists j :: && 0 <= j < |cols| && cols[j].kind == k && AllMissing(cols[j].cells)
                             && r.error == OnlyMissing(cols[j].name)
                             && forall l :: 0 <= l < j && cols[l].kind == k ==> !AllMissing(cols[l].cells)
  {
    if |cols| > 0 {
      FillPassUnfold(cols, k);
      var r := FillPass(cols, k);
      if FillStep(cols[0], k).Ok? && FillPass(cols[1..], k).Err? {
        FillPassFirstError(cols[1..], k);
        var j :| && 0 <= j < |cols[1..]| && cols[1..][j].kind == k && AllMissing(cols[1..][j].cells)
                 && FillPass(cols[1..], k).error == OnlyMissing(cols[1..][j].name)
                 && forall l :: 0 <= l < j && cols[1..][l].kind == k ==> !AllMissing(cols[1..][l].cells);
        assert cols[1..][j] == cols[j + 1];
        assert forall l :: 1 <= l < j + 1 ==> cols[l] == cols[1..][l - 1];
        assert r.error == OnlyMissing(cols[j + 1].name);
      }
    }
  }

  // ---------------------------------------------------------------------------
  // Duplicate rows (app.py:71-73): keep the first of each group of equal rows

  predicate SeenBefore(t: Table, i: nat)
    requires WellFormed(t) && i < t.rows
  {
    exists j :: 0 <= j < i && Row(t, j) == Row(t, i)
  }

  /** Positions below `n` of rows equal to no earlier row, in increasing order. */
  function FirstOccurrences(t: Table, n: nat): (idx: seq<nat>)
    requires WellFormed(t) && n <= t.rows
    ensures forall k :: 0 <= k < |idx| ==> idx[k] < n && !SeenBefore(t, idx[k])
    ensures forall k, l :: 0 <= k < l < |idx| ==> idx[k] < idx[l]
    ensures forall i :: 0 <= i < n && !SeenBefore(t, i) ==> i in idx
  {
    if n == 0 then []
    else
      var prev := FirstOccurrences(t, n - 1);
      var unseen := !SeenBefore(t, n - 1);
      FirstOccurrencesStep(t, n, prev, unseen);
      prev + (if unseen then [n - 1] else [])
  }

  /** The increasing positions below `n` of rows equal to no earlier row. */
  predicate FirstOccurrencesOf(t: Table, n: nat, idx: seq<nat>)
    requires WellFormed(t) && n <= t.rows
  {
    && (forall k :: 0 <= k < |idx| ==> idx[k] < n && !SeenBefore(t, idx[k]))
    && (forall k, l :: 0 <= k < l < |idx| ==> idx[k] < idx[l])
    && (forall i :: 0 <= i < n && !SeenBefore(t, i) ==> i in idx)
  }

  lemma FirstOccurrencesStep(t: Table, n: nat, prev: seq<nat>, unseen: bool)
    requires WellFormed(t) && 0 < n <= t.rows
    requires FirstOccurrencesOf(t, n - 1, prev) && unseen == !SeenBefore(t, n - 1)
    ensures FirstOccurrencesOf(t, n, prev + (if unseen then [n - 1] else []))
  {
    var idx := prev + (if unseen then [n - 1] else []);
    assert forall k :: 0 <= k < |prev| ==> idx[k] == prev[k];
    forall i | 0 <= i < n && !SeenBefore(t, i) ensures i in idx {
      if i < n - 1 {
        var k :| 0 <= k < |prev| && prev[k] == i;
        assert idx[k] == i;
      } else {
        assert idx[|prev|] == i;
      }
    }
  }

  /** `df.drop_duplicates()`. */
  function Dedup(t: Table): (r: Table)
    requires WellFormed(t)
    ensures WellFormed(r) && r.rows <= t.rows && Names(r.columns) == Names(t.columns)
    ensures |r.columns| == |t.columns| && forall j :: 0 <= j < |t.columns| ==> r.columns[j].kind == t.columns[j].kind
    ensures NoMissing(t) ==> NoMissing(r)
  {
    var idx := FirstOccurrences(t, t.rows);
    assert |idx| <= t.rows by { IncreasingBounded(idx, t.rows); }
    assert NoMissing(t) ==> NoMissing(SelectRows(t, idx)) by {
      if NoMissing(t) { SelectKeepsNoMissing(t, idx); }
    }
    SelectRows(t, idx)
  }

  lemma {:induction false} IncreasingBounded(idx: seq<nat>, n: nat)
    requires forall k :: 0 <= k < |idx| ==> idx[k] < n
    requires forall k, l :: 0 <= k < l < |idx| ==> idx[k] < idx[l]
    ensures |idx| <= n
    decreases n
  {
    if |idx| > 0 {
      var front := idx[..|idx| - 1];
      assert forall k :: 0 <= k < |front| ==> front[k] < idx[|idx| - 1] <= n - 1;
      IncreasingBounded(front, n - 1);
    }
  }

  // ---------------------------------------------------------------------------
  // Numeric conversions (app.py:75-94)

  /** `pd.to_numeric(..., errors='coerce')` on one cell: a string that does not parse
      becomes NaN; booleans count as numbers. */
  function ToNumericCell(c: Cell): (r: Cell)
    ensures r.Num? || r.Missing?
    ensures c.Missing? ==> r.Missing?
  {
    match c
    case Num(_) => c
    case Str(s) => (match ParseDecimal(s) case Some(v) => Num(v) case None => Missing)
    case Flag(b) => Num(if b then 1.0 else 0.0)
    case Stamp(_) => Missing
    case Missing => Missing
  }

  /** `astype(float)` on one cell: it calls `float()` on a string and raises where that
      does; a timestamp cannot be cast. */
  function AsFloatCell(c: Cell): (r: Option<Cell>)
    ensures r.Some? ==> (r.value.Num? || r.value.Missing?) && (r.value.Missing? <==> c.Missing?)
    ensures r.None? <==> Uncastable(c)
  {
    match c
    case Num(_) => Some(c)
    case Str(s) => (match ParseFloat(s) case Some(v) => Some(Num(v)) case None => None)
    case Flag(b) => Some(Num(if b then 1.0 else 0.0))
    case Stamp(_) => None
    case Missing => Some(Missing)
  }

  /** A cell `astype(float)` raises at: a string `float()` refuses, or a timestamp. */
  predicate Uncastable(c: Cell) {
    (c.Str? && ParseFloat(c.s).None?) || c.Stamp?
  }

  datatype Conversion = ToNumeric | AsFloat

  /** Lines 76-80 (and 83-87) for `ToNumeric`: coerce, raise when nothing parsed, fill
      with the median; a bool column is already numeric to pandas and is left as it is,
      and so is a datetime one here. Lines 90-94 for `AsFloat`: convert every cell or
      raise. */
  function Convert(col: Column, conv: Conversion): (r: Result<Column, CleanError>)
    ensures r.Ok? ==> r.value.name == col.name && |r.value.cells| == |col.cells|
    ensures r.Ok? && col.kind != Boolean && (conv == AsFloat || col.kind != Datetime) ==> r.value.kind == Numeric
    ensures r.Ok? ==> forall i :: 0 <= i < |col.cells| ==> r.value.cells[i].Num? || r.value.cells[i] == col.cells[i]
    ensures r.Ok? && (forall i :: 0 <= i < |col.cells| ==> Fits(col.kind, col.cells[i])) ==>
              forall i :: 0 <= i < |col.cells| ==> Fits(r.value.kind, r.value.cells[i])
    ensures r.Ok? && NoMissingCells(col.cells) ==> NoMissingCells(r.value.cells)
    ensures r.Err? ==> r.error == (if conv == ToNumeric then NoValidCharges(col.name) else NotNumeric(col.name))
  {
    match conv
    case ToNumeric => if col.kind == Boolean || col.kind == Datetime then Ok(col) else CoerceColumn(col)
    case AsFloat => AsFloatColumn(col)
  }

  /** Coerce every cell, raise when none parsed, fill the rest with the median. */
  function CoerceColumn(col: Column): (r: Result<Column, CleanError>)
    ensures r.Ok? ==> r.value.name == col.name && r.value.kind == Numeric && |r.value.cells| == |col.cells|
    ensures r.Ok? ==> NoMissingCells(r.value.cells) && forall i :: 0 <= i < |col.cells| ==> r.value.cells[i].Num?
    ensures r.Err? ==> r.error == NoValidCharges(col.name)
  {
    var cells := seq(|col.cells|, i requires 0 <= i < |col.cells| => ToNumericCell(col.cells[i]));
    if AllMissing(cells) then Err(NoValidCharges(col.name))
    else
      NumbersPresent(cells);
      Ok(Column(col.name, Numeric, FillWith(cells, Num(Stats.Median(NumValues(cells))))))
  }

  lemma NumbersPresent(cells: seq<Cell>)
    requires !AllMissing(cells) && forall i :: 0 <= i < |cells| ==> cells[i].Num? || cells[i].Missing?
    ensures |NumValues(cells)| > 0
  {
    var i :| 0 <= i < |cells| && !cells[i].Missing?;
    assert cells[i].x in NumValues(cells);
  }

  /** Convert every cell to a float, or raise at a string that does not parse. */
  function AsFloatColumn(col: Column): (r: Result<Column, CleanError>)
    ensures r.Ok? ==> r.value.name == col.name && r.value.kind == Numeric && |r.value.cells| == |col.cells|
    ensures r.Ok? ==> forall i :: 0 <= i < |col.cells| ==>
                        (r.value.cells[i].Num? || r.value.cells[i].Missing?)
                        && (r.value.cells[i].Missing? <==> col.cells[i].Missing?)
                        && (col.cells[i].Num? ==> r.value.cells[i] == col.cells[i])
    ensures r.Err? <==> exists i :: 0 <= i < |col.cells| && Uncastable(col.cells[i])
    ensures r.Err? ==> r.error == NotNumeric(col.name)
  {
    if exists i :: 0 <= i < |col.cells| && AsFloatCell(col.cells[i]).None? then Err(NotNumeric(col.name))
    else Ok(Column(col.name, Numeric, seq(|col.cells|, i requires 0 <= i < |col.cells| => AsFloatCell(col.cells[i]).value)))
  }

  /** Apply a conversion to the column called `name`, when there is one. */
  function ConvertNamed(t: Table, name: string, conv: Conversion): (r: Result<Table, CleanError>)
    ensures r.Ok? ==> r.value.rows == t.rows && |r.value.columns| == |t.columns|
    ensures r.Ok? ==> Names(r.value.columns) == Names(t.columns)
    ensures ColumnIndex(t.columns, name).None? ==> r == Ok(t)
    ensures r.Ok? && WellFormed(t) ==> WellFormed(r.value)
    ensures r.Ok? && NoMissing(t) ==> NoMissing(r.value)
    ensures r.Err? ==> r.error == (if conv == ToNumeric then NoValidCharges(name) else NotNumeric(name))
  {
    match ColumnIndex(t.columns, name)
    case None => Ok(t)
    case Some(j) =>
      var c :- Convert(t.columns[j], conv);
      var cols := t.columns[j := c];
      assert Names(cols) == Names(t.columns);
      Ok(Table(cols, t.rows))
  }

  // ---------------------------------------------------------------------------
  // Identifier columns (app.py:96-98)

  predicate IsIdColumn(name: string) {
    Contains(Lower(name), IdMarker)
  }

  /** Which columns survive `df.drop(columns=id_columns)`: those with no `id` inside. */
  function NonIdMask(cols: seq<Column>): (m: seq<bool>)
    ensures |m| == |cols|
  {
    seq(|cols|, j requires 0 <= j < |cols| => !IsIdColumn(cols[j].name))
  }

  /** The columns whose lowercased name does not contain "id", in their order, as
      `DropIdInOrder` states. */
  function DropIdColumns(cols: seq<Column>): (r: seq<Column>)
    ensures forall j :: 0 <= j < |r| ==> r[j] in cols && !IsIdColumn(r[j].name)
    ensures forall j :: 0 <= j < |cols| && !IsIdColumn(cols[j].name) ==> cols[j] in r
    ensures |r| <= |cols|
  {
    if |cols| == 0 then []
    else
      var rest := DropIdColumns(cols[1..]);
      assert forall j :: 1 <= j < |cols| ==> cols[j] == cols[1..][j - 1];
      if IsIdColumn(cols[0].name) then rest else [cols[0]] + rest
  }

  /** Dropping keeps the column order: entry k is the column at the k-th position
      whose name has no `id`, so no column is moved or repeated. */
  lemma DropIdInOrder(cols: seq<Column>)
    ensures var keep := Positions(NonIdMask(cols));
      var r := DropIdColumns(cols);
      |r| == |keep| && forall k :: 0 <= k < |keep| ==> r[k] == cols[keep[k]]
  {
    DropIdIsPick(cols);
    PickInOrder(cols, NonIdMask(cols));
  }

  lemma {:induction false} DropIdIsPick(cols: seq<Column>)
    ensures DropIdColumns(cols) == Pick(cols, NonIdMask(cols))
  {
    if |cols| > 0 {
      DropIdIsPick(cols[1..]);
      assert NonIdMask(cols)[1..] == NonIdMask(cols[1..]);
    }
  }

  // ---------------------------------------------------------------------------
  // Quality score (app.py:100-103)

  /** `100 * (1 - (missing/cells + removed/initial) / 2)`. Because at least one row
      survives deduplication the score stays above 0; it reaches 100 exactly when
      nothing is missing and nothing was removed. */
  function QualityScore(missing: nat, cells: nat, removed: nat, initial: nat): (r: real)
    requires 0 < cells && missing <= cells && removed < initial
    ensures 0.0 < r <= 100.0
    ensures r == 100.0 <==> missing == 0 && removed == 0
  {
    var m := missing as real / cells as real;
    var d := removed as real / initial as real;
    assert 0.0 <= m <= 1.0 by { RatioBounds(missing, cells); }
    assert 0.0 <= d < 1.0 by { RatioBounds(removed, initial); }
    assert m == 0.0 <==> missing == 0;
    assert d == 0.0 <==> removed == 0;
    100.0 * (1.0 - (m + d) / 2.0)
  }

  lemma RatioBounds(a: nat, b: nat)
    requires 0 < b && a <= b
    ensures 0.0 <= a as real / b as real <= 1.0
    ensures a < b ==> a as real / b as real < 1.0
  {
  }

  function QualityOf(t: Table, initialRows: nat): Quality
    requires WellFormed(t) && t.rows <= initialRows
  {
    if |t.columns| == 0 || t.rows == 0 then Undefined
    else
      MissingCountBound(t);
      Score(QualityScore(MissingCount(t.columns), t.rows * |t.columns|, initialRows - t.rows, initialRows))
  }

  // ---------------------------------------------------------------------------
  // The whole of clean_data

  /** Lines 47-68: the checks, the lowercasing and the two fill loops. */
  function Prepare(raw: Table): (r: Result<Table, CleanError>)
    requires WellFormed(raw)
  {
    if raw.rows == 0 || |raw.columns| == 0 then Err(EmptyDataset)
    else if raw.rows < MinRows then Err(TooFewRows)
    else
      var named := LowerNames(raw.columns);
      if !DistinctNames(named) then Err(AmbiguousColumns)
      else
        var lowered :- LowerPass(named);
        LowerAllFits(raw, named, lowered);
        var numericFilled :- FillPass(lowered, Numeric);
        FillPassFits(lowered, Numeric);
        var filled :- FillPass(numericFilled, Categorical);
        Ok(Table(filled, raw.rows))
  }

  lemma LowerAllFits(raw: Table, named: seq<Column>, lowered: seq<Column>)
    requires WellFormed(raw) && named == LowerNames(raw.columns) && lowered == LowerAll(named)
    ensures ColumnsFit(lowered) && AllLowered(lowered)
  {
    forall j | 0 <= j < |lowered|
      ensures forall i :: 0 <= i < |lowered[j].cells| ==> Fits(lowered[j].kind, lowered[j].cells[i])
    {
      assert ColumnFits(raw.columns[j], raw.rows);
    }
  }

  /** A fill pass keeps every cell fitting its column and every object column lowered. */
  lemma FillPassFits(cols: seq<Column>, k: Kind)
    requires Fillable(k) && ColumnsFit(cols) && AllLowered(cols) && FillPass(cols, k).Ok?
    ensures ColumnsFit(FillPass(cols, k).value) && AllLowered(FillPass(cols, k).value)
  {
    var r := FillPass(cols, k).value;
    FillPassSpec(cols, k);
    forall j | 0 <= j < |cols| ensures
      && (forall i :: 0 <= i < |r[j].cells| ==> Fits(r[j].kind, r[j].cells[i]))
      && Lowered(r[j])
    {
      assert Ok(r[j]) == FillStep(cols[j], k);
    }
  }

  /** Prepare's result is a frame of the same rows, with lowercase, distinct names and
      no missing cell. */
  ghost predicate Prepared(raw: Table, p: Table) {
    && WellFormed(p) && NoMissing(p) && p.rows == raw.rows && p.rows >= MinRows
    && |p.columns| == |raw.columns| && DistinctNames(p.columns)
    && (forall j :: 0 <= j < |p.columns| ==> p.columns[j].name == Lower(raw.columns[j].name))
    && (forall j :: 0 <= j < |p.columns| ==> p.columns[j].kind == raw.columns[j].kind)
  }

  lemma PrepareOk(raw: Table)
    requires WellFormed(raw) && Prepare(raw).Ok?
    ensures Prepared(raw, Prepare(raw).value)
  {
    var named := LowerNames(raw.columns);
    var lowered := LowerAll(named);
    LowerAllFits(raw, named, lowered);
    var nf := FillPass(lowered, Numeric).value;
    FillPassSpec(lowered, Numeric);
    FillPassFits(lowered, Numeric);
    var filled := FillPass(nf, Categorical).value;
    FillPassSpec(nf, Categorical);
    forall j | 0 <= j < |filled|
      ensures ColumnFits(filled[j], raw.rows) && NoMissingCells(filled[j].cells)
      ensures filled[j].name == named[j].name && filled[j].kind == raw.columns[j].kind
    {
      assert ColumnFits(raw.columns[j], raw.rows);
      PreparedColumn(raw.columns[j], lowered[j], nf[j], filled[j], raw.rows);
    }
  }

  /** One column through both fill passes: the same name, length and dtype, and no
      missing cell left. */
  lemma PreparedColumn(c: Column, lowered: Column, nf: Column, filled: Column, rows: nat)
    requires ColumnFits(c, rows) && lowered.kind == c.kind && |lowered.cells| == rows
    requires forall i :: 0 <= i < rows ==> Fits(lowered.kind, lowered.cells[i])
    requires Lowered(lowered)
    requires Ok(nf) == FillStep(lowered, Numeric)
    requires forall i :: 0 <= i < rows ==> Fits(nf.kind, nf.cells[i])
    requires Lowered(nf)
    requires Ok(filled) == FillStep(nf, Categorical)
    ensures ColumnFits(filled, rows) && filled.name == lowered.name && filled.kind == c.kind
    ensures NoMissingCells(filled.cells)
  {
  }

  /** Lines 75-94: the charge columns coerced and the tenure and monthly charge
      columns cast, each when the frame has it. */
  function Coerce(t: Table): (r: Result<Table, CleanError>)
    ensures r.Ok? ==> r.value.rows == t.rows && Names(r.value.columns) == Names(t.columns)
    ensures r.Ok? && WellFormed(t) ==> WellFormed(r.value)
    ensures r.Ok? && NoMissing(t) ==> NoMissing(r.value)
    ensures r.Err? ==> r.error in {NoValidCharges(TotalCharges), NoValidCharges(MonthlyCharges),
                                   NotNumeric(Tenure), NotNumeric(MonthlyCharges)}
  {
    var t1 :- ConvertNamed(t, TotalCharges, ToNumeric);
    var t2 :- ConvertNamed(t1, MonthlyCharges, ToNumeric);
    var t3 :- ConvertNamed(t2, Tenure, AsFloat);
    ConvertNamed(t3, MonthlyCharges, AsFloat)
  }

  /** Lines 70-106, on the prepared frame. */
  function Finish(p: Table, initialRows: nat): (r: Result<Cleaned, CleanError>)
    requires WellFormed(p) && p.rows <= initialRows
    ensures r.Ok? ==> WellFormed(r.value.table) && r.value.table.rows <= p.rows
    ensures r.Ok? && NoMissing(p) ==> NoMissing(r.value.table)
  {
    var deduped := Dedup(p);
    var t :- Coerce(deduped);
    var final := Table(DropIdColumns(t.columns), t.rows);
    DropIdKeepsCells(t);
    Ok(Cleaned(final, QualityOf(final, initialRows)))
  }

  /** Dropping columns keeps the frame well formed and free of missing cells. */
  lemma DropIdKeepsCells(t: Table)
    requires WellFormed(t)
    ensures WellFormed(Table(DropIdColumns(t.columns), t.rows))
    ensures NoMissing(t) ==> NoMissing(Table(DropIdColumns(t.columns), t.rows))
  {
    var final := Table(DropIdColumns(t.columns), t.rows);
    forall j | 0 <= j < |final.columns|
      ensures ColumnFits(final.columns[j], final.rows)
      ensures NoMissing(t) ==> NoMissingCells(final.columns[j].cells)
    {
      var k :| 0 <= k < |t.columns| && t.columns[k] == final.columns[j];
    }
  }

  /** A cleaned frame is well formed, has no missing cell and no more rows than the
      frame it came from. */
  function Clean(raw: Table): (r: Result<Cleaned, CleanError>)
    requires WellFormed(raw)
    ensures r.Ok? ==> WellFormed(r.value.table) && NoMissing(r.value.table) && r.value.table.rows <= raw.rows
  {
    var p :- Prepare(raw);
    PrepareOk(raw);
    Finish(p, raw.rows)
  }

  // ---------------------------------------------------------------------------
  // clean_data as the source runs it: the column loops of lines 55-56, 60-63, 65-68

  /** The lowering loop of lines 55-56: each object column lowered in place, one at a
      time, in column order, until one that `.str` refuses raises. */
  method LowerCategoricalColumns(named: seq<Column>) returns (r: Result<seq<Column>, CleanError>)
    ensures r == LowerPass(named)
  {
    var cols := named;
    var j := 0;
    while j < |cols|
      invariant 0 <= j <= |cols| == |named|
      invariant forall l :: 0 <= l < j ==> cols[l] == LowerValues(named[l]) && !InfersBoolean(named[l])
      invariant forall l :: j <= l < |cols| ==> cols[l] == named[l]
    {
      if cols[j].kind == Categorical {
        if InfersBoolean(cols[j]) {
          var first := FirstBooleanObject(named);
          assert first.Some? && first.value == j by {
            assert !(forall l :: 0 <= l < |named| ==> !InfersBoolean(named[l]));
          }
          return Err(NotText(cols[j].name));
        }
        cols := cols[j := LowerValues(cols[j])];
      }
      j := j + 1;
    }
    assert cols == LowerAll(named);
    r := Ok(cols);
  }

  /** The fill loops of lines 60-63 and 65-68 over the columns of kind `k`: a column
      with every cell missing stops the loop with an error, any other is filled in place. */
  method FillColumnsOfKind(start: seq<Column>, k: Kind) returns (r: Result<seq<Column>, CleanError>)
    requires Fillable(k) && ColumnsFit(start) && AllLowered(start)
    ensures r == FillPass(start, k)
  {
    var cols := start;
    var j := 0;
    SuffixFits(start, 0);
    assert start[0..] == start && cols[..0] == [];
    PrefixedNothing(FillPass(start, k));
    while j < |cols|
      invariant 0 <= j <= |cols| == |start|
      invariant ColumnsFit(start[j..]) && AllLowered(start[j..])
      invariant FillPass(start, k) == Prefixed(cols[..j], FillPass(start[j..], k))
    {
      var rest := start[j..];
      SuffixFits(start, j + 1);
      assert rest[0] == start[j] && rest[1..] == start[j + 1..];
      FillPassUnfold(rest, k);
      var step := FillStep(start[j], k);
      if step.Err? {
        return Err(step.error);
      }
      PrefixedTwice(cols[..j], [step.value], FillPass(start[j + 1..], k));
      UpdateExtendsPrefix(cols, j, step.value);
      cols := cols[j := step.value];
      j := j + 1;
    }
    assert cols[..j] == cols && cols + [] == cols;
    assert FillPass(start[j..], k) == Ok([]);
    r := Ok(cols);
  }

  lemma UpdateExtendsPrefix<T>(s: seq<T>, j: nat, v: T)
    requires j < |s|
    ensures s[..j] + [v] == s[j := v][..j + 1]
  {
    assert forall i :: 0 <= i < j ==> s[j := v][i] == s[i];
  }

  method CleanData(raw: Table) returns (r: Result<Cleaned, CleanError>)
    requires WellFormed(raw)
    ensures r == Clean(raw)
  {
    if raw.rows == 0 || |raw.columns| == 0 {
      return Err(EmptyDataset);
    }
    if raw.rows < MinRows {
      return Err(TooFewRows);
    }
    var named := LowerNames(raw.columns);
    if !DistinctNames(named) {
      return Err(AmbiguousColumns);
    }
    var lowered := LowerCategoricalColumns(named);
    if lowered.Err? {
      return Err(lowered.error);
    }
    LowerAllFits(raw, named, lowered.value);
    var numericFilled := FillColumnsOfKind(lowered.value, Numeric);
    if numericFilled.Err? {
      return Err(numericFilled.error);
    }
    FillPassFits(lowered.value, Numeric);
    var filled := FillColumnsOfKind(numericFilled.value, Categorical);
    if filled.Err? {
      return Err(filled.error);
    }
    PrepareOk(raw);
    r := Finish(Table(filled.value, raw.rows), raw.rows);
  }
}

/** What `clean_data` (app.py:41-110) promises its callers: when it raises, what a
    cleaned frame looks like, what the quality score measures, and what dropping
    duplicate rows does. */
module CleaningProperties {
  import opened Wrappers
  import opened Strings
  import opened Frame
  import opened Cleaning

  // ---------------------------------------------------------------------------
  // Rejections

  /** The size checks come first and raise exactly for an empty frame and for one of
      fewer than ten rows; every later error is of another kind. */
  lemma SizeRejections(raw: Table)
    requires WellFormed(raw)
    ensures Clean(raw) == Err(EmptyDataset) <==> raw.rows == 0 || |raw.columns| == 0
    ensures Clean(raw) == Err(TooFewRows) <==> 0 < raw.rows < MinRows && |raw.columns| > 0
    ensures raw.rows >= MinRows && |raw.columns| > 0 && !DistinctNames(LowerNames(raw.columns)) ==>
              Clean(raw) == Err(AmbiguousColumns)
  {
    if raw.rows >= MinRows && |raw.columns| > 0 && DistinctNames(LowerNames(raw.columns)) {
      var lowered := LowerAll(LowerNames(raw.columns));
      LowerAllFits(raw, LowerNames(raw.columns), lowered);
      FillPassSpec(lowered, Numeric);
      if FillPass(lowered, Numeric).Ok? {
        FillPassFits(lowered, Numeric);
        FillPassSpec(FillPass(lowered, Numeric).value, Categorical);
      }
      if Prepare(raw).Ok? {
        PrepareOk(raw);
      }
    }
  }

  /** Renaming the columns leaves their kinds and cells alone, so the same columns
      are refused by `.str` before and after. */
  lemma LowerNamesKeepsBooleanObjects(raw: Table)
    ensures var named := LowerNames(raw.columns);
      && (forall l :: 0 <= l < |raw.columns| ==> (InfersBoolean(named[l]) <==> InfersBoolean(raw.columns[l])))
      && FirstBooleanObject(named) == FirstBooleanObject(raw.columns)
  {
    var named := LowerNames(raw.columns);
    forall l | 0 <= l < |raw.columns| ensures InfersBoolean(named[l]) <==> InfersBoolean(raw.columns[l]) {
      SameCellsSameInference(named[l], raw.columns[l]);
    }
    var a, b := FirstBooleanObject(named), FirstBooleanObject(raw.columns);
    if a.Some? && b.Some? {
      assert !(a.value < b.value) && !(b.value < a.value);
    }
  }

  lemma SameCellsSameInference(c: Column, d: Column)
    requires c.kind == d.kind && c.cells == d.cells
    ensures InfersBoolean(c) <==> InfersBoolean(d)
  {
  }

  /** An object column of booleans and blanks has no string for `.str` to work on: the
      lowering loop raises at the first such column, before any column is filled. */
  lemma BooleanObjectRejects(raw: Table, j: nat)
    requires WellFormed(raw) && raw.rows >= MinRows && DistinctNames(LowerNames(raw.columns))
    requires j < |raw.columns| && InfersBoolean(raw.columns[j])
    ensures var k := FirstBooleanObject(raw.columns);
      && k.Some? && k.value <= j
      && Clean(raw) == Err(NotText(Lower(raw.columns[k.value].name)))
  {
    LowerNamesKeepsBooleanObjects(raw);
  }

  /** Past the size and name checks, the frame is rejected for a column `.str` refuses
      exactly when one of its object columns holds booleans and no string. */
  lemma NotTextExactly(raw: Table)
    requires WellFormed(raw) && raw.rows >= MinRows && DistinctNames(LowerNames(raw.columns))
    ensures (Clean(raw).Err? && Clean(raw).error.NotText?) <==>
              exists l :: 0 <= l < |raw.columns| && InfersBoolean(raw.columns[l])
  {
    LowerNamesKeepsBooleanObjects(raw);
    var named := LowerNames(raw.columns);
    if forall l :: 0 <= l < |raw.columns| ==> !InfersBoolean(raw.columns[l]) {
      var lowered := LowerAll(named);
      LowerAllFits(raw, named, lowered);
      FillPassSpec(lowered, Numeric);
      if FillPass(lowered, Numeric).Ok? {
        FillPassFits(lowered, Numeric);
        FillPassSpec(FillPass(lowered, Numeric).value, Categorical);
      }
      if Prepare(raw).Ok? {
        PrepareOk(raw);
      }
    }
  }

  /** A numeric or object column with no value at all has nothing to fill from: the
      frame is rejected for an entirely missing column, unless the lowering loop has
      already raised on an object column of booleans. */
  lemma EntirelyMissingRejects(raw: Table, j: nat)
    requires WellFormed(raw) && raw.rows >= MinRows && DistinctNames(LowerNames(raw.columns))
    requires j < |raw.columns|
    requires (raw.columns[j].kind == Numeric || raw.columns[j].kind == Categorical) && AllMissing(raw.columns[j].cells)
    ensures Clean(raw).Err?
    ensures (forall l :: 0 <= l < |raw.columns| ==> !InfersBoolean(raw.columns[l])) ==> Clean(raw).error.OnlyMissing?
    ensures (exists l :: 0 <= l < |raw.columns| && InfersBoolean(raw.columns[l])) ==> Clean(raw).error.NotText?
  {
    LowerNamesKeepsBooleanObjects(raw);
    var named := LowerNames(raw.columns);
    if forall l :: 0 <= l < |raw.columns| ==> !InfersBoolean(raw.columns[l]) {
      var lowered := LowerAll(named);
      LowerAllFits(raw, named, lowered);
      assert ColumnFits(raw.columns[j], raw.rows);
      assert AllMissing(lowered[j].cells);
      FillPassSpec(lowered, Numeric);
      if FillPass(lowered, Numeric).Ok? {
        var nf := FillPass(lowered, Numeric).value;
        FillPassFits(lowered, Numeric);
        FillPassSpec(nf, Categorical);
        assert Ok(nf[j]) == FillStep(lowered[j], Numeric);
        assert nf[j] == lowered[j];
      }
    }
  }

  /** A cell `to_numeric` cannot read: a missing value or a string that is not a number. */
  predicate Unreadable(c: Cell) {
    c.Missing? || (c.Str? && ParseDecimal(c.s).None?)
  }

  /** Coercion with `errors='coerce'` rejects a column only when not one of its cells
      is readable: a single number keeps the column, and the other cells are filled. */
  lemma CoercionRejectsOnlyWhenNothingParses(col: Column)
    requires forall i :: 0 <= i < |col.cells| ==> Fits(col.kind, col.cells[i])
    ensures Convert(col, ToNumeric).Err? <==>
              col.kind != Boolean && col.kind != Datetime && forall i :: 0 <= i < |col.cells| ==> Unreadable(col.cells[i])
  {
    if col.kind != Boolean && col.kind != Datetime {
      var cells := seq(|col.cells|, i requires 0 <= i < |col.cells| => ToNumericCell(col.cells[i]));
      forall i | 0 <= i < |col.cells| ensures cells[i].Missing? <==> Unreadable(col.cells[i]) {
        assert cells[i] == ToNumericCell(col.cells[i]);
      }
    }
  }

  /** `astype(float)` rejects a column exactly when one of its strings is not a number
      to `float()` or it holds a timestamp; such a string is unreadable to `to_numeric`
      as well. */
  lemma CastRejectsUnreadableString(col: Column)
    ensures Convert(col, AsFloat).Err? <==>
              exists i :: 0 <= i < |col.cells| && ((col.cells[i].Str? && ParseFloat(col.cells[i].s).None?) || col.cells[i].Stamp?)
    ensures Convert(col, AsFloat).Err? ==>
              exists i :: 0 <= i < |col.cells| && ((col.cells[i].Str? && Unreadable(col.cells[i])) || col.cells[i].Stamp?)
  {
    if Convert(col, AsFloat).Err? {
      var i :| 0 <= i < |col.cells| && Uncastable(col.cells[i]);
      if col.cells[i].Str? && ParseDecimal(col.cells[i].s).Some? {
        PandasNumbersAreFloats(col.cells[i].s);
      }
      assert (col.cells[i].Str? && Unreadable(col.cells[i])) || col.cells[i].Stamp?;
    }
  }

  /** `c` is the lowercased form of one of the strings of `pool`. */
  predicate LoweredStringIn(c: Cell, pool: seq<Cell>) {
    exists k :: 0 <= k < |pool| && pool[k].Str? && c == Str(Lower(pool[k].s))
  }

  /** The cells of `cells` are lowercased strings of `pool`. */
  predicate LoweredStringsOf(cells: seq<Cell>, pool: seq<Cell>) {
    forall i :: 0 <= i < |cells| ==> LoweredStringIn(cells[i], pool)
  }

  /** After filling, an object column holds only the lowercased strings it had: the
      ones it kept and, in place of its missing cells, the most frequent of them. */
  lemma FilledTextColumn(raw: Table, j: nat)
    requires WellFormed(raw) && Prepare(raw).Ok?
    requires j < |raw.columns| && raw.columns[j].kind == Categorical
    ensures j < |Prepare(raw).value.columns|
    ensures LoweredStringsOf(Prepare(raw).value.columns[j].cells, raw.columns[j].cells)
  {
    var col := raw.columns[j];
    var lc := LowerValues(col.(name := Lower(col.name)));
    PreparedTextColumn(raw, j);
    FilledFromOwnStrings(lc);
    StringsOfLowered(Prepare(raw).value.columns[j], lc, col);
  }

  /** An object column of the prepared frame is its lowercased raw column, filled. */
  lemma PreparedTextColumn(raw: Table, j: nat)
    requires WellFormed(raw) && Prepare(raw).Ok?
    requires j < |raw.columns| && raw.columns[j].kind == Categorical
    ensures var lc := LowerValues(raw.columns[j].(name := Lower(raw.columns[j].name)));
      && j < |Prepare(raw).value.columns|
      && lc.kind == Categorical && Lowered(lc)
      && (forall i :: 0 <= i < |lc.cells| ==> Fits(lc.kind, lc.cells[i]))
      && FillColumn(lc) == Ok(Prepare(raw).value.columns[j])
  {
    var named := LowerNames(raw.columns);
    var lowered := LowerAll(named);
    LowerAllFits(raw, named, lowered);
    FillPassSpec(lowered, Numeric);
    var nf := FillPass(lowered, Numeric).value;
    FillPassFits(lowered, Numeric);
    FillPassSpec(nf, Categorical);
    PrepareOk(raw);
    assert Ok(nf[j]) == FillStep(lowered[j], Numeric);
    assert Ok(Prepare(raw).value.columns[j]) == FillStep(nf[j], Categorical);
  }

  /** Cells drawn from the strings of a lowercased column are lowercased strings of
      the column it came from. */
  lemma StringsOfLowered(fc: Column, lc: Column, col: Column)
    requires col.kind == Categorical && lc == LowerValues(col.(name := Lower(col.name)))
    requires forall i :: 0 <= i < |fc.cells| ==> fc.cells[i].Str? && fc.cells[i] in lc.cells
    ensures LoweredStringsOf(fc.cells, col.cells)
  {
    forall i | 0 <= i < |fc.cells| ensures LoweredStringIn(fc.cells[i], col.cells) {
      var k := StringOfLowered(fc.cells[i], lc, col);
    }
  }

  lemma StringOfLowered(x: Cell, lc: Column, col: Column) returns (k: nat)
    requires col.kind == Categorical && lc == LowerValues(col.(name := Lower(col.name)))
    requires x.Str? && x in lc.cells
    ensures k < |col.cells| && col.cells[k].Str? && x == Str(Lower(col.cells[k].s))
  {
    k :| 0 <= k < |lc.cells| && lc.cells[k] == x;
    assert lc.cells[k] == LowerCell(col.cells[k]);
  }

  /** Filling an object column leaves only strings it already held. */
  lemma FilledFromOwnStrings(col: Column)
    requires col.kind == Categorical && Lowered(col)
    requires forall i :: 0 <= i < |col.cells| ==> Fits(col.kind, col.cells[i])
    requires FillColumn(col).Ok?
    ensures var fc := FillColumn(col).value;
      |fc.cells| == |col.cells| && forall i :: 0 <= i < |fc.cells| ==> fc.cells[i].Str? && fc.cells[i] in col.cells
  {
    HasValues(col);
    var vs := StrValues(col.cells);
    var m := Stats.Mode(vs);
    assert Str(m) in col.cells;
    var fc := FillColumn(col).value;
    assert fc.cells == FillWith(col.cells, Str(m));
  }

  /** A frame whose "totalcharges" column holds no readable value fails the coercion. */
  lemma UnreadableChargesFinish(p: Table, n: nat, j: nat)
    requires WellFormed(p) && p.rows <= n && DistinctNames(p.columns)
    requires j < |p.columns| && p.columns[j].name == TotalCharges && Fillable(p.columns[j].kind)
    requires forall i :: 0 <= i < p.rows ==> Unreadable(p.columns[j].cells[i])
    ensures Finish(p, n) == Err(NoValidCharges(TotalCharges))
  {
    var idx := FirstOccurrences(p, p.rows);
    var d := Dedup(p);
    assert d == SelectRows(p, idx);
    assert ColumnIndex(d.columns, TotalCharges) == Some(j) by {
      assert Names(d.columns) == Names(p.columns);
      assert d.columns[j].name == TotalCharges;
      forall l | 0 <= l < j ensures d.columns[l].name != TotalCharges {
        assert d.columns[l].name == Names(d.columns)[l] == p.columns[l].name;
      }
    }
    forall i | 0 <= i < |d.columns[j].cells| ensures Unreadable(d.columns[j].cells[i]) {
      assert d.columns[j].cells[i] == Row(d, i)[j] == Row(p, idx[i])[j];
    }
    assert ColumnFits(d.columns[j], d.rows);
    CoercionRejectsOnlyWhenNothingParses(d.columns[j]);
  }

  /** A "totalcharges" text column none of whose lowercased strings is a number (an
      export with every charge unreadable) makes the whole frame raise. */
  lemma UnreadableTotalChargesRejects(raw: Table, j: nat)
    requires WellFormed(raw) && Prepare(raw).Ok?
    requires j < |raw.columns| && Lower(raw.columns[j].name) == TotalCharges && raw.columns[j].kind == Categorical
    requires forall i :: 0 <= i < raw.rows && raw.columns[j].cells[i].Str? ==>
               ParseDecimal(Lower(raw.columns[j].cells[i].s)).None?
    ensures Clean(raw) == Err(NoValidCharges(TotalCharges))
  {
    var p := Prepare(raw).value;
    PrepareOk(raw);
    FilledTextColumn(raw, j);
    assert ColumnFits(raw.columns[j], raw.rows) && ColumnFits(p.columns[j], p.rows);
    NoneReadable(p.columns[j].cells, raw.columns[j].cells);
    UnreadableChargesFinish(p, raw.rows, j);
  }

  /** Lowercased strings of a pool none of whose lowercased strings is a number are
      none of them numbers either. */
  lemma NoneReadable(cells: seq<Cell>, pool: seq<Cell>)
    requires LoweredStringsOf(cells, pool)
    requires forall i :: 0 <= i < |pool| && pool[i].Str? ==> ParseDecimal(Lower(pool[i].s)).None?
    ensures forall i :: 0 <= i < |cells| ==> Unreadable(cells[i])
  {
    forall i | 0 <= i < |cells| ensures Unreadable(cells[i]) {
      assert LoweredStringIn(cells[i], pool);
      var k :| 0 <= k < |pool| && pool[k].Str? && cells[i] == Str(Lower(pool[k].s));
    }
  }

  // ---------------------------------------------------------------------------
  // A cleaned frame

  /** The score of a frame without missing cells counts only the rows removed. */
  lemma ScoreWithoutMissing(t: Table, n: nat)
    requires WellFormed(t) && NoMissing(t) && 0 < t.rows <= n
    ensures QualityOf(t, n).Undefined? <==> |t.columns| == 0
    ensures |t.columns| > 0 ==> QualityOf(t, n) == Score(100.0 * (1.0 - ((n - t.rows) as real / n as real) / 2.0))
  {
    if |t.columns| > 0 {
      MissingCountBound(t);
      assert MissingCount(t.columns) == 0;
      var cells := t.rows * |t.columns|;
      assert cells > 0;
      assert 0 as real / cells as real == 0.0;
    }
  }

  /** What the steps after filling leave of a filled frame `p` read from `n` rows. */
  lemma FinishedFrame(p: Table, n: nat)
    requires WellFormed(p) && NoMissing(p) && 0 < p.rows <= n && Finish(p, n).Ok?
    ensures var c := Finish(p, n).value;
      && WellFormed(c.table) && NoMissing(c.table)
      && 0 < c.table.rows == Dedup(p).rows
      && (forall j :: 0 <= j < |c.table.columns| ==>
            !IsIdColumn(c.table.columns[j].name) && c.table.columns[j].name in Names(p.columns))
      && c.quality == QualityOf(c.table, n)
  {
    DedupKeepsARow(p);
    var d := Dedup(p);
    SelectKeepsNoMissing(p, FirstOccurrences(p, p.rows));
    var t := Coerce(d).value;
    var c := Finish(p, n).value;
    assert c.table == Table(DropIdColumns(t.columns), t.rows);
    forall j | 0 <= j < |c.table.columns|
      ensures NoMissingCells(c.table.columns[j].cells) && c.table.columns[j].name in Names(p.columns)
    {
      var k :| 0 <= k < |t.columns| && t.columns[k] == c.table.columns[j];
      assert c.table.columns[j].name == Names(t.columns)[k];
    }
  }

  /** A cleaned frame keeps at least one row: those deduplication of the filled frame
      leaves; its score is the one of `QualityOf`. */
  lemma CleanedSize(raw: Table)
    requires WellFormed(raw) && Clean(raw).Ok?
    ensures var c := Clean(raw).value;
      && WellFormed(Prepare(raw).value) && 0 < c.table.rows == Dedup(Prepare(raw).value).rows
      && c.quality == QualityOf(c.table, raw.rows)
  {
    var p := Prepare(raw).value;
    PrepareOk(raw);
    assert Clean(raw) == Finish(p, raw.rows);
    FinishedFrame(p, raw.rows);
  }

  /** The names of a cleaned frame are lowercase, free of "id", and each the
      lowercased name of an input column. */
  lemma CleanedNames(raw: Table)
    requires WellFormed(raw) && Clean(raw).Ok?
    ensures var c := Clean(raw).value;
      forall j :: 0 <= j < |c.table.columns| ==>
        && IsLower(c.table.columns[j].name) && !Contains(c.table.columns[j].name, IdMarker)
        && exists k :: 0 <= k < |raw.columns| && c.table.columns[j].name == Lower(raw.columns[k].name)
  {
    var p := Prepare(raw).value;
    PrepareOk(raw);
    assert Clean(raw) == Finish(p, raw.rows);
    FinishedFrame(p, raw.rows);
    var c := Clean(raw).value;
    forall j | 0 <= j < |c.table.columns|
      ensures IsLower(c.table.columns[j].name) && !Contains(c.table.columns[j].name, IdMarker)
      ensures exists k :: 0 <= k < |raw.columns| && c.table.columns[j].name == Lower(raw.columns[k].name)
    {
      var k :| 0 <= k < |p.columns| && Names(p.columns)[k] == c.table.columns[j].name;
      assert c.table.columns[j].name == Lower(raw.columns[k].name);
      LowerOfLower(Lower(raw.columns[k].name));
    }
  }

  /** `100 * (1 - (removed/n)/2)` is 100 exactly when nothing was removed. */
  lemma ScoreHundredIff(removed: nat, n: nat)
    requires 0 < n
    ensures 100.0 * (1.0 - (removed as real / n as real) / 2.0) == 100.0 <==> removed == 0
  {
    var d := removed as real / n as real;
    assert d * n as real == removed as real;
  }

  /** The score is 100 exactly when deduplication removed nothing, that is when the
      filled, lowercased frame has no two equal rows. */
  lemma PerfectScoreIffNoDuplicates(raw: Table)
    requires WellFormed(raw) && Clean(raw).Ok? && |Clean(raw).value.table.columns| > 0
    ensures var p := Prepare(raw).value;
      WellFormed(p) && (Clean(raw).value.quality == Score(100.0) <==> DistinctRows(p))
  {
    var p := Prepare(raw).value;
    PrepareOk(raw);
    CleanedSize(raw);
    var c := Clean(raw).value;
    ScoreWithoutMissing(c.table, raw.rows);
    DedupRemovesNothingIff(p);
    ScoreHundredIff(raw.rows - c.table.rows, raw.rows);
  }

  // ---------------------------------------------------------------------------
  // Dropping duplicate rows

  /** No two rows left by `drop_duplicates` are equal. */
  lemma DedupDistinct(t: Table)
    requires WellFormed(t)
    ensures DistinctRows(Dedup(t))
  {
    var idx := FirstOccurrences(t, t.rows);
    var d := Dedup(t);
    assert d == SelectRows(t, idx);
    forall i, k | 0 <= i < k < d.rows ensures Row(d, i) != Row(d, k) {
      assert Row(d, i) == Row(t, idx[i]) && Row(d, k) == Row(t, idx[k]);
      assert idx[i] < idx[k] && !SeenBefore(t, idx[k]);
    }
  }

  /** Every row of the frame is still there after `drop_duplicates`. */
  lemma {:induction false} DedupKeepsEveryRow(t: Table, i: nat)
    requires WellFormed(t) && i < t.rows
    ensures exists k :: 0 <= k < Dedup(t).rows && Row(Dedup(t), k) == Row(t, i)
    decreases i
  {
    var idx := FirstOccurrences(t, t.rows);
    var d := Dedup(t);
    assert d == SelectRows(t, idx);
    if SeenBefore(t, i) {
      var j :| 0 <= j < i && Row(t, j) == Row(t, i);
      DedupKeepsEveryRow(t, j);
    } else {
      assert i in idx;
      var k :| 0 <= k < |idx| && idx[k] == i;
      assert Row(d, k) == Row(t, i);
    }
  }

  lemma DedupKeepsARow(t: Table)
    requires WellFormed(t)
    ensures t.rows > 0 ==> Dedup(t).rows > 0
  {
    if t.rows > 0 {
      DedupKeepsEveryRow(t, 0);
    }
  }

  /** `drop_duplicates` removes nothing exactly when no two rows are equal, and then
      gives the frame back as it was. */
  lemma DedupRemovesNothingIff(t: Table)
    requires WellFormed(t)
    ensures Dedup(t).rows == t.rows <==> DistinctRows(t)
    ensures DistinctRows(t) ==> Dedup(t) == t
  {
    var idx := FirstOccurrences(t, t.rows);
    assert Dedup(t) == SelectRows(t, idx);
    if |idx| == t.rows {
      forall i | 0 <= i < t.rows ensures idx[i] == i {
        IncreasingAtLeast(idx, i);
        IncreasingAtMost(idx, t.rows, i);
      }
      forall i, k | 0 <= i < k < t.rows ensures Row(t, i) != Row(t, k) {
        assert idx[k] == k && !SeenBefore(t, idx[k]);
      }
    }
    if DistinctRows(t) {
      forall i | 0 <= i < t.rows ensures !SeenBefore(t, i) {
      }
      CoversAll(idx, t.rows);
      var d := Dedup(t);
      forall j | 0 <= j < |t.columns| ensures d.columns[j] == t.columns[j] {
        assert ColumnFits(t.columns[j], t.rows) && ColumnFits(d.columns[j], d.rows);
        forall i | 0 <= i < t.rows ensures d.columns[j].cells[i] == t.columns[j].cells[i] {
          assert d.columns[j].cells[i] == Row(d, i)[j] == Row(t, idx[i])[j];
        }
        assert d.columns[j].name == Names(d.columns)[j];
      }
      assert d.columns == t.columns;
    }
  }

  /** An increasing sequence of positions below `n` that holds every one of them is
      `0, 1, ..., n - 1`. */
  lemma {:induction false} CoversAll(idx: seq<nat>, n: nat)
    requires forall k :: 0 <= k < |idx| ==> idx[k] < n
    requires forall k, l :: 0 <= k < l < |idx| ==> idx[k] < idx[l]
    requires forall i :: 0 <= i < n ==> i in idx
    ensures |idx| == n && forall k :: 0 <= k < n ==> idx[k] == k
    decreases n
  {
    if |idx| > 0 {
      assert idx[0] < n;
    }
    if n > 0 {
      LastIsLargest(idx, n);
      var front := idx[..|idx| - 1];
      forall i | 0 <= i < n - 1 ensures i in front {
        InFront(idx, i);
      }
      CoversAll(front, n - 1);
      assert idx == front + [n - 1];
    }
  }

  lemma LastIsLargest(idx: seq<nat>, n: nat)
    requires 0 < n && n - 1 in idx
    requires forall k :: 0 <= k < |idx| ==> idx[k] < n
    requires forall k, l :: 0 <= k < l < |idx| ==> idx[k] < idx[l]
    ensures |idx| > 0 && idx[|idx| - 1] == n - 1
  {
    var p :| 0 <= p < |idx| && idx[p] == n - 1;
    IncreasingAtMost(idx, n, p);
  }

  lemma InFront(idx: seq<nat>, i: nat)
    requires |idx| > 0 && i in idx && i < idx[|idx| - 1]
    ensures i in idx[..|idx| - 1]
  {
    var q :| 0 <= q < |idx| && idx[q] == i;
    assert idx[..|idx| - 1][q] == i;
  }

  lemma {:induction false} IncreasingAtLeast(idx: seq<nat>, i: nat)
    requires forall k, l :: 0 <= k < l < |idx| ==> idx[k] < idx[l]
    requires i < |idx|
    ensures idx[i] >= i
    decreases i
  {
    if i > 0 {
      IncreasingAtLeast(idx, i - 1);
    }
  }

  lemma {:induction false} IncreasingAtMost(idx: seq<nat>, n: nat, i: nat)
    requires forall k :: 0 <= k < |idx| ==> idx[k] < n
    requires forall k, l :: 0 <= k < l < |idx| ==> idx[k] < idx[l]
    requires i < |idx|
    ensures idx[i] + |idx| - i <= n
    decreases |idx| - i
  {
    if i + 1 < |idx| {
      IncreasingAtMost(idx, n, i + 1);
    }
  }

  // ---------------------------------------------------------------------------
  // Duplicates can come back

  lemma CustomerIdIsAnId()
    ensures IsIdColumn("customerid")
  {
    LowerOfLower("customerid");
    assert Contains("id", "id");
    ContainsInContext("customer", "id", "", "id");
    assert "customer" + "id" + "" == "customerid";
  }

  lemma PlanIsNoId()
    ensures !IsIdColumn("plan")
  {
    LowerOfLower("plan");
    assert !Contains("", "id");
    assert "n"[1..] == "" && !Contains("n", "id");
    assert "an"[..2][0] == 'a' && "an"[1..] == "n" && !Contains("an", "id");
    assert "lan"[..2][0] == 'l' && "lan"[1..] == "an" && !Contains("lan", "id");
    assert "plan"[..2][0] == 'p' && "plan"[1..] == "lan" && !Contains("plan", "id");
  }

  /** Deduplication runs before the identifier columns are dropped, so two customers
      who differ only in their id survive it and are equal rows of the cleaned frame. */
  lemma DuplicatesSurviveIdDrop()
    ensures var t := Table([Column("customerid", Numeric, [Num(1.0), Num(2.0)]),
                            Column("plan", Categorical, [Str("basic"), Str("basic")])], 2);
      && WellFormed(t) && DistinctRows(t) && Dedup(t) == t
      && var dropped := Table(DropIdColumns(t.columns), t.rows);
         WellFormed(dropped) && !DistinctRows(dropped)
  {
    var id := Column("customerid", Numeric, [Num(1.0), Num(2.0)]);
    var plan := Column("plan", Categorical, [Str("basic"), Str("basic")]);
    TwoCustomersDistinct(id, plan);
    IdDropLeavesPlan(id, plan);
  }

  lemma TwoCustomersDistinct(id: Column, plan: Column)
    requires id == Column("customerid", Numeric, [Num(1.0), Num(2.0)])
    requires plan == Column("plan", Categorical, [Str("basic"), Str("basic")])
    ensures var t := Table([id, plan], 2); WellFormed(t) && DistinctRows(t) && Dedup(t) == t
  {
    var t := Table([id, plan], 2);
    assert WellFormed(t) by {
      assert ColumnFits(id, 2) && ColumnFits(plan, 2);
    }
    assert DistinctRows(t) by {
      assert Row(t, 0)[0] != Row(t, 1)[0];
    }
    DedupRemovesNothingIff(t);
  }

  lemma IdDropLeavesPlan(id: Column, plan: Column)
    requires id == Column("customerid", Numeric, [Num(1.0), Num(2.0)])
    requires plan == Column("plan", Categorical, [Str("basic"), Str("basic")])
    ensures var dropped := Table(DropIdColumns([id, plan]), 2); WellFormed(dropped) && !DistinctRows(dropped)
  {
    CustomerIdIsAnId();
    PlanIsNoId();
    assert [id, plan][1..] == [plan] && [plan][1..] == [];
    assert DropIdColumns([plan]) == [plan];
    assert DropIdColumns([id, plan]) == [plan];
    var dropped := Table([plan], 2);
    assert WellFormed(dropped) by {
      assert ColumnFits(plan, 2);
    }
    assert Row(dropped, 0) == Row(dropped, 1);
  }
}

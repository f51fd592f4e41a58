/** The slice of pandas that resume-evaluator/src/app.py relies on: a data frame
    is a list of column names and rows of cells, a missing value is `NaN`.  The
    operations are column selection (`df[col]`), element-wise equality counts
    (`len(df[df[col] == x])`), `isin` filtering, `sort_values(ascending=False)`
    with missing values last, `head(n)`, and the left merge `pd.merge(..., how="left")`. */
module Frames {
  import opened Wrappers
  import opened PyText
  import opened PyJson

  /** A cell: a value, or the missing-value marker a left merge fills in. */
  datatype Cell = Val(v: Json) | NaN

  function S(s: string): Cell {
    Val(JStr(s))
  }

  /** `str(cell)`; a missing value shows as "nan". */
  function CellStr(c: Cell): string {
    match c
    case NaN => "nan"
    case Val(v) => Str(v)
  }

  datatype Frame = Frame(columns: seq<string>, rows: seq<seq<Cell>>)

  /** Every row has one cell per column. */
  predicate Rectangular(f: Frame) {
    forall i :: 0 <= i < |f.rows| ==> |f.rows[i]| == |f.columns|
  }

  /** `df.empty`: no rows or no columns. */
  predicate IsEmpty(f: Frame) {
    |f.rows| == 0 || |f.columns| == 0
  }

  /** `df[name]`: the column's cells, top to bottom, or `KeyError(name)`. */
  function Column(f: Frame, name: string): (r: Result<seq<Cell>, PyError>)
    requires Rectangular(f)
    ensures r.Err? <==> name !in f.columns
    ensures r.Err? ==> r.error == KeyError(name)
    ensures r.Ok? ==> (|r.value| == |f.rows| &&
      forall i :: 0 <= i < |f.rows| ==> r.value[i] == f.rows[i][IndexOf(f.columns, name).value])
  {
    match IndexOf(f.columns, name)
    case None => Err(KeyError(name))
    case Some(k) => Ok(seq(|f.rows|, i requires 0 <= i < |f.rows| => f.rows[i][k]))
  }

  /** The cell of a row in column `k`, or a missing value where the row is too short. */
  function CellAt(row: seq<Cell>, k: nat): Cell {
    if k < |row| then row[k] else NaN
  }

  // ---------------------------------------------------------------------------
  // Counting: `len(df[df[col] == x])`

  function CountEq(col: seq<Cell>, x: Cell): (r: nat)
    ensures r <= |col|
    decreases |col|
  {
    if col == [] then 0
    else CountEq(col[..|col| - 1], x) + (if col[|col| - 1] == x then 1 else 0)
  }

  /** The positions whose cell equals `x`: an independent description of the count. */
  function Positions(col: seq<Cell>, x: Cell): set<nat> {
    set i: nat | i < |col| && col[i] == x
  }

  lemma {:induction false} CountIsPositions(col: seq<Cell>, x: Cell)
    ensures CountEq(col, x) == |Positions(col, x)|
    decreases |col|
  {
    if col == [] {
      assert Positions(col, x) == {};
    } else {
      var init := col[..|col| - 1];
      CountIsPositions(init, x);
      var last: nat := |col| - 1;
      var before := Positions(init, x);
      assert CountEq(col, x) == CountEq(init, x) + (if col[last] == x then 1 else 0);
      assert last !in before;
      if col[last] == x {
        forall i: nat
          ensures i in Positions(col, x) <==> i in before + {last}
        {
          if i < last {
            assert col[i] == init[i];
          }
        }
        assert Positions(col, x) == before + {last};
      } else {
        forall i: nat
          ensures i in Positions(col, x) <==> i in before
        {
          if i < last {
            assert col[i] == init[i];
          }
        }
        assert Positions(col, x) == before;
      }
    }
  }

  /** Counts of three different values never add up to more than the rows. */
  lemma {:induction false} CountThree(col: seq<Cell>, a: Cell, b: Cell, c: Cell)
    requires a != b && b != c && a != c
    ensures CountEq(col, a) + CountEq(col, b) + CountEq(col, c) <= |col|
    decreases |col|
  {
    if col != [] {
      CountThree(col[..|col| - 1], a, b, c);
    }
  }

  // ---------------------------------------------------------------------------
  // Filtering: `df[df[col].isin(values)]`

  function FilterIn(rows: seq<seq<Cell>>, k: nat, values: seq<Cell>): (r: seq<seq<Cell>>)
    ensures |r| <= |rows|
    ensures forall row :: row in r <==> row in rows && CellAt(row, k) in values
    ensures multiset(r) <= multiset(rows)
    decreases |rows|
  {
    if rows == [] then []
    else
      var init := FilterIn(rows[..|rows| - 1], k, values);
      var last := rows[|rows| - 1];
      assert rows == rows[..|rows| - 1] + [last];
      if CellAt(last, k) in values then init + [last] else init
  }

  // ---------------------------------------------------------------------------
  // Sorting: `sort_values(by=col, ascending=False)`, missing values last
  //
  // Only integer cells and missing values are ordered: any other cell in the score
  // column is refused with a TypeError, even where pandas would still sort the
  // column (a column of strings only, or of booleans, which compare as 0 and 1).

  /** The sort key of an integer cell; `None` for a missing value. */
  function Score(c: Cell): Option<int> {
    if c.Val? && c.v.JInt? then Some(c.v.i) else None
  }

  /** Whether a cell can be ordered with the scores: an integer or a missing value. */
  predicate Orderable(c: Cell) {
    c.NaN? || c.v.JInt?
  }

  /** `a` sorts strictly before `b` in descending order with missing values last. */
  predicate Above(a: Option<int>, b: Option<int>) {
    a.Some? && (b.None? || a.value > b.value)
  }

  function Key(row: seq<Cell>, k: nat): Option<int> {
    Score(CellAt(row, k))
  }

  /** Non-increasing scores, missing ones at the end. */
  predicate SortedDesc(rows: seq<seq<Cell>>, k: nat) {
    forall i, j :: 0 <= i < j < |rows| ==> !Above(Key(rows[j], k), Key(rows[i], k))
  }

  /** Inserts `x` after every row that does not sort below it, so equal keys keep
      their order. */
  function Insert(x: seq<Cell>, s: seq<seq<Cell>>, k: nat): (r: seq<seq<Cell>>)
    ensures multiset(r) == multiset(s) + multiset{x}
    ensures |r| == |s| + 1
    decreases |s|
  {
    if s == [] then [x]
    else if Above(Key(x, k), Key(s[0], k)) then [x] + s
    else
      assert s == [s[0]] + s[1..];
      [s[0]] + Insert(x, s[1..], k)
  }

  lemma {:induction false} InsertSorted(x: seq<Cell>, s: seq<seq<Cell>>, k: nat)
    requires SortedDesc(s, k)
    ensures SortedDesc(Insert(x, s, k), k)
    decreases |s|
  {
    if s != [] && !Above(Key(x, k), Key(s[0], k)) {
      InsertSorted(x, s[1..], k);
      var r := Insert(x, s, k);
      var t := Insert(x, s[1..], k);
      assert r == [s[0]] + t;
      forall j | 0 <= j < |t|
        ensures !Above(Key(t[j], k), Key(s[0], k))
      {
        assert t[j] in multiset(t);
        assert t[j] in multiset(s[1..]) + multiset{x};
        if t[j] != x {
          assert t[j] in multiset(s[1..]);
          assert t[j] in s[1..];
          var m :| 0 <= m < |s[1..]| && s[1..][m] == t[j];
          assert s[m + 1] == t[j];
        }
      }
    }
  }

  /** Stable insertion sort by descending score, missing scores last. */
  function SortDesc(rows: seq<seq<Cell>>, k: nat): (r: seq<seq<Cell>>)
    ensures multiset(r) == multiset(rows)
    ensures |r| == |rows|
    ensures SortedDesc(r, k)
    decreases |rows|
  {
    if rows == [] then []
    else
      var init := rows[..|rows| - 1];
      var sorted := SortDesc(init, k);
      InsertSorted(rows[|rows| - 1], sorted, k);
      assert rows == init + [rows[|rows| - 1]];
      Insert(rows[|rows| - 1], sorted, k)
  }

  predicate AllOrderable(rows: seq<seq<Cell>>, k: nat) {
    forall i :: 0 <= i < |rows| ==> Orderable(CellAt(rows[i], k))
  }

  /** Reordering the rows of a rectangular frame keeps it rectangular. */
  lemma PermutedRectangular(f: Frame, rows: seq<seq<Cell>>)
    requires Rectangular(f) && multiset(rows) == multiset(f.rows)
    ensures Rectangular(Frame(f.columns, rows))
  {
    forall i | 0 <= i < |rows|
      ensures |rows[i]| == |f.columns|
    {
      assert rows[i] in multiset(f.rows);
    }
  }

  /** `df.sort_values(by=name, ascending=False)`: `KeyError` for an unknown column and
      `TypeError` when a score is neither an integer nor missing. */
  function SortValuesDesc(f: Frame, name: string): (r: Result<Frame, PyError>)
    requires Rectangular(f)
    ensures r.Err? <==> (name !in f.columns || !AllOrderable(f.rows, IndexOf(f.columns, name).value))
    ensures r.Err? && name !in f.columns ==> r.error == KeyError(name)
    ensures r.Ok? ==> r.value.columns == f.columns && Rectangular(r.value)
    ensures r.Ok? ==> multiset(r.value.rows) == multiset(f.rows)
    ensures r.Ok? ==> SortedDesc(r.value.rows, IndexOf(f.columns, name).value)
  {
    match IndexOf(f.columns, name)
    case None => Err(KeyError(name))
    case Some(k) =>
      if !AllOrderable(f.rows, k) then
        Err(TypeError("'<' not supported between the values of " + name))
      else
        var rows := SortDesc(f.rows, k);
        PermutedRectangular(f, rows);
        Ok(Frame(f.columns, rows))
  }

  /** `df.head(n)`. */
  function Head(f: Frame, n: nat): (r: Frame)
    ensures r.columns == f.columns
    ensures |r.rows| == if |f.rows| < n then |f.rows| else n
    ensures r.rows <= f.rows
  {
    Frame(f.columns, if |f.rows| < n then f.rows else f.rows[..n])
  }

  // ---------------------------------------------------------------------------
  // Left merge: `pd.merge(left, right, on=key, how="left")`

  /** The right rows whose key cell equals `key`, in right order; missing keys match
      each other, as in pandas. */
  function Matches(rows: seq<seq<Cell>>, k: nat, key: Cell): (r: seq<seq<Cell>>)
    ensures forall row :: row in r <==> row in rows && CellAt(row, k) == key
    ensures |r| <= |rows|
    decreases |rows|
  {
    if rows == [] then []
    else
      var init := Matches(rows[..|rows| - 1], k, key);
      var last := rows[|rows| - 1];
      assert rows == rows[..|rows| - 1] + [last];
      if CellAt(last, k) == key then init + [last] else init
  }

  /** A right row without its key cell. */
  function Rest(row: seq<Cell>, k: nat): (r: seq<Cell>)
    ensures k < |row| ==> |r| == |row| - 1
  {
    if k < |row| then row[..k] + row[k + 1..] else row
  }

  function NaNs(n: nat): (r: seq<Cell>)
    ensures |r| == n && forall i :: 0 <= i < n ==> r[i] == NaN
  {
    seq(n, i => NaN)
  }

  /** The output rows for one left row: one per matching right row, or one padded
      with missing values when nothing matches. */
  function Block(lrow: seq<Cell>, lk: nat, right: Frame, rk: nat): (r: seq<seq<Cell>>)
    ensures |r| >= 1
    ensures forall j :: 0 <= j < |r| ==> lrow <= r[j]
  {
    var ms := Matches(right.rows, rk, CellAt(lrow, lk));
    if ms == [] then [lrow + NaNs(if |right.columns| > 0 then |right.columns| - 1 else 0)]
    else seq(|ms|, j requires 0 <= j < |ms| => lrow + Rest(ms[j], rk))
  }

  function MergeRows(lrows: seq<seq<Cell>>, lk: nat, right: Frame, rk: nat): seq<seq<Cell>>
    decreases |lrows|
  {
    if lrows == [] then []
    else MergeRows(lrows[..|lrows| - 1], lk, right, rk) + Block(lrows[|lrows| - 1], lk, right, rk)
  }

  /** `c` with `suffix` appended when it clashes with a column of the other side. */
  function Rename(c: string, other: seq<string>, key: string, suffix: string): string {
    if c != key && c in other then c + suffix else c
  }

  function RenameAll(cols: seq<string>, other: seq<string>, key: string, suffix: string): (r: seq<string>)
    ensures |r| == |cols|
  {
    seq(|cols|, i requires 0 <= i < |cols| => Rename(cols[i], other, key, suffix))
  }

  /** The merged columns: the left ones, then the right ones without the key;
      shared names get `_x` on the left and `_y` on the right. */
  function MergeColumns(lcols: seq<string>, rcols: seq<string>, key: string, rk: nat): seq<string>
    requires rk < |rcols|
  {
    RenameAll(lcols, rcols, key, "_x") + RenameAll(rcols[..rk] + rcols[rk + 1..], lcols, key, "_y")
  }

  /** `pd.merge(left, right, on=key, how="left")`. */
  function LeftMerge(left: Frame, right: Frame, key: string): (r: Result<Frame, PyError>)
    ensures r.Err? <==> key !in left.columns || key !in right.columns
    ensures r.Err? ==> r.error == KeyError(key)
  {
    match (IndexOf(left.columns, key), IndexOf(right.columns, key))
    case (Some(lk), Some(rk)) =>
      Ok(Frame(MergeColumns(left.columns, right.columns, key, rk), MergeRows(left.rows, lk, right, rk)))
    case _ => Err(KeyError(key))
  }

  // ---------------------------------------------------------------------------
  // What a left merge keeps

  /** The number of output rows: one per match, at least one per left row. */
  function MergeCount(lrows: seq<seq<Cell>>, lk: nat, right: Frame, rk: nat): nat
    decreases |lrows|
  {
    if lrows == [] then 0
    else
      var ms := Matches(right.rows, rk, CellAt(lrows[|lrows| - 1], lk));
      MergeCount(lrows[..|lrows| - 1], lk, right, rk) + (if ms == [] then 1 else |ms|)
  }

  lemma {:induction false} MergeRowsCount(lrows: seq<seq<Cell>>, lk: nat, right: Frame, rk: nat)
    ensures |MergeRows(lrows, lk, right, rk)| == MergeCount(lrows, lk, right, rk)
    ensures MergeCount(lrows, lk, right, rk) >= |lrows|
    decreases |lrows|
  {
    if lrows != [] {
      MergeRowsCount(lrows[..|lrows| - 1], lk, right, rk);
    }
  }

  /** Some row of `out` starts with `lrow`. */
  predicate Covered(lrow: seq<Cell>, out: seq<seq<Cell>>) {
    exists j :: 0 <= j < |out| && lrow <= out[j]
  }

  /** `row` starts with one of `lrows`. */
  predicate Descends(row: seq<Cell>, lrows: seq<seq<Cell>>) {
    exists i :: 0 <= i < |lrows| && lrows[i] <= row
  }

  lemma CoveredSnoc(rows: seq<seq<Cell>>, all: seq<seq<Cell>>, before: seq<seq<Cell>>, block: seq<seq<Cell>>)
    requires rows != [] && all == before + block
    requires forall i :: 0 <= i < |rows| - 1 ==> Covered(rows[i], before)
    requires |block| >= 1 && rows[|rows| - 1] <= block[0]
    ensures forall i :: 0 <= i < |rows| ==> Covered(rows[i], all)
  {
    forall i | 0 <= i < |rows|
      ensures Covered(rows[i], all)
    {
      if i < |rows| - 1 {
        var j :| 0 <= j < |before| && rows[i] <= before[j];
        assert all[j] == before[j];
      } else {
        assert all[|before|] == block[0];
      }
    }
  }

  lemma DescendsSnoc(init: seq<seq<Cell>>, last: seq<Cell>, before: seq<seq<Cell>>, block: seq<seq<Cell>>)
    requires forall j :: 0 <= j < |before| ==> Descends(before[j], init)
    requires forall j :: 0 <= j < |block| ==> last <= block[j]
    ensures forall j :: 0 <= j < |before + block| ==> Descends((before + block)[j], init + [last])
  {
    var rows, all := init + [last], before + block;
    forall j | 0 <= j < |all|
      ensures Descends(all[j], rows)
    {
      if j < |before| {
        assert all[j] == before[j];
        var i :| 0 <= i < |init| && init[i] <= before[j];
        assert rows[i] == init[i];
      } else {
        assert all[j] == block[j - |before|];
        assert rows[|init|] == last;
      }
    }
  }

  /** The merge unfolded once: the rows for all but the last left row, then the
      block of the last one. */
  lemma MergeRowsSnoc(lrows: seq<seq<Cell>>, lk: nat, right: Frame, rk: nat)
    requires lrows != []
    ensures MergeRows(lrows, lk, right, rk)
      == MergeRows(lrows[..|lrows| - 1], lk, right, rk) + Block(lrows[|lrows| - 1], lk, right, rk)
  {
  }

  /** Every left row survives the merge: some output row starts with it. */
  lemma {:induction false} MergeKeepsLeftRows(lrows: seq<seq<Cell>>, lk: nat, right: Frame, rk: nat)
    ensures forall i :: 0 <= i < |lrows| ==> Covered(lrows[i], MergeRows(lrows, lk, right, rk))
    decreases |lrows|
  {
    if lrows != [] {
      var init := lrows[..|lrows| - 1];
      var last := lrows[|lrows| - 1];
      MergeKeepsLeftRows(init, lk, right, rk);
      MergeRowsSnoc(lrows, lk, right, rk);
      forall i | 0 <= i < |lrows| - 1
        ensures Covered(lrows[i], MergeRows(init, lk, right, rk))
      {
        assert lrows[i] == init[i];
      }
      CoveredSnoc(lrows, MergeRows(lrows, lk, right, rk), MergeRows(init, lk, right, rk), Block(last, lk, right, rk));
    }
  }

  /** Every output row of the merge starts with some left row. */
  lemma {:induction false} MergeRowsFromLeft(lrows: seq<seq<Cell>>, lk: nat, right: Frame, rk: nat)
    ensures forall j :: 0 <= j < |MergeRows(lrows, lk, right, rk)| ==> Descends(MergeRows(lrows, lk, right, rk)[j], lrows)
    decreases |lrows|
  {
    if lrows != [] {
      var init := lrows[..|lrows| - 1];
      var last := lrows[|lrows| - 1];
      MergeRowsFromLeft(init, lk, right, rk);
      MergeRowsSnoc(lrows, lk, right, rk);
      assert lrows == init + [last];
      DescendsSnoc(init, last, MergeRows(init, lk, right, rk), Block(last, lk, right, rk));
    }
  }

  /** The key column holds each value at most once. */
  predicate UniqueKeys(rows: seq<seq<Cell>>, k: nat) {
    forall i, j :: 0 <= i < |rows| && 0 <= j < |rows| && i != j ==> CellAt(rows[i], k) != CellAt(rows[j], k)
  }

  /** No row carries `key`, so nothing matches. */
  lemma {:induction false} NoMatches(rows: seq<seq<Cell>>, k: nat, key: Cell)
    requires forall i :: 0 <= i < |rows| ==> CellAt(rows[i], k) != key
    ensures Matches(rows, k, key) == []
    decreases |rows|
  {
    if rows != [] {
      NoMatches(rows[..|rows| - 1], k, key);
    }
  }

  lemma {:induction false} MatchesUnique(rows: seq<seq<Cell>>, k: nat, key: Cell)
    requires UniqueKeys(rows, k)
    ensures |Matches(rows, k, key)| <= 1
    decreases |rows|
  {
    if rows != [] {
      var init := rows[..|rows| - 1];
      var last := rows[|rows| - 1];
      assert UniqueKeys(init, k) by {
        forall i, j | 0 <= i < |init| && 0 <= j < |init| && i != j
          ensures CellAt(init[i], k) != CellAt(init[j], k)
        {
          assert init[i] == rows[i] && init[j] == rows[j];
        }
      }
      MatchesUnique(init, k, key);
      if CellAt(last, k) == key {
        forall i | 0 <= i < |init|
          ensures CellAt(init[i], k) != key
        {
          assert init[i] == rows[i];
        }
        NoMatches(init, k, key);
      }
    }
  }

  /** The one output row of a left row with at most one match: the left cells, then
      the match's cells without its key, or missing values when nothing matches. */
  function MergedRow(lrow: seq<Cell>, lk: nat, right: Frame, rk: nat): seq<Cell> {
    var ms := Matches(right.rows, rk, CellAt(lrow, lk));
    lrow + (if ms == [] then NaNs(if |right.columns| > 0 then |right.columns| - 1 else 0) else Rest(ms[0], rk))
  }

  /** A left row with at most one match gives exactly one output row, its merged row. */
  lemma BlockSingle(lrow: seq<Cell>, lk: nat, right: Frame, rk: nat)
    requires |Matches(right.rows, rk, CellAt(lrow, lk))| <= 1
    ensures Block(lrow, lk, right, rk) == [MergedRow(lrow, lk, right, rk)]
  {
  }

  /** When every left row meets at most one right row, the merge keeps the left rows
      one for one and in order, each replaced by its single output row. */
  lemma {:induction false} MergeUniqueKeepsRows(lrows: seq<seq<Cell>>, lk: nat, right: Frame, rk: nat)
    requires forall i :: 0 <= i < |lrows| ==> |Block(lrows[i], lk, right, rk)| == 1
    ensures |MergeRows(lrows, lk, right, rk)| == |lrows|
    ensures forall i :: 0 <= i < |lrows| ==> MergeRows(lrows, lk, right, rk)[i] == Block(lrows[i], lk, right, rk)[0]
    decreases |lrows|
  {
    if lrows != [] {
      var init := lrows[..|lrows| - 1];
      var last := lrows[|lrows| - 1];
      assert forall i :: 0 <= i < |init| ==> init[i] == lrows[i];
      MergeUniqueKeepsRows(init, lk, right, rk);
      var before := MergeRows(init, lk, right, rk);
      var block := Block(last, lk, right, rk);
      MergeRowsSnoc(lrows, lk, right, rk);
      forall i | 0 <= i < |lrows|
        ensures MergeRows(lrows, lk, right, rk)[i] == Block(lrows[i], lk, right, rk)[0]
      {
        if i < |init| {
          assert (before + block)[i] == before[i];
        } else {
          assert (before + block)[i] == block[0];
        }
      }
    }
  }

  /** Merging keeps every row of the left frame and never shrinks it. */
  lemma LeftMergeKeepsRows(left: Frame, right: Frame, key: string)
    requires LeftMerge(left, right, key).Ok?
    ensures |LeftMerge(left, right, key).value.rows| >= |left.rows|
    ensures forall i :: 0 <= i < |left.rows| ==> Covered(left.rows[i], LeftMerge(left, right, key).value.rows)
  {
    var lk, rk := IndexOf(left.columns, key).value, IndexOf(right.columns, key).value;
    MergeRowsCount(left.rows, lk, right, rk);
    MergeKeepsLeftRows(left.rows, lk, right, rk);
  }

  /** With a right key column free of repeats, merging keeps the left rows one for one,
      in order, each extended by the cells of its match or by missing values. */
  lemma LeftMergeUnique(left: Frame, right: Frame, key: string)
    requires LeftMerge(left, right, key).Ok?
    requires UniqueKeys(right.rows, IndexOf(right.columns, key).value)
    ensures |LeftMerge(left, right, key).value.rows| == |left.rows|
    ensures forall i :: 0 <= i < |left.rows| ==> left.rows[i] <= LeftMerge(left, right, key).value.rows[i]
    ensures forall i :: 0 <= i < |left.rows| ==>
      LeftMerge(left, right, key).value.rows[i] ==
      MergedRow(left.rows[i], IndexOf(left.columns, key).value, right, IndexOf(right.columns, key).value)
  {
    var lk, rk := IndexOf(left.columns, key).value, IndexOf(right.columns, key).value;
    forall i | 0 <= i < |left.rows|
      ensures Block(left.rows[i], lk, right, rk) == [MergedRow(left.rows[i], lk, right, rk)]
    {
      MatchesUnique(right.rows, rk, CellAt(left.rows[i], lk));
      BlockSingle(left.rows[i], lk, right, rk);
    }
    MergeUniqueKeepsRows(left.rows, lk, right, rk);
  }
}

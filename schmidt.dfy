/** The control logic of the Schmidt test (`_stats/schmidt_test.py`): the
    choice of the confidence bounds, the dropping of the `'SF'` column and the
    NaN-stopping fold `g_nan_mean`. The logarithms, standard deviations, means
    and square roots are float numerics and are not modelled; the tabulated
    bounds (a pickled table) are the parameter `table`, and the square root of
    the sample count is the parameter `root`. */
module Schmidt {
  import opened Basics
  import opened Text
  import opened Bisect
  import opened Groups

  /** One row of the table of Schmidt (2000): sample count and the two limits
      of the experimental sigma. Its positions are its labels. */
  datatype TableRow = TableRow(n: int, lower: real, upper: real)

  /** The table's `n` column, as `bisect_left` reads it. */
  function NColumn(table: seq<TableRow>): (c: seq<real>)
    ensures |c| == |table| && forall k :: 0 <= k < |table| ==> c[k] == table[k].n as real
  {
    seq(|table|, k requires 0 <= k < |table| => table[k].n as real)
  }

  /** Lines 24-26 (and 74-76): the bounds of the first tabulated row whose `n`
      is at least `count`; past the last row `dat.loc[i]` raises KeyError. */
  function TableLimits(table: seq<TableRow>, count: nat): (r: Result<(real, real)>)
    ensures r.Err? ==> r.error == KeyError
    ensures Sorted(NColumn(table)) ==>
      (r.Ok? <==> exists k :: 0 <= k < |table| && table[k].n >= count)
    ensures Sorted(NColumn(table)) && r.Ok? ==>
      exists i :: 0 <= i < |table| && r.value == (table[i].lower, table[i].upper) &&
        table[i].n >= count && forall k :: 0 <= k < i ==> table[k].n < count
  {
    var i := BisectLeft(NColumn(table), count as real);
    if i < |table| then
      Ok((table[i].lower, table[i].upper))
    else
      Err(KeyError)
  }

  /** The analytic bounds for more than 100 samples, `1.28 -+ 2.15/sqrt(n)`. */
  function AnalyticLimits(root: real): (real, real)
    requires root > 0.0
  {
    (1.28 - 2.15 / root, 1.28 + 2.15 / root)
  }

  /** Beyond 100 samples the analytic interval is centred on 1.28, has its lower
      end below its upper end, and lies inside (1.065, 1.495). */
  lemma AnalyticLimitsOrdered(count: nat, root: real)
    requires count > 100 && root >= 0.0 && root * root == count as real
    ensures root > 10.0
    ensures AnalyticLimits(root).0 < AnalyticLimits(root).1
    ensures AnalyticLimits(root).0 + AnalyticLimits(root).1 == 2.56
    ensures 1.065 < AnalyticLimits(root).0 && AnalyticLimits(root).1 < 1.495
  {
    if root <= 10.0 {
      assert false;
    }
    assert 2.15 / root < 0.215 by {
      assert 2.15 == (2.15 / root) * root;
      assert 0.215 * root > 2.15;
    }
  }

  /** Lines 22-29 (and 72-79): tabulated bounds up to 100 samples, analytic
      bounds beyond; `root` is the square root of `count`. */
  function Limits(table: seq<TableRow>, count: nat, root: real): (r: Result<(real, real)>)
    requires root >= 0.0 && root * root == count as real
    ensures count <= 100 ==> r == TableLimits(table, count)
    ensures count > 100 ==> r.Ok? && r.value.0 < r.value.1 && r.value.0 + r.value.1 == 2.56
  {
    if count <= 100 then
      TableLimits(table, count)
    else
      AnalyticLimitsOrdered(count, root);
      Ok(AnalyticLimits(root))
  }

  /** `schmidt_test(decay_times)`, lines 7-32: the confidence interval, keyed
      on the number of decay times. The sigma of the log-times is not modelled. */
  function SchmidtTest(decayTimes: seq<real>, table: seq<TableRow>, root: real): (r: Result<(real, real)>)
    requires root >= 0.0 && root * root == |decayTimes| as real
    ensures |decayTimes| <= 100 ==> r == TableLimits(table, |decayTimes|)
    ensures |decayTimes| > 100 ==> r == Ok(AnalyticLimits(root)) && r.value.0 < r.value.1
  {
    Limits(table, |decayTimes|, root)
  }

  // ---------------------------------------------------------------------------
  // The 'SF' column of a result frame (lines 64-65)

  function LastColumn(f: Frame): (c: seq<Cell>)
    requires RowsFit(f.rows, |f.columns|) && |f.columns| > 0
    ensures |c| == |f.rows|
  {
    seq(|f.rows|, i requires 0 <= i < |f.rows| => f.rows[i][|f.columns| - 1])
  }

  /** `.str.contains('SF')` on one cell: a boolean for a text, NaN (None)
      for anything else. */
  function ContainsSF(c: Cell): Option<bool>
  {
    if c.Marker? then Some(Contains(c.text, "SF")) else None
  }

  /** Python truthiness of that result, as the builtin `any` sees it: NaN is true. */
  predicate Truthy(v: Option<bool>)
  {
    v.None? || v.value
  }

  /** `df.iloc[:, :-1]`. */
  function DropLast(f: Frame): (g: Frame)
    requires RowsFit(f.rows, |f.columns|) && |f.columns| > 0
    ensures RowsFit(g.rows, |g.columns|) && g.columns == f.columns[..|f.columns| - 1]
    ensures |g.rows| == |f.rows| && forall i :: 0 <= i < |f.rows| ==> g.rows[i] == f.rows[i][..|f.columns| - 1]
  {
    Frame(f.columns[..|f.columns| - 1],
          seq(|f.rows|, i requires 0 <= i < |f.rows| => f.rows[i][..|f.columns| - 1]))
  }

  /** Lines 64-65. A frame without columns has no `iloc[:, -1]` (IndexError);
      the `.str` accessor refuses a column of numbers without any text
      (AttributeError); otherwise the column goes when `any` finds a true or
      NaN entry. */
  function DropSF(f: Frame): (r: Result<Frame>)
    requires RowsFit(f.rows, |f.columns|)
    ensures r.Err? <==> (|f.columns| == 0 ||
                         ((forall k :: 0 <= k < |f.rows| ==> !LastColumn(f)[k].Marker?) &&
                          (exists k :: 0 <= k < |f.rows| && LastColumn(f)[k].Time?)))
    ensures r.Ok? ==> RowsFit(r.value.rows, |r.value.columns|) && |r.value.rows| == |f.rows|
    ensures r.Ok? ==> (r.value == DropLast(f) <==> exists k :: 0 <= k < |f.rows| && Truthy(ContainsSF(LastColumn(f)[k])))
    ensures r.Ok? ==> (r.value == f <==> forall k :: 0 <= k < |f.rows| ==> !Truthy(ContainsSF(LastColumn(f)[k])))
  {
    if |f.columns| == 0 then
      Err(IndexError)
    else
      var last := LastColumn(f);
      if (forall k :: 0 <= k < |last| ==> !last[k].Marker?) && (exists k :: 0 <= k < |last| && last[k].Time?) then
        Err(AttributeError)
      else if exists k :: 0 <= k < |last| && Truthy(ContainsSF(last[k])) then
        assert DropLast(f) != f by { assert |DropLast(f).columns| != |f.columns|; }
        Ok(DropLast(f))
      else
        assert DropLast(f) != f by { assert |DropLast(f).columns| != |f.columns|; }
        Ok(f)
  }

  lemma SFContainsSF()
    ensures Contains("SF", "SF")
  {
    assert OccursAt("SF", "SF", 0);
  }

  /** On a last column of texts the column is dropped exactly when one of
      them contains `'SF'`. */
  lemma DropSFOnTexts(f: Frame)
    requires RowsFit(f.rows, |f.columns|) && |f.columns| > 0
    requires forall k :: 0 <= k < |f.rows| ==> f.rows[k][|f.columns| - 1].Marker?
    ensures DropSF(f).Ok?
    ensures DropSF(f).value == DropLast(f) <==>
      exists k :: 0 <= k < |f.rows| && Contains(f.rows[k][|f.columns| - 1].text, "SF")
  {
    var last := LastColumn(f);
    if exists k :: 0 <= k < |f.rows| && Contains(f.rows[k][|f.columns| - 1].text, "SF") {
      var k :| 0 <= k < |f.rows| && Contains(f.rows[k][|f.columns| - 1].text, "SF");
      assert Truthy(ContainsSF(last[k]));
    }
  }

  /** A frame of the simulation, whose rows all end with `'SF'`, loses that
      column (when it has a row). */
  lemma SimulationFrameDropsSF(f: Frame)
    requires RowsFit(f.rows, |f.columns|) && |f.columns| > 0 && |f.rows| > 0
    requires forall k :: 0 <= k < |f.rows| ==> f.rows[k][|f.columns| - 1] == Marker("SF")
    ensures DropSF(f) == Ok(DropLast(f))
  {
    SFContainsSF();
    DropSFOnTexts(f);
    assert Contains(f.rows[0][|f.columns| - 1].text, "SF");
  }

  /** `generalised_schmidt_test(df)`, lines 56-83: the frame the numerics run
      on (after the column drop) and the confidence interval keyed on its
      number of rows. The sigma itself is not modelled. */
  function GeneralisedSchmidtTest(f: Frame, table: seq<TableRow>, root: real): (r: Result<(Frame, (real, real))>)
    requires RowsFit(f.rows, |f.columns|) && root >= 0.0 && root * root == |f.rows| as real
    ensures r.Ok? <==> DropSF(f).Ok? && Limits(table, |f.rows|, root).Ok?
    ensures r.Ok? ==> r.value == (DropSF(f).value, Limits(table, |f.rows|, root).value)
    ensures r.Err? && DropSF(f).Ok? ==> r.error == Limits(table, |f.rows|, root).error
  {
    match DropSF(f)
    case Err(e) => Err(e)
    case Ok(kept) =>
      match Limits(table, |kept.rows|, root)
      case Err(e) => Err(e)
      case Ok(bounds) => Ok((kept, bounds))
  }

  // ---------------------------------------------------------------------------
  // g_nan_mean (lines 34-54)

  /** The argument of `g_nan_mean`: a 1-D sequence, or a 2-D array whose NaN
      entries are None. */
  datatype MeanInput = Flat(values: seq<Option<real>>) | Grid(cells: array2<Option<real>>)

  /** `ret[i] = product ** (1/steps)`; the power is not modelled, the pair is. */
  datatype Fold = Fold(product: real, steps: nat)

  /** The 1-D input handed back, or one fold per row. */
  datatype MeanOutput = Unchanged(values: seq<Option<real>>) | Roots(folds: seq<Fold>)

  /** The number of entries before the first NaN. */
  function Leading(row: seq<Option<real>>): (k: nat)
    ensures k <= |row|
    ensures forall j :: 0 <= j < k ==> row[j].Some?
    ensures k < |row| ==> row[k].None?
  {
    if row == [] || row[0].None? then 0 else 1 + Leading(row[1..])
  }

  /** Left-to-right product of the entries (all numbers). */
  function Product(xs: seq<Option<real>>): real
    requires forall j :: 0 <= j < |xs| ==> xs[j].Some?
  {
    if xs == [] then 1.0 else Product(xs[..|xs| - 1]) * xs[|xs| - 1].value
  }

  /** The fold of one row: the product of the entries before the first NaN,
      and how many there are. */
  function RowFold(row: seq<Option<real>>): Fold
  {
    Fold(Product(row[..Leading(row)]), Leading(row))
  }

  /** Lines 41-54 on the rows, first to last: `1./steps` raises at the first
      row whose fold is empty. */
  function NanMean(rows: seq<seq<Option<real>>>): Result<seq<Fold>>
  {
    if rows == [] then Ok([])
    else
      match NanMean(rows[..|rows| - 1])
      case Err(e) => Err(e)
      case Ok(folds) =>
        var f := RowFold(rows[|rows| - 1]);
        if f.steps == 0 then Err(ZeroDivisionError) else Ok(folds + [f])
  }

  /** Row `i` of a 2-D array. */
  function GridRow(cells: array2<Option<real>>, i: nat): (row: seq<Option<real>>)
    requires i < cells.Length0
    reads cells
    ensures |row| == cells.Length1 && forall j :: 0 <= j < cells.Length1 ==> row[j] == cells[i, j]
  {
    seq(cells.Length1, j requires 0 <= j < cells.Length1 reads cells => cells[i, j])
  }

  /** The rows of a 2-D array. */
  function GridRows(cells: array2<Option<real>>): (rows: seq<seq<Option<real>>>)
    reads cells
    ensures |rows| == cells.Length0 && forall i :: 0 <= i < cells.Length0 ==> rows[i] == GridRow(cells, i)
  {
    seq(cells.Length0, i requires 0 <= i < cells.Length0 reads cells => GridRow(cells, i))
  }

  /** Lines 43-52, the inner loop over row `i`: multiply until the first NaN. */
  method FoldRow(cells: array2<Option<real>>, i: nat) returns (temp: real, steps: nat)
    requires i < cells.Length0
    ensures Fold(temp, steps) == RowFold(GridRow(cells, i))
  {
    ghost var row := GridRow(cells, i);
    temp := 1.0;
    steps := 0;
    while steps < cells.Length1 && cells[i, steps].Some?
      invariant 0 <= steps <= cells.Length1
      invariant forall k :: 0 <= k < steps ==> row[k].Some?
      invariant temp == Product(row[..steps])
    {
      assert row[..steps + 1][..steps] == row[..steps];
      temp := temp * cells[i, steps].value;
      steps := steps + 1;
    }
    assert steps == Leading(row);
  }

  /** `g_nan_mean(data)`. */
  method GNanMean(data: MeanInput) returns (r: Result<MeanOutput>)
    ensures data.Flat? ==> r == Ok(Unchanged(data.values))
    ensures data.Grid? ==> match NanMean(GridRows(data.cells))
      case Ok(folds) => r == Ok(Roots(folds))
      case Err(e) => r == Err(e)
  {
    if data.Flat? {
      return Ok(Unchanged(data.values));
    }
    var cells := data.cells;
    ghost var rows := GridRows(cells);
    var ret := new Fold[cells.Length0];
    var i := 0;
    while i < cells.Length0
      invariant 0 <= i <= cells.Length0
      invariant NanMean(rows[..i]) == Ok(ret[..i])
    {
      var temp, steps := FoldRow(cells, i);
      assert rows[..i + 1][..i] == rows[..i];
      if steps == 0 {
        NanMeanStops(rows, i + 1);
        return Err(ZeroDivisionError);
      }
      ret[i] := Fold(temp, steps);
      assert ret[..i + 1] == ret[..i] + [RowFold(rows[i])];
      i := i + 1;
    }
    assert rows[..i] == rows && ret[..i] == ret[..];
    return Ok(Roots(ret[..]));
  }

  /** The fold succeeds exactly when every row starts with a number, and then
      it holds one fold per row: the product of the row's entries before its
      first NaN and their number. */
  lemma {:induction false} NanMeanRows(rows: seq<seq<Option<real>>>)
    ensures NanMean(rows).Ok? <==> forall i :: 0 <= i < |rows| ==> rows[i] != [] && rows[i][0].Some?
    ensures NanMean(rows).Err? ==> NanMean(rows).error == ZeroDivisionError
    ensures NanMean(rows).Ok? ==>
      |NanMean(rows).value| == |rows| &&
      forall i :: 0 <= i < |rows| ==> NanMean(rows).value[i] == RowFold(rows[i])
  {
    if rows != [] {
      var front := rows[..|rows| - 1];
      NanMeanRows(front);
      assert forall i :: 0 <= i < |front| ==> front[i] == rows[i];
    }
  }

  /** Once a prefix of the rows fails, the whole fold fails with that error. */
  lemma {:induction false} NanMeanStops(rows: seq<seq<Option<real>>>, k: nat)
    requires k <= |rows| && NanMean(rows[..k]).Err?
    ensures NanMean(rows) == NanMean(rows[..k])
    decreases |rows| - k
  {
    if k < |rows| {
      assert rows[..k + 1][..k] == rows[..k];
      NanMeanStops(rows, k + 1);
    } else {
      assert rows[..k] == rows;
    }
  }
}

/** The result rows of `ChainSimulation.run_simulation` grouped by path id
    (the dictionary `chain_simulations`), and the DataFrame built per group. */
module Groups {
  import opened Basics

  /** One cell of a result row: an event time, a text marker (`'SF'`), or the
      missing value pandas pads short rows with. */
  datatype Cell = Time(t: real) | Marker(text: string) | Missing

  type Row = seq<Cell>

  predicate DistinctIds(g: seq<(string, seq<Row>)>)
  {
    forall i, j :: 0 <= i < j < |g| ==> g[i].0 != g[j].0
  }

  /** A dict from path id to its list of rows, keys in insertion order. */
  type Grouping = g: seq<(string, seq<Row>)> | DistinctIds(g) witness []

  function Ids(g: seq<(string, seq<Row>)>): (ids: seq<string>)
    ensures |ids| == |g| && forall i :: 0 <= i < |g| ==> ids[i] == g[i].0
  {
    seq(|g|, i requires 0 <= i < |g| => g[i].0)
  }

  /** The rows stored under `id` (none when the key is absent). */
  function RowsUnder(g: seq<(string, seq<Row>)>, id: string): seq<Row>
  {
    if g == [] then [] else if g[0].0 == id then g[0].1 else RowsUnder(g[1..], id)
  }

  /** The number of rows over all groups. */
  function TotalRows(g: seq<(string, seq<Row>)>): nat
  {
    if g == [] then 0 else |g[0].1| + TotalRows(g[1..])
  }

  /** Lines 121-124: append the row to the group of `id`, or open a new group
      at the end of the dict. */
  function Insert(g: Grouping, id: string, row: Row): (g': Grouping)
    ensures id in Ids(g) ==> Ids(g') == Ids(g)
    ensures id !in Ids(g) ==> Ids(g') == Ids(g) + [id]
  {
    if g == [] then [(id, [row])]
    else
      var rest: Grouping := g[1..];
      ConsIds(g[0], rest);
      assert g == [g[0]] + rest;
      if g[0].0 == id then
        ConsIds((id, g[0].1 + [row]), rest);
        ConsDistinct((id, g[0].1 + [row]), rest);
        [(id, g[0].1 + [row])] + rest
      else
        var inserted := Insert(rest, id, row);
        ConsIds(g[0], inserted);
        ConsDistinct(g[0], inserted);
        [g[0]] + inserted
  }

  lemma ConsIds(p: (string, seq<Row>), g: seq<(string, seq<Row>)>)
    ensures Ids([p] + g) == [p.0] + Ids(g)
  {
  }

  lemma ConsDistinct(p: (string, seq<Row>), g: Grouping)
    requires p.0 !in Ids(g)
    ensures DistinctIds([p] + g)
  {
    var h := [p] + g;
    forall i, j | 0 <= i < j < |h| ensures h[i].0 != h[j].0 {
      if i == 0 {
        assert h[j].0 == Ids(g)[j - 1];
      } else {
        assert h[i] == g[i - 1] && h[j] == g[j - 1];
      }
    }
  }

  /** Inserting adds the row at the end of its own group and nowhere else. */
  lemma {:induction false} InsertRows(g: Grouping, id: string, row: Row, k: string)
    ensures RowsUnder(Insert(g, id, row), k) == RowsUnder(g, k) + (if k == id then [row] else [])
  {
    if g == [] {
    } else if g[0].0 == id {
      var rest: Grouping := g[1..];
      if k == id {
        assert id !in Ids(rest);
        RowsUnderAbsent(rest, id);
      }
      assert Insert(g, id, row)[1..] == rest;
    } else {
      var rest: Grouping := g[1..];
      InsertRows(rest, id, row, k);
      assert Insert(g, id, row)[1..] == Insert(rest, id, row);
    }
  }

  /** Inserting adds exactly one row in total. */
  lemma {:induction false} InsertTotal(g: Grouping, id: string, row: Row)
    ensures TotalRows(Insert(g, id, row)) == TotalRows(g) + 1
  {
    if g != [] {
      var rest: Grouping := g[1..];
      if g[0].0 == id {
        assert Insert(g, id, row)[1..] == rest;
      } else {
        InsertTotal(rest, id, row);
        assert Insert(g, id, row)[1..] == Insert(rest, id, row);
      }
    }
  }

  lemma {:induction false} RowsUnderAbsent(g: seq<(string, seq<Row>)>, id: string)
    requires id !in Ids(g)
    ensures RowsUnder(g, id) == []
  {
    if g != [] {
      assert Ids(g[1..]) == Ids(g)[1..];
      RowsUnderAbsent(g[1..], id);
    }
  }

  /** The dict after the trials `entries` (path id, row), in trial order. */
  function GroupAll(entries: seq<(string, Row)>): Grouping
  {
    if entries == [] then []
    else
      var last := entries[|entries| - 1];
      Insert(GroupAll(entries[..|entries| - 1]), last.0, last.1)
  }

  /** The rows of the trials whose id is `id`, in trial order. */
  function RowsWithId(entries: seq<(string, Row)>, id: string): seq<Row>
  {
    if entries == [] then []
    else
      var last := entries[|entries| - 1];
      RowsWithId(entries[..|entries| - 1], id) + (if last.0 == id then [last.1] else [])
  }

  /** Each group holds exactly the rows of the trials with its id, in trial order. */
  lemma {:induction false} GroupAllRows(entries: seq<(string, Row)>, id: string)
    ensures RowsUnder(GroupAll(entries), id) == RowsWithId(entries, id)
  {
    if entries != [] {
      var last := entries[|entries| - 1];
      GroupAllRows(entries[..|entries| - 1], id);
      InsertRows(GroupAll(entries[..|entries| - 1]), last.0, last.1, id);
    }
  }

  /** The group sizes add up to the number of trials. */
  lemma {:induction false} GroupAllTotal(entries: seq<(string, Row)>)
    ensures TotalRows(GroupAll(entries)) == |entries|
  {
    if entries != [] {
      var last := entries[|entries| - 1];
      GroupAllTotal(entries[..|entries| - 1]);
      InsertTotal(GroupAll(entries[..|entries| - 1]), last.0, last.1);
    }
  }

  predicate Occurs(entries: seq<(string, Row)>, k: string)
  {
    exists i :: 0 <= i < |entries| && entries[i].0 == k
  }

  lemma InsertIds(g: Grouping, id: string, row: Row, k: string)
    ensures k in Ids(Insert(g, id, row)) <==> k in Ids(g) || k == id
  {
  }

  lemma OccursSplit(entries: seq<(string, Row)>, k: string)
    requires entries != []
    ensures Occurs(entries, k) <==>
      Occurs(entries[..|entries| - 1], k) || entries[|entries| - 1].0 == k
  {
    var front := entries[..|entries| - 1];
    if Occurs(entries, k) {
      var i :| 0 <= i < |entries| && entries[i].0 == k;
      if i < |front| {
        assert front[i].0 == k;
      }
    }
    if Occurs(front, k) {
      var i :| 0 <= i < |front| && front[i].0 == k;
      assert entries[i].0 == k;
    }
  }

  /** The keys are exactly the ids that occurred (each once: the dict's keys
      are distinct by construction). */
  lemma {:induction false} GroupAllIds(entries: seq<(string, Row)>, k: string)
    ensures k in Ids(GroupAll(entries)) <==> Occurs(entries, k)
  {
    if entries != [] {
      var front := entries[..|entries| - 1];
      var last := entries[|entries| - 1];
      GroupAllIds(front, k);
      InsertIds(GroupAll(front), last.0, last.1, k);
      OccursSplit(entries, k);
    }
  }

  /** The dict after one more trial is the dict before with its row inserted. */
  lemma GroupAllSnoc(entries: seq<(string, Row)>, e: (string, Row))
    ensures GroupAll(entries + [e]) == Insert(GroupAll(entries), e.0, e.1)
  {
    assert (entries + [e])[..|entries|] == entries;
  }

  /** Every row has `width` cells. */
  predicate RowsFit(rows: seq<Row>, width: nat)
  {
    forall k :: 0 <= k < |rows| ==> |rows[k]| == width
  }

  /** Every row of every group has the length `width` gives for the group's id. */
  predicate Fits(g: seq<(string, seq<Row>)>, width: string -> nat)
  {
    g == [] || (RowsFit(g[0].1, width(g[0].0)) && Fits(g[1..], width))
  }

  lemma {:induction false} InsertFits(g: Grouping, id: string, row: Row, width: string -> nat)
    requires Fits(g, width) && |row| == width(id)
    ensures Fits(Insert(g, id, row), width)
  {
    if g != [] {
      var rest: Grouping := g[1..];
      var g' := Insert(g, id, row);
      if g[0].0 == id {
        assert g'[1..] == rest;
        assert g'[0].1 == g[0].1 + [row];
      } else {
        InsertFits(rest, id, row, width);
        assert g'[1..] == Insert(rest, id, row);
      }
    }
  }

  /** When every trial's row has the length its id calls for, so does every
      row of every group. */
  lemma {:induction false} GroupAllFits(entries: seq<(string, Row)>, width: string -> nat)
    requires forall j :: 0 <= j < |entries| ==> |entries[j].1| == width(entries[j].0)
    ensures Fits(GroupAll(entries), width)
  {
    if entries != [] {
      var front := entries[..|entries| - 1];
      var last := entries[|entries| - 1];
      GroupAllFits(front, width);
      InsertFits(GroupAll(front), last.0, last.1, width);
    }
  }

  /** A DataFrame: column names and rows of equal length. */
  datatype Frame = Frame(columns: seq<string>, rows: seq<Row>)

  function MaxLen(rows: seq<Row>): (m: nat)
    ensures forall i :: 0 <= i < |rows| ==> |rows[i]| <= m
    ensures rows != [] ==> exists i :: 0 <= i < |rows| && |rows[i]| == m
  {
    if rows == [] then 0
    else
      var m := MaxLen(rows[..|rows| - 1]);
      if |rows[|rows| - 1]| > m then |rows[|rows| - 1]| else m
  }

  function Pad(row: Row, width: nat): (r: Row)
    requires |row| <= width
    ensures |r| == width && r[..|row|] == row
    ensures forall k :: |row| <= k < width ==> r[k] == Missing
  {
    row + seq(width - |row|, _ => Missing)
  }

  /** `pd.DataFrame(rows, columns=names)`: short rows are padded to the longest,
      and a longest row whose length differs from the number of names raises
      ValueError. */
  function MakeFrame(rows: seq<Row>, columns: seq<string>): (r: Result<Frame>)
    ensures r.Err? <==> rows != [] && MaxLen(rows) != |columns|
    ensures r.Err? ==> r.error == ValueError
    ensures r.Ok? ==> r.value.columns == columns && |r.value.rows| == |rows|
    ensures r.Ok? ==> forall i :: 0 <= i < |rows| ==>
      |r.value.rows[i]| == |columns| && r.value.rows[i][..|rows[i]|] == rows[i]
  {
    if rows != [] && MaxLen(rows) != |columns| then Err(ValueError)
    else Ok(Frame(columns, seq(|rows|, i requires 0 <= i < |rows| => Pad(rows[i], MaxLen(rows)))))
  }

  /** Rows that all have the column count go into the frame unchanged. */
  lemma FrameOfFittingRows(rows: seq<Row>, columns: seq<string>)
    requires forall i :: 0 <= i < |rows| ==> |rows[i]| == |columns|
    ensures MakeFrame(rows, columns) == Ok(Frame(columns, rows))
  {
    var f := MakeFrame(rows, columns).value;
    forall i | 0 <= i < |rows| ensures f.rows[i] == rows[i] {
      assert f.rows[i][..|rows[i]|] == rows[i];
    }
    assert f.rows == rows;
  }
}

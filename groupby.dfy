/**
 * The pandas operations of the grouped branch of `GraphPlot.__init__`: the
 * (x, y, group) rows built with `zip`, the sorted group keys of `groupby`, and
 * the rows of one group as `get_group` returns them.
 */
module GroupBy {
  import opened ListOps

  /** A plotted value (a number of an x or y column). */
  type Value = real

  /** One row of the temporary frame: columns "x", "y" and "group". */
  datatype Row = Row(x: Value, y: Value, group: int)

  function Min(a: nat, b: nat): nat {
    if a <= b then a else b
  }

  /** `zip(x, y, group)`: row `i` pairs the `i`-th entries; it stops at the shortest column. */
  function Zip3(xs: seq<Value>, ys: seq<Value>, gs: seq<int>): (rows: seq<Row>)
    ensures |rows| == Min(|xs|, Min(|ys|, |gs|))
    ensures forall i :: 0 <= i < |rows| ==> rows[i] == Row(xs[i], ys[i], gs[i])
  {
    if xs == [] || ys == [] || gs == [] then []
    else [Row(xs[0], ys[0], gs[0])] + Zip3(xs[1..], ys[1..], gs[1..])
  }

  /** The "group" column of the rows. */
  function GroupColumn(rows: seq<Row>): (gs: seq<int>)
    ensures |gs| == |rows|
    ensures forall i :: 0 <= i < |rows| ==> gs[i] == rows[i].group
  {
    if rows == [] then [] else [rows[0].group] + GroupColumn(rows[1..])
  }

  /** The "x" column of the rows, `tg["x"].tolist()`. */
  function ColumnX(rows: seq<Row>): (xs: seq<Value>)
    ensures |xs| == |rows|
    ensures forall i :: 0 <= i < |rows| ==> xs[i] == rows[i].x
  {
    if rows == [] then [] else [rows[0].x] + ColumnX(rows[1..])
  }

  /** The "y" column of the rows, `tg["y"].tolist()`. */
  function ColumnY(rows: seq<Row>): (ys: seq<Value>)
    ensures |ys| == |rows|
    ensures forall i :: 0 <= i < |rows| ==> ys[i] == rows[i].y
  {
    if rows == [] then [] else [rows[0].y] + ColumnY(rows[1..])
  }

  /** Strictly ascending: sorted and without repetitions. */
  ghost predicate Increasing(s: seq<int>) {
    forall i, j :: 0 <= i < j < |s| ==> s[i] < s[j]
  }

  /** Inserting a label into an ascending list of labels, keeping it ascending. */
  function Insert(ks: seq<int>, g: int): (r: seq<int>)
    requires Increasing(ks)
    ensures Increasing(r)
    ensures forall v :: v in r <==> v in ks || v == g
  {
    if ks == [] then [g]
    else if g < ks[0] then [g] + ks
    else if g == ks[0] then ks
    else
      var t := Insert(ks[1..], g);
      assert forall j :: 0 <= j < |t| ==> ks[0] < t[j] by {
        forall j | 0 <= j < |t|
          ensures ks[0] < t[j]
        {
          assert t[j] in t;
        }
      }
      [ks[0]] + t
  }

  /**
   * The keys of `groupby` with its default `sort=True`: the distinct labels,
   * in ascending order.
   */
  function Keys(gs: seq<int>): (ks: seq<int>)
    ensures Increasing(ks)
    ensures forall v :: v in ks <==> v in gs
  {
    if gs == [] then [] else Insert(Keys(gs[1..]), gs[0])
  }

  /** An ascending list is determined by its elements: `Keys` is the only ascending list of the labels. */
  lemma {:induction false} AscendingUnique(a: seq<int>, b: seq<int>)
    requires Increasing(a) && Increasing(b)
    requires forall v :: v in a <==> v in b
    ensures a == b
  {
    assert a != [] ==> a[0] in a && a[0] in b;
    assert b != [] ==> b[0] in b && b[0] in a;
    if a != [] && b != [] {
      assert a[0] == b[0] by {
        var i :| 0 <= i < |a| && a[i] == b[0];
        var j :| 0 <= j < |b| && b[j] == a[0];
        assert a[0] <= a[i] && b[0] <= b[j];
      }
      forall v
        ensures v in a[1..] <==> v in b[1..]
      {
        TailMembers(a, v);
        TailMembers(b, v);
      }
      AscendingUnique(a[1..], b[1..]);
      assert a == [a[0]] + a[1..] && b == [b[0]] + b[1..];
    }
  }

  /** The tail of an ascending list holds exactly its elements above the head. */
  lemma TailMembers(s: seq<int>, v: int)
    requires Increasing(s) && s != []
    ensures v in s[1..] <==> v in s && s[0] < v
  {
    if v in s && s[0] < v {
      var i :| 0 <= i < |s| && s[i] == v;
      assert s[1..][i - 1] == v;
    }
  }

  lemma IncreasingIsDistinct(s: seq<int>)
    requires Increasing(s)
    ensures Distinct(s)
  {
  }

  /** The rows of one label, in frame order: `get_group(g)`. */
  function RowsOf(rows: seq<Row>, g: int): (r: seq<Row>)
    ensures |r| <= |rows|
    ensures forall j :: 0 <= j < |r| ==> r[j].group == g
  {
    if rows == [] then []
    else RowsOf(rows[..|rows| - 1], g) + (if rows[|rows| - 1].group == g then [rows[|rows| - 1]] else [])
  }

  /** The positions of the rows carrying label `g`, in ascending order. */
  function Positions(rows: seq<Row>, g: int): (ps: seq<nat>)
  {
    if rows == [] then []
    else Positions(rows[..|rows| - 1], g) + (if rows[|rows| - 1].group == g then [|rows| - 1] else [])
  }

  /** The positions of label `g` ascend, and are exactly the rows labelled `g`. */
  lemma {:induction false} PositionsShape(rows: seq<Row>, g: int)
    ensures |Positions(rows, g)| == |RowsOf(rows, g)|
    ensures forall j :: 0 <= j < |Positions(rows, g)| ==> Positions(rows, g)[j] < |rows|
    ensures forall j, l :: 0 <= j < l < |Positions(rows, g)| ==> Positions(rows, g)[j] < Positions(rows, g)[l]
    ensures forall i :: i in Positions(rows, g) <==> 0 <= i < |rows| && rows[i].group == g
  {
    if rows != [] {
      var init := rows[..|rows| - 1];
      PositionsShape(init, g);
      assert forall i :: 0 <= i < |init| ==> init[i] == rows[i];
    }
  }

  /** The `j`-th row of label `g` is the row at the `j`-th position of label `g`. */
  lemma {:induction false} RowsOfAt(rows: seq<Row>, g: int)
    ensures |Positions(rows, g)| == |RowsOf(rows, g)|
    ensures forall j :: 0 <= j < |Positions(rows, g)| ==>
      Positions(rows, g)[j] < |rows| && RowsOf(rows, g)[j] == rows[Positions(rows, g)[j]]
  {
    PositionsShape(rows, g);
    if rows != [] {
      var init := rows[..|rows| - 1];
      RowsOfAt(init, g);
      PositionsShape(init, g);
      var pi, ri := Positions(init, g), RowsOf(init, g);
      forall j | 0 <= j < |pi|
        ensures RowsOf(rows, g)[j] == rows[Positions(rows, g)[j]]
      {
        assert RowsOf(rows, g)[j] == ri[j] == init[pi[j]];
        assert Positions(rows, g)[j] == pi[j];
      }
    }
  }

  /**
   * `get_group(g)` keeps exactly the rows labelled `g`, in their original order:
   * its `j`-th row is the row at the `j`-th position, in ascending order, of a row labelled `g`.
   */
  lemma {:induction false} RowsOfInOrder(rows: seq<Row>, g: int)
    ensures |Positions(rows, g)| == |RowsOf(rows, g)|
    ensures forall j, l :: 0 <= j < l < |Positions(rows, g)| ==> Positions(rows, g)[j] < Positions(rows, g)[l]
    ensures forall i :: i in Positions(rows, g) <==> 0 <= i < |rows| && rows[i].group == g
    ensures forall j :: 0 <= j < |Positions(rows, g)| ==>
      Positions(rows, g)[j] < |rows| && RowsOf(rows, g)[j] == rows[Positions(rows, g)[j]]
  {
    PositionsShape(rows, g);
    RowsOfAt(rows, g);
  }

  /**
   * On zipped columns, the x and y values of label `g` are those at the positions
   * labelled `g` in the group column, in ascending order.
   */
  lemma ZippedGroup(xs: seq<Value>, ys: seq<Value>, gs: seq<int>, g: int)
    ensures var rows := Zip3(xs, ys, gs);
      var tg, ps := RowsOf(rows, g), Positions(rows, g);
      && |ColumnX(tg)| == |ps| && |ColumnY(tg)| == |ps|
      && (forall j, l :: 0 <= j < l < |ps| ==> ps[j] < ps[l])
      && (forall i :: i in ps <==> 0 <= i < Min(|xs|, Min(|ys|, |gs|)) && gs[i] == g)
      && (forall j :: 0 <= j < |ps| ==>
            ps[j] < Min(|xs|, Min(|ys|, |gs|)) && ColumnX(tg)[j] == xs[ps[j]] && ColumnY(tg)[j] == ys[ps[j]])
  {
    var rows := Zip3(xs, ys, gs);
    var tg, ps := RowsOf(rows, g), Positions(rows, g);
    RowsOfInOrder(rows, g);
    forall j | 0 <= j < |ps|
      ensures ps[j] < Min(|xs|, Min(|ys|, |gs|)) && ColumnX(tg)[j] == xs[ps[j]] && ColumnY(tg)[j] == ys[ps[j]]
    {
      assert tg[j] == rows[ps[j]] == Row(xs[ps[j]], ys[ps[j]], gs[ps[j]]);
    }
    forall i
      ensures i in ps <==> 0 <= i < Min(|xs|, Min(|ys|, |gs|)) && gs[i] == g
    {
      if 0 <= i < |rows| {
        assert rows[i].group == gs[i];
      }
    }
  }

  /** The number of rows the groups `ks` hold, summed key by key. */
  function TotalRows(rows: seq<Row>, ks: seq<int>): nat {
    if ks == [] then 0 else |RowsOf(rows, ks[0])| + TotalRows(rows, ks[1..])
  }

  /** The number of times `g` occurs in `ks`. */
  function Occurrences(ks: seq<int>, g: int): nat {
    if ks == [] then 0 else (if ks[0] == g then 1 else 0) + Occurrences(ks[1..], g)
  }

  lemma {:induction false} TotalRowsEmpty(ks: seq<int>)
    ensures TotalRows([], ks) == 0
  {
    if ks != [] {
      TotalRowsEmpty(ks[1..]);
    }
  }

  /** One more row adds one to the total of every group its label belongs to. */
  lemma {:induction false} TotalRowsSnoc(rows: seq<Row>, r: Row, ks: seq<int>)
    ensures TotalRows(rows + [r], ks) == TotalRows(rows, ks) + Occurrences(ks, r.group)
  {
    if ks != [] {
      assert (rows + [r])[..|rows + [r]| - 1] == rows;
      TotalRowsSnoc(rows, r, ks[1..]);
    }
  }

  lemma {:induction false} OccursOnce(ks: seq<int>, g: int)
    requires Increasing(ks) && g in ks
    ensures Occurrences(ks, g) == 1
  {
    if ks[0] == g {
      OccursNever(ks[1..], g);
    } else {
      OccursOnce(ks[1..], g);
    }
  }

  lemma {:induction false} OccursNever(ks: seq<int>, g: int)
    requires g !in ks
    ensures Occurrences(ks, g) == 0
  {
    if ks != [] {
      OccursNever(ks[1..], g);
    }
  }

  /**
   * Grouping is lossless: over any ascending key list that covers every label,
   * the groups hold as many rows as the frame.
   */
  lemma {:induction false} GroupsCoverRows(rows: seq<Row>, ks: seq<int>)
    requires Increasing(ks)
    requires forall i :: 0 <= i < |rows| ==> rows[i].group in ks
    ensures TotalRows(rows, ks) == |rows|
  {
    if rows == [] {
      TotalRowsEmpty(ks);
    } else {
      var init, last := rows[..|rows| - 1], rows[|rows| - 1];
      assert rows == init + [last];
      GroupsCoverRows(init, ks);
      TotalRowsSnoc(init, last, ks);
      OccursOnce(ks, last.group);
    }
  }

  /** The groups `groupby` forms hold every row exactly once. */
  lemma PartitionLossless(rows: seq<Row>)
    ensures TotalRows(rows, Keys(GroupColumn(rows))) == |rows|
  {
    var ks := Keys(GroupColumn(rows));
    forall i | 0 <= i < |rows|
      ensures rows[i].group in ks
    {
      assert GroupColumn(rows)[i] == rows[i].group;
    }
    GroupsCoverRows(rows, ks);
  }
}

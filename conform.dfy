/**
 * The data-conformance step of `GraphPlot.__init__` as values: what the
 * constructor computes from its x, y and optional group columns, or the error it raises.
 */
module Conformance {
  import opened Results
  import opened ListOps
  import opened Palettes
  import opened GroupBy

  /** The palette name used when none is given. */
  const DefaultPalette: string := "Accent"

  /** The exceptions the modelled code raises. */
  datatype Error =
    | UnknownPalette(name: string)  // KeyError: the palette name is not a known colour map
    | ZeroDivision                  // ZeroDivisionError: an empty column or an empty palette used as divisor
    | NotDivisible                  // the AttributeError raised when neither column size divides the other
    | NoDataAttribute               // AttributeError: the grouped `source` is an OrderedDict, without `.data`
    | PaletteIndex(renderer: nat)   // IndexError: no palette colour for this renderer
    | EmptyColour(renderer: nat)    // IndexError: this renderer's colour column is empty, so it has no first colour

  /** The columns of one `ColumnDataSource`; `group` is absent in ungrouped sources. */
  datatype SourceData = SourceData(x: seq<Value>, y: seq<Value>, color: seq<Color>, group: Option<seq<int>>)

  /** What the ungrouped branches compute: the conformed columns, the palettes and the colour list. */
  datatype Ungrouped = Ungrouped(
    x: seq<Value>, y: seq<Value>,
    palettes: map<string, seq<Color>>, palette: seq<Color>, colors: seq<Color>)

  /** What the grouped branch computes before it builds one source per group key. */
  datatype GroupedPlan = GroupedPlan(
    rows: seq<Row>, keys: seq<int>, numColors: nat,
    palettes: map<string, seq<Color>>, palette: seq<Color>, numMod: nat, colors: seq<Color>)

  datatype Plan = Single(ungrouped: Ungrouped) | Grouped(grouped: GroupedPlan)

  function Max(a: nat, b: nat): nat {
    if a >= b then a else b
  }

  /** Lines 83-85 and 97-99: a palette of one colour, repeated once per y value. */
  function SingleColour(x: seq<Value>, y: seq<Value>, p: Provider, name: string): (r: Result<Ungrouped, Error>)
    ensures r.Err? <==> name !in PaletteMap(p, 1)
    ensures r.Err? ==> r.error == UnknownPalette(name)
    ensures r.Ok? ==> r.value.x == x && r.value.y == y && r.value.palettes == PaletteMap(p, 1)
    ensures r.Ok? ==> r.value.palette == PaletteMap(p, 1)[name]
    ensures r.Ok? ==> |r.value.palette| == 1 && |r.value.colors| == |y|
    ensures r.Ok? ==> forall i :: 0 <= i < |y| ==> r.value.colors[i] == r.value.palette[0]
  {
    var palettes := PaletteMap(p, 1);
    if name !in palettes then Err(UnknownPalette(name))
    else
      var palette := palettes[name];
      assert palette == [palette[0]];
      TimesSingle(palette[0], |y|);
      Ok(Ungrouped(x, y, palettes, palette, Times(palette, |y|)))
  }

  /**
   * A column repeated element-wise until it reaches `n` values, `n` being a
   * multiple of its size (lines 76 and 81).
   */
  function Stretch(s: seq<Value>, n: nat): (r: seq<Value>)
    requires |s| > 0 && n % |s| == 0
    ensures |r| == n
  {
    var k := n / |s|;
    ExactQuotient(n, |s|);
    RepeatLength(s, k);
    Repeat(s, k)
  }

  /**
   * The sizing step of the ungrouped branch (lines 68-81). Equal sizes pass
   * through; otherwise the smaller column is repeated element-wise by the
   * quotient of the sizes, provided one size divides the other. A zero size is
   * a divisor, so an empty column beside a non-empty one fails.
   */
  function Resize(x: seq<Value>, y: seq<Value>): (r: Result<(seq<Value>, seq<Value>), Error>)
    ensures r == Err(ZeroDivision) <==> |x| != |y| && (|x| == 0 || |y| == 0)
    ensures r == Err(NotDivisible) <==>
      |x| != |y| && |x| > 0 && |y| > 0 && |x| % |y| != 0 && |y| % |x| != 0
    ensures r.Err? ==> r.error == ZeroDivision || r.error == NotDivisible
    ensures r.Ok? ==> |r.value.0| == Max(|x|, |y|) && |r.value.1| == Max(|x|, |y|)
    ensures r.Ok? && |x| == |y| ==> r.value == (x, y)
  {
    if |y| != |x| then
      if |x| == 0 then Err(ZeroDivision)
      else if (ZeroRemainder(|x|); |y| % |x| == 0 || |x| % |y| == 0) then
        if |x| > |y| then
          if |y| == 0 then Err(ZeroDivision)
          else Ok((x, Stretch(y, |x|)))
        else Ok((Stretch(x, |y|), y))
      else Err(NotDivisible)
    else Ok((x, y))
  }

  /**
   * With x larger than y (and its size a multiple of y's), x is kept and every
   * element of y appears `len(x) / len(y)` times in a row.
   */
  lemma ResizeRepeatsY(x: seq<Value>, y: seq<Value>)
    requires Resize(x, y).Ok?
    requires |x| > |y|
    ensures var (rx, ry) := Resize(x, y).value;
      && rx == x && |y| > 0 && |x| % |y| == 0 && |ry| == |x| && ry == Repeat(y, |x| / |y|)
  {
    ModSmaller(|y|, |x|);
    assert Resize(x, y) == Ok((x, Stretch(y, |x|)));
  }

  /**
   * With y larger than x (and its size a multiple of x's), y is kept and every
   * element of x appears `len(y) / len(x)` times in a row.
   */
  lemma ResizeRepeatsX(x: seq<Value>, y: seq<Value>)
    requires Resize(x, y).Ok?
    requires |y| > |x|
    ensures var (rx, ry) := Resize(x, y).value;
      && ry == y && |x| > 0 && |y| % |x| == 0 && |rx| == |y| && rx == Repeat(x, |y| / |x|)
  {
    ModSmaller(|x|, |y|);
    assert Resize(x, y) == Ok((Stretch(x, |y|), y));
  }

  /**
   * The ungrouped branches (lines 68-101): the resized columns and a palette of
   * one colour, repeated once per y value; the sizing errors come first.
   */
  function ConformUngrouped(x: seq<Value>, y: seq<Value>, p: Provider, name: string): (r: Result<Ungrouped, Error>)
    ensures Resize(x, y).Err? ==> r == Err(Resize(x, y).error)
    ensures Resize(x, y).Ok? && name !in PaletteMap(p, 1) ==> r == Err(UnknownPalette(name))
    ensures Resize(x, y).Ok? && name in PaletteMap(p, 1) ==>
      && r.Ok? && (r.value.x, r.value.y) == Resize(x, y).value
      && r.value.palettes == PaletteMap(p, 1) && r.value.palette == PaletteMap(p, 1)[name]
    ensures r.Ok? ==> |r.value.palette| == 1 && |r.value.colors| == |r.value.y|
    ensures r.Ok? ==> forall i :: 0 <= i < |r.value.colors| ==> r.value.colors[i] == r.value.palette[0]
  {
    match Resize(x, y)
    case Err(e) => Err(e)
    case Ok((rx, ry)) => SingleColour(rx, ry, p, name)
  }

  /** Arithmetic: a multiple of `b` is `b` times its quotient by `b`. */
  lemma ExactQuotient(a: nat, b: nat)
    requires b > 0 && a % b == 0
    ensures b * (a / b) == a
  {
  }

  /** Arithmetic: zero is a multiple of every positive number. */
  lemma ZeroRemainder(n: nat)
    requires n > 0
    ensures 0 % n == 0
  {
  }

  /** Arithmetic: a smaller positive number is its own remainder. */
  lemma ModSmaller(a: nat, b: nat)
    requires 0 < a < b
    ensures a % b == a && a % b != 0
  {
  }

  /** The palette size of the grouped branch can hold every group key. */
  lemma KeysWithinLabels(x: seq<Value>, y: seq<Value>, gs: seq<int>)
    ensures |Keys(GroupColumn(Zip3(x, y, gs)))| <= |Elems(gs)|
  {
    var rows := Zip3(x, y, gs);
    var ks := Keys(GroupColumn(rows));
    IncreasingIsDistinct(ks);
    DistinctCard(ks);
    forall v | v in Elems(ks)
      ensures v in Elems(gs)
    {
      var i :| 0 <= i < |rows| && GroupColumn(rows)[i] == v;
    }
    SubsetCard(Elems(ks), Elems(gs));
  }

  /**
   * The grouped branch (lines 35-51): a palette as large as the number of
   * distinct labels, the zipped rows, and their sorted group keys.
   */
  function ConformGrouped(x: seq<Value>, y: seq<Value>, gs: seq<int>, p: Provider, name: string): (r: Result<GroupedPlan, Error>)
    ensures r == Err(UnknownPalette(name)) <==> name !in PaletteMap(p, |Elems(gs)|)
    ensures r == Err(ZeroDivision) <==> name in PaletteMap(p, |Elems(gs)|) && gs == []
    ensures r.Err? ==> r.error in {UnknownPalette(name), ZeroDivision}
    ensures r.Ok? ==> gs != [] && r.value.numColors == |Elems(gs)| && |r.value.palette| == |Elems(gs)|
    ensures r.Ok? ==> r.value.palettes == PaletteMap(p, |Elems(gs)|) && r.value.palette == r.value.palettes[name]
    ensures r.Ok? ==> |r.value.keys| <= |r.value.palette|
    ensures r.Ok? ==> |r.value.palette| > 0 && r.value.numMod == |gs| / |r.value.palette|
    ensures r.Ok? ==> |r.value.colors| == |r.value.palette| * r.value.numMod
    ensures r.Ok? ==> r.value.colors == Times(r.value.palette, r.value.numMod)
  {
    var n := |Elems(gs)|;
    var palettes := PaletteMap(p, n);
    if name !in palettes then Err(UnknownPalette(name))
    else
      var palette := palettes[name];
      EmptyLabels(gs);
      if |palette| == 0 then Err(ZeroDivision)
      else
        var rows := Zip3(x, y, gs);
        KeysWithinLabels(x, y, gs);
        var numMod := |gs| / |palette|;
        Ok(GroupedPlan(rows, Keys(GroupColumn(rows)), n, palettes, palette, numMod, Times(palette, numMod)))
  }

  lemma EmptyLabels(gs: seq<int>)
    ensures |Elems(gs)| == 0 <==> gs == []
  {
    if gs != [] {
      assert gs[0] in Elems(gs);
    } else {
      assert Elems(gs) == {};
    }
  }

  /** A plan that the grouped branch can produce. */
  ghost predicate GroupedOk(plan: GroupedPlan) {
    |plan.keys| <= |plan.palette| && Increasing(plan.keys)
  }

  /**
   * The columns of the source for group `g` (lines 57-63): its rows' x and y,
   * the label repeated, and the palette colour at the label's index among the keys.
   */
  function GroupEntry(plan: GroupedPlan, g: int): (d: SourceData)
    requires g in plan.keys && |plan.keys| <= |plan.palette|
    ensures var n := |RowsOf(plan.rows, g)|;
      && |d.x| == n && |d.y| == n && |d.color| == n
      && d.group.Some? && |d.group.value| == n
    ensures forall j :: 0 <= j < |d.color| ==> d.color[j] == plan.palette[IndexOf(plan.keys, g)]
    ensures d.group.Some? && forall j :: 0 <= j < |d.group.value| ==> d.group.value[j] == g
  {
    var tg := RowsOf(plan.rows, g);
    var colour := plan.palette[IndexOf(plan.keys, g)];
    TimesSingle(colour, |tg|);
    TimesSingle(g, |tg|);
    SourceData(ColumnX(tg), ColumnY(tg), Times([colour], |tg|), Some(Times([g], |tg|)))
  }

  /**
   * The sources of all keys, in key order: entry `i` holds the rows of key `i`,
   * its label throughout the group column and palette colour `i` throughout the
   * colour column.
   */
  function GroupEntries(plan: GroupedPlan): (r: seq<SourceData>)
    requires GroupedOk(plan)
    ensures |r| == |plan.keys|
    ensures forall i :: 0 <= i < |r| ==> r[i] == GroupEntry(plan, plan.keys[i])
    ensures forall i :: 0 <= i < |r| ==>
      && |r[i].x| == |RowsOf(plan.rows, plan.keys[i])| && |r[i].y| == |r[i].x| && |r[i].color| == |r[i].x|
      && (forall j :: 0 <= j < |r[i].color| ==> r[i].color[j] == plan.palette[i])
  {
    var r := seq(|plan.keys|, i requires 0 <= i < |plan.keys| => GroupEntry(plan, plan.keys[i]));
    assert forall i :: 0 <= i < |r| ==> IndexOf(plan.keys, plan.keys[i]) == i by {
      IncreasingIsDistinct(plan.keys);
      forall i | 0 <= i < |r|
        ensures IndexOf(plan.keys, plan.keys[i]) == i
      {
        IndexOfDistinct(plan.keys, i);
      }
    }
    r
  }

  /**
   * The source of key `i` has columns of one length, the number of rows labelled
   * with that key; its group column is the key throughout and its colour column
   * is palette colour `i` throughout.
   */
  lemma GroupEntryShape(plan: GroupedPlan, i: nat)
    requires GroupedOk(plan) && i < |plan.keys|
    ensures var d := GroupEntry(plan, plan.keys[i]);
      var n := |Positions(plan.rows, plan.keys[i])|;
      && |d.x| == n && |d.y| == n && |d.color| == n
      && d.group.Some? && |d.group.value| == n
      && (forall j :: 0 <= j < n ==> d.group.value[j] == plan.keys[i])
      && (forall j :: 0 <= j < n ==> d.color[j] == plan.palette[i])
  {
    var g := plan.keys[i];
    IncreasingIsDistinct(plan.keys);
    IndexOfDistinct(plan.keys, i);
    RowsOfInOrder(plan.rows, g);
    TimesSingle(plan.palette[i], |RowsOf(plan.rows, g)|);
    TimesSingle(g, |RowsOf(plan.rows, g)|);
  }

  /** Every plan the grouped branch produces is well formed. */
  lemma ConformGroupedOk(x: seq<Value>, y: seq<Value>, gs: seq<int>, p: Provider, name: string)
    requires ConformGrouped(x, y, gs, p, name).Ok?
    ensures GroupedOk(ConformGrouped(x, y, gs, p, name).value)
  {
  }

  /**
   * The group keys are the distinct labels of the zipped rows, ascending; when
   * the group column is no longer than x and y, there are as many keys as palette colours.
   */
  lemma GroupedKeysAreLabels(x: seq<Value>, y: seq<Value>, gs: seq<int>, p: Provider, name: string)
    requires ConformGrouped(x, y, gs, p, name).Ok?
    ensures var plan := ConformGrouped(x, y, gs, p, name).value;
      && Increasing(plan.keys)
      && (forall g :: g in plan.keys <==> exists i :: 0 <= i < Min(|x|, Min(|y|, |gs|)) && gs[i] == g)
      && (|gs| <= |x| && |gs| <= |y| ==> |plan.keys| == plan.numColors)
  {
    var plan := ConformGrouped(x, y, gs, p, name).value;
    var col := GroupColumn(plan.rows);
    forall g
      ensures g in plan.keys <==> exists i :: 0 <= i < Min(|x|, Min(|y|, |gs|)) && gs[i] == g
    {
      if g in plan.keys {
        var i :| 0 <= i < |col| && col[i] == g;
        assert gs[i] == g;
      }
      if exists i :: 0 <= i < Min(|x|, Min(|y|, |gs|)) && gs[i] == g {
        var i :| 0 <= i < Min(|x|, Min(|y|, |gs|)) && gs[i] == g;
        assert col[i] == g;
      }
    }
    if |gs| <= |x| && |gs| <= |y| {
      assert col == gs;
      IncreasingIsDistinct(plan.keys);
      DistinctCard(plan.keys);
      assert Elems(plan.keys) == Elems(gs);
    }
  }

  /**
   * Within the source of group `g`, point `j` is the row at the `j`-th position
   * labelled `g`: the positions ascend and are exactly the zipped rows labelled `g`.
   */
  lemma GroupEntryInRowOrder(x: seq<Value>, y: seq<Value>, gs: seq<int>, p: Provider, name: string, g: int)
    requires ConformGrouped(x, y, gs, p, name).Ok?
    requires g in ConformGrouped(x, y, gs, p, name).value.keys
    ensures var plan := ConformGrouped(x, y, gs, p, name).value;
      var d := GroupEntry(plan, g);
      var ps := Positions(plan.rows, g);
      && |d.x| == |ps| && |d.y| == |ps|
      && (forall j, l :: 0 <= j < l < |ps| ==> ps[j] < ps[l])
      && (forall i :: i in ps <==> 0 <= i < Min(|x|, Min(|y|, |gs|)) && gs[i] == g)
      && (forall j :: 0 <= j < |ps| ==> ps[j] < Min(|x|, Min(|y|, |gs|)) && d.x[j] == x[ps[j]] && d.y[j] == y[ps[j]])
  {
    var plan := ConformGrouped(x, y, gs, p, name).value;
    assert plan.rows == Zip3(x, y, gs);
    var tg := RowsOf(plan.rows, g);
    assert GroupEntry(plan, g).x == ColumnX(tg) && GroupEntry(plan, g).y == ColumnY(tg);
    ZippedGroup(x, y, gs, g);
  }

  /**
   * Grouping loses no row and repeats none: the group sources together hold
   * `min(len(x), len(y), len(group))` points.
   */
  lemma GroupedLossless(x: seq<Value>, y: seq<Value>, gs: seq<int>, p: Provider, name: string)
    requires ConformGrouped(x, y, gs, p, name).Ok?
    ensures var plan := ConformGrouped(x, y, gs, p, name).value;
      TotalRows(plan.rows, plan.keys) == Min(|x|, Min(|y|, |gs|))
  {
    var plan := ConformGrouped(x, y, gs, p, name).value;
    PartitionLossless(plan.rows);
  }

  /** The palette name of the keyword arguments, "Accent" by default. */
  function PaletteName(palette: Option<string>): (name: string)
    ensures palette.Some? ==> name == palette.value
    ensures palette.None? ==> name == DefaultPalette
  {
    palette.GetOr(DefaultPalette)
  }

  /** `GraphPlot.__init__`'s data step: grouped when a group column is given, ungrouped otherwise. */
  function Conform(x: seq<Value>, y: seq<Value>, group: Option<seq<int>>, palette: Option<string>, p: Provider)
    : (r: Result<Plan, Error>)
    ensures r.Ok? ==> (r.value.Grouped? <==> group.Some?)
    ensures group.Some? ==> (r.Ok? <==> ConformGrouped(x, y, group.value, p, PaletteName(palette)).Ok?)
    ensures group.None? ==> (r.Ok? <==> ConformUngrouped(x, y, p, PaletteName(palette)).Ok?)
    ensures group.None? && r.Ok? ==> |r.value.ungrouped.colors| == |r.value.ungrouped.y|
    ensures group.Some? && r.Ok? ==> |r.value.grouped.keys| <= |r.value.grouped.palette|
    ensures r.Err? ==> r.error in {UnknownPalette(PaletteName(palette)), ZeroDivision, NotDivisible}
    ensures group.Some? && r.Ok? ==> r.value == Grouped(ConformGrouped(x, y, group.value, p, PaletteName(palette)).value)
    ensures group.Some? && r.Err? ==> r.error == ConformGrouped(x, y, group.value, p, PaletteName(palette)).error
    ensures group.None? && r.Ok? ==> r.value == Single(ConformUngrouped(x, y, p, PaletteName(palette)).value)
    ensures group.None? && r.Err? ==> r.error == ConformUngrouped(x, y, p, PaletteName(palette)).error
  {
    match group
    case Some(gs) =>
      (match ConformGrouped(x, y, gs, p, PaletteName(palette))
       case Ok(plan) => Ok(Grouped(plan))
       case Err(e) => Err(e))
    case None =>
      (match ConformUngrouped(x, y, p, PaletteName(palette))
       case Ok(u) => Ok(Single(u))
       case Err(e) => Err(e))
  }
}

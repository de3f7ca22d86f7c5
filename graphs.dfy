/**
 * The mutable objects of graphs.py: bokeh's `ColumnDataSource` (only its data
 * columns) and `GraphPlot` with its constructor, `update` and the recolouring
 * of scatter renderers.
 */
module Graphs {
  import opened Results
  import opened ListOps
  import opened Text
  import opened Palettes
  import opened GroupBy
  import opened Conformance

  /** A bokeh `ColumnDataSource`: its "x", "y", "color" and (when present) "group" columns. */
  class DataSource {
    var x: seq<Value>
    var y: seq<Value>
    var color: seq<Color>
    var group: Option<seq<int>>

    function Data(): SourceData
      reads this
    {
      SourceData(x, y, color, group)
    }

    constructor (d: SourceData)
      ensures Data() == d
    {
      x, y, color, group := d.x, d.y, d.color, d.group;
    }

    /** `stream`: appends the new values at the end of the columns it is given. */
    method Stream(nx: seq<Value>, ny: seq<Value>, nc: seq<Color>, ng: Option<seq<int>>)
      modifies this
      ensures x == old(x) + nx && y == old(y) + ny && color == old(color) + nc
      ensures group == if ng.Some? then Some(old(group).GetOr([]) + ng.value) else old(group)
    {
      x := x + nx;
      y := y + ny;
      color := color + nc;
      if ng.Some? {
        group := Some(group.GetOr([]) + ng.value);
      }
    }
  }

  /** `self.source`: one data source, or an ordered dictionary of them keyed by `str(g)`. */
  datatype Sources =
    | OneSource(source: DataSource)
    | ByGroup(keys: seq<string>, entries: map<string, DataSource>)

  /** The dictionary keys of the group labels, `str(g)` for each: equal keys exactly for equal labels. */
  function KeyNames(ks: seq<int>): (names: seq<string>)
    ensures |names| == |ks|
    ensures forall i :: 0 <= i < |ks| ==> names[i] == IntToString(ks[i])
    ensures forall i, j :: 0 <= i < |ks| && 0 <= j < |ks| ==> (names[i] == names[j] <==> ks[i] == ks[j])
  {
    IntToStringsInjective(ks);
    seq(|ks|, i requires 0 <= i < |ks| => IntToString(ks[i]))
  }

  /** Python `list[j]`: a negative position counts from the end; `None` where it raises IndexError. */
  function PyIndex(j: int, len: nat): (r: Option<nat>)
    ensures r.Some? <==> -(len as int) <= j < len
    ensures r.Some? ==> r.value < len
    ensures r.Some? && j >= 0 ==> r.value == j
    ensures r.Some? && j < 0 ==> r.value == len + j
  {
    if 0 <= j < len then Some(j) else if -(len as int) <= j < 0 then Some(len + j) else None
  }

  /** `int(a / 2)`: halving with the quotient truncated toward zero. */
  function TruncHalf(a: int): (r: int)
    ensures 0 <= a ==> 0 <= 2 * r <= a < 2 * r + 2
    ensures a < 0 ==> 2 * r - 2 < a <= 2 * r <= 0
  {
    if a >= 0 then a / 2 else -((-a) / 2)
  }

  /**
   * The palette position for renderer `i` of `n` (lines 169-172): position `i`,
   * or `int(i - n/2)` when `i` is past the end of a palette of `p` colours.
   */
  function ScatterColorIndex(i: nat, n: nat, p: nat): (r: Option<nat>)
    ensures r.Some? ==> r.value < p
    ensures i < p ==> r == Some(i)
    ensures p <= i ==> r == PyIndex(TruncHalf(2 * i - n), p)
  {
    if i < p then Some(i) else PyIndex(TruncHalf(2 * i - n), p)
  }

  /** With at most twice as many renderers as colours, every renderer finds a colour. */
  lemma ScatterIndexInRange(n: nat, p: nat, i: nat)
    requires n <= 2 * p && i < n
    ensures ScatterColorIndex(i, n, p).Some?
  {
    if i >= p {
      var h := TruncHalf(2 * i - n);
      assert 0 <= 2 * h <= 2 * i - n;
    }
  }

  /**
   * With one regression line per scatter renderer (twice as many renderers as
   * colours), line `m` takes the colour of scatter renderer `m`.
   */
  lemma RegressionLineSharesColour(p: nat, m: nat)
    requires m < p
    ensures ScatterColorIndex(p + m, 2 * p, p) == Some(m)
    ensures ScatterColorIndex(m, 2 * p, p) == Some(m)
  {
    assert TruncHalf(2 * (p + m) - 2 * p) == m;
  }

  /**
   * The new colour column of renderer `i` of `n` whose column has `len` entries:
   * `len` copies of its palette colour; empty when it has no colour (the loop
   * stops there and never assigns it).
   */
  function ScatterColumn(palette: seq<Color>, i: nat, n: nat, len: nat): (r: seq<Color>)
    ensures ScatterColorIndex(i, n, |palette|).Some? ==>
      |r| == len && forall k :: 0 <= k < len ==> r[k] == palette[ScatterColorIndex(i, n, |palette|).value]
  {
    match ScatterColorIndex(i, n, |palette|)
    case None => []
    case Some(j) =>
      TimesSingle(palette[j], len);
      Times([palette[j]], len)
  }

  /** Renderer `i` is recoloured: it has a palette colour and a non-empty colour column. */
  predicate Recolourable(i: nat, lens: seq<nat>, p: nat)
    requires i < |lens|
  {
    ScatterColorIndex(i, |lens|, p).Some? && lens[i] > 0
  }

  /**
   * The first renderer, from `i` on, that stops the recolouring loop, or the
   * number of renderers when none does; `lens` are their colour column lengths.
   */
  function FirstStop(i: nat, lens: seq<nat>, p: nat): (r: nat)
    requires i <= |lens|
    ensures i <= r <= |lens|
    ensures forall j :: i <= j < r ==> Recolourable(j, lens, p)
    ensures r < |lens| ==> !Recolourable(r, lens, p)
    decreases |lens| - i
  {
    if i == |lens| then i
    else if !Recolourable(i, lens, p) then i
    else FirstStop(i + 1, lens, p)
  }

  /** The new colour columns of the renderers before the first one that stops the loop. */
  function ScatterColumns(palette: seq<Color>, lens: seq<nat>): (cols: seq<seq<Color>>)
    ensures |cols| == FirstStop(0, lens, |palette|)
    ensures forall k :: 0 <= k < |cols| ==> cols[k] == ScatterColumn(palette, k, |lens|, lens[k])
  {
    var stop := FirstStop(0, lens, |palette|);
    seq(stop, k requires 0 <= k < stop => ScatterColumn(palette, k, |lens|, lens[k]))
  }

  /** The lengths of some colour columns. */
  function Lengths(cs: seq<seq<Color>>): (lens: seq<nat>)
    ensures |lens| == |cs|
    ensures forall i :: 0 <= i < |cs| ==> lens[i] == |cs[i]|
  {
    seq(|cs|, i requires 0 <= i < |cs| => |cs[i]|)
  }

  /** The renderer at which the loop of lines 165-182 stops on colour columns `cs`, or `|cs|`. */
  function ScatterStop(palette: seq<Color>, cs: seq<seq<Color>>): (stop: nat)
    ensures stop <= |cs|
  {
    FirstStop(0, Lengths(cs), |palette|)
  }

  /** The colour columns after the loop: the renderers before the stop recoloured, the rest untouched. */
  function Recolour(palette: seq<Color>, cs: seq<seq<Color>>): (after: seq<seq<Color>>)
    ensures |after| == |cs|
  {
    ScatterColumns(palette, Lengths(cs)) + cs[ScatterStop(palette, cs)..]
  }

  /** The outcome of the loop: the IndexError of the renderer it stops at, if any. */
  function ScatterOutcome(palette: seq<Color>, cs: seq<seq<Color>>): (r: Result<(), Error>)
    ensures r.Ok? <==> ScatterStop(palette, cs) == |cs|
    ensures r.Err? ==> r.error in {PaletteIndex(ScatterStop(palette, cs)), EmptyColour(ScatterStop(palette, cs))}
  {
    var stop := ScatterStop(palette, cs);
    if stop == |cs| then Ok(())
    else if ScatterColorIndex(stop, |cs|, |palette|).None? then Err(PaletteIndex(stop))
    else Err(EmptyColour(stop))
  }

  /**
   * `self.colors` after the loop: the column computed last; empty when the loop
   * stops at an empty column (the column is computed before its first colour is read).
   */
  function ScatterLastColours(palette: seq<Color>, cs: seq<seq<Color>>, colors: seq<Color>): seq<Color>
  {
    var stop := ScatterStop(palette, cs);
    if stop < |cs| && ScatterColorIndex(stop, |cs|, |palette|).Some? then []
    else if stop == 0 then colors
    else ScatterColumn(palette, stop - 1, |cs|, |cs[stop - 1]|)
  }

  /**
   * Unless the loop stops at an empty column, or before the first renderer,
   * `self.colors` ends as the last recoloured renderer's column: its palette
   * colour repeated as often as that renderer has points.
   */
  lemma ScatterLastColumn(palette: seq<Color>, cs: seq<seq<Color>>, colors: seq<Color>)
    ensures var stop := ScatterStop(palette, cs);
      stop > 0 && (stop == |cs| || ScatterColorIndex(stop, |cs|, |palette|).None?) ==>
        && ScatterColorIndex(stop - 1, |cs|, |palette|).Some? && |cs[stop - 1]| > 0
        && ScatterLastColours(palette, cs, colors)
             == Times([palette[ScatterColorIndex(stop - 1, |cs|, |palette|).value]], |cs[stop - 1]|)
  {
    var stop := ScatterStop(palette, cs);
    if stop > 0 && (stop == |cs| || ScatterColorIndex(stop, |cs|, |palette|).None?) {
      assert FirstStop(0, Lengths(cs), |palette|) == stop;
      assert Recolourable(stop - 1, Lengths(cs), |palette|);
    }
  }

  /**
   * The other two ends of the loop: stopping at the first renderer, for want of
   * a palette colour or of renderers, leaves `self.colors` as it was; stopping at
   * a renderer that has a colour means its column is empty, and `self.colors`
   * becomes that empty column.
   */
  lemma ScatterLastEdgeCases(palette: seq<Color>, cs: seq<seq<Color>>, colors: seq<Color>)
    ensures var stop := ScatterStop(palette, cs);
      stop == 0 && (|cs| == 0 || ScatterColorIndex(0, |cs|, |palette|).None?) ==>
        ScatterLastColours(palette, cs, colors) == colors
    ensures var stop := ScatterStop(palette, cs);
      stop < |cs| && ScatterColorIndex(stop, |cs|, |palette|).Some? ==>
        |cs[stop]| == 0 && ScatterLastColours(palette, cs, colors) == []
  {
    var stop := ScatterStop(palette, cs);
    if stop < |cs| {
      assert FirstStop(0, Lengths(cs), |palette|) == stop;
      assert !Recolourable(stop, Lengths(cs), |palette|);
    }
  }

  /** The columns after the loop: the new ones up to the stop, the old ones from it on. */
  lemma RecolourSplit(palette: seq<Color>, cs: seq<seq<Color>>)
    ensures |ScatterColumns(palette, Lengths(cs))| <= |cs|
    ensures forall i :: 0 <= i < |ScatterColumns(palette, Lengths(cs))| ==>
      Recolour(palette, cs)[i] == ScatterColumns(palette, Lengths(cs))[i]
    ensures forall i :: |ScatterColumns(palette, Lengths(cs))| <= i < |cs| ==>
      Recolour(palette, cs)[i] == cs[i]
  {
    var columns, stop := ScatterColumns(palette, Lengths(cs)), ScatterStop(palette, cs);
    assert Recolour(palette, cs) == columns + cs[stop..];
  }

  /**
   * The loop recolours a prefix of the renderers: each of them gets a column as
   * long as its old one, holding its palette colour throughout; each renderer
   * from the stop on keeps its column.
   */
  lemma RecolourPrefix(palette: seq<Color>, cs: seq<seq<Color>>)
    ensures var after, stop := Recolour(palette, cs), ScatterStop(palette, cs);
      && (forall i :: 0 <= i < stop ==>
            && ScatterColorIndex(i, |cs|, |palette|).Some? && |cs[i]| > 0 && |after[i]| == |cs[i]|
            && forall k :: 0 <= k < |cs[i]| ==> after[i][k] == palette[ScatterColorIndex(i, |cs|, |palette|).value])
      && (forall i :: stop <= i < |cs| ==> after[i] == cs[i])
  {
    var lens, after, stop := Lengths(cs), Recolour(palette, cs), ScatterStop(palette, cs);
    var cols := ScatterColumns(palette, lens);
    forall i | 0 <= i < stop
      ensures ScatterColorIndex(i, |cs|, |palette|).Some? && |cs[i]| > 0 && after[i] == ScatterColumn(palette, i, |cs|, |cs[i]|)
    {
      assert Recolourable(i, lens, |palette|);
      assert after[i] == cols[i];
    }
    forall i | stop <= i < |cs|
      ensures after[i] == cs[i]
    {
      assert after[i] == cs[stop..][i - stop];
    }
  }

  /**
   * The loop completes exactly when every renderer has a palette colour and a
   * non-empty colour column; otherwise it stops at the first that does not.
   */
  lemma ScatterOutcomeCases(palette: seq<Color>, cs: seq<seq<Color>>)
    ensures ScatterOutcome(palette, cs).Ok? <==>
      forall i :: 0 <= i < |cs| ==> ScatterColorIndex(i, |cs|, |palette|).Some? && |cs[i]| > 0
    ensures ScatterOutcome(palette, cs).Err? ==>
      var stop := ScatterStop(palette, cs);
      && stop < |cs|
      && (forall i :: 0 <= i < stop ==> ScatterColorIndex(i, |cs|, |palette|).Some? && |cs[i]| > 0)
      && (ScatterColorIndex(stop, |cs|, |palette|).None? ==> ScatterOutcome(palette, cs) == Err(PaletteIndex(stop)))
      && (ScatterColorIndex(stop, |cs|, |palette|).Some? ==>
            |cs[stop]| == 0 && ScatterOutcome(palette, cs) == Err(EmptyColour(stop)))
  {
    var lens, stop := Lengths(cs), ScatterStop(palette, cs);
    forall i | 0 <= i < stop
      ensures ScatterColorIndex(i, |cs|, |palette|).Some? && |cs[i]| > 0
    {
      assert Recolourable(i, lens, |palette|);
    }
    if stop < |cs| {
      assert !Recolourable(stop, lens, |palette|);
    }
  }

  /**
   * With at most twice as many renderers as colours and no empty colour column,
   * every renderer is recoloured.
   */
  lemma ScatterCompletes(palette: seq<Color>, cs: seq<seq<Color>>)
    requires |cs| <= 2 * |palette|
    requires forall i :: 0 <= i < |cs| ==> |cs[i]| > 0
    ensures ScatterOutcome(palette, cs) == Ok(())
  {
    var stop := ScatterStop(palette, cs);
    if stop < |cs| {
      assert !Recolourable(stop, Lengths(cs), |palette|);
      ScatterIndexInRange(|cs|, |palette|, stop);
    }
  }

  /** The colour columns of the given data sources. */
  function Colourings(rs: seq<DataSource>): (cs: seq<seq<Color>>)
    reads rs
    ensures |cs| == |rs|
    ensures forall i :: 0 <= i < |rs| ==> cs[i] == rs[i].color
  {
    if rs == [] then [] else [rs[0].color] + Colourings(rs[1..])
  }

  /** The plotting object: its inputs, palettes, colours and data sources. */
  class GraphPlot {
    var group: Option<seq<int>>
    var x: seq<Value>
    var y: seq<Value>
    var numColors: nat  // set by the grouped branch only; 0 otherwise
    var numMod: nat     // set by the grouped branch only; 0 otherwise
    var palettes: map<string, seq<Color>>
    var palette: seq<Color>
    var colors: seq<Color>
    var source: Sources

    /** The size of every palette the object holds: the number of distinct labels, or one. */
    function PaletteSize(): nat
      reads this
    {
      if group.Some? then numColors else 1
    }

    ghost predicate Valid()
      reads this
    {
      && (group.Some? <==> source.ByGroup?)
      && (forall name :: name in palettes ==> |palettes[name]| == PaletteSize())
      && |palette| == PaletteSize()
      && (source.ByGroup? ==>
            && Distinct(source.keys)
            && (forall k :: k in source.entries <==> k in source.keys)
            && (forall i, j :: 0 <= i < j < |source.keys| ==>
                  source.entries[source.keys[i]] != source.entries[source.keys[j]]))
    }

    /** The data sources the object owns. */
    function SourceObjects(): set<DataSource>
      reads this
    {
      match source
      case OneSource(s) => {s}
      case ByGroup(_, m) => m.Values
    }

    /** The object holds what the conformance step computed from `x0`, `y0` and `group0`. */
    ghost predicate Built(x0: seq<Value>, y0: seq<Value>, group0: Option<seq<int>>, plan: Plan)
      reads this, SourceObjects()
    {
      match plan
      case Single(u) =>
        && group == None && x == u.x && y == u.y
        && palettes == u.palettes && palette == u.palette && colors == u.colors
        && source.OneSource? && source.source.Data() == SourceData(u.x, u.y, u.colors, None)
      case Grouped(gp) =>
        && group == group0 && x == x0 && y == y0
        && numColors == gp.numColors && numMod == gp.numMod
        && palettes == gp.palettes && palette == gp.palette && colors == gp.colors
        && GroupedOk(gp)
        && source.ByGroup? && source.keys == KeyNames(gp.keys)
        && (forall k :: k in source.keys ==> k in source.entries)
        && (forall i :: 0 <= i < |gp.keys| ==>
              source.entries[source.keys[i]].Data() == GroupEntry(gp, gp.keys[i]))
    }

    constructor Init(group: Option<seq<int>>, x: seq<Value>, y: seq<Value>, numColors: nat, numMod: nat,
                     palettes: map<string, seq<Color>>, palette: seq<Color>, colors: seq<Color>, source: Sources)
      ensures this.group == group && this.x == x && this.y == y
      ensures this.numColors == numColors && this.numMod == numMod
      ensures this.palettes == palettes && this.palette == palette && this.colors == colors
      ensures this.source == source
    {
      this.group, this.x, this.y := group, x, y;
      this.numColors, this.numMod := numColors, numMod;
      this.palettes, this.palette, this.colors := palettes, palette, colors;
      this.source := source;
    }

    /**
     * The loop of lines 53-63: one new data source per key, inserted into the
     * ordered dictionary in key order; a key seen before would be overwritten.
     */
    static method MakeSources(names: seq<string>, want: seq<SourceData>)
      returns (keys: seq<string>, entries: map<string, DataSource>)
      requires |names| == |want| && Distinct(names)
      ensures keys == names
      ensures forall k :: k in entries <==> k in keys
      ensures fresh(entries.Values)
      ensures forall i :: 0 <= i < |keys| ==> entries[keys[i]].Data() == want[i]
      ensures forall i, j :: 0 <= i < j < |keys| ==> entries[keys[i]] != entries[keys[j]]
    {
      keys, entries := [], map[];
      var i := 0;
      while i < |names|
        invariant 0 <= i <= |names| && keys == names[..i]
        invariant forall k :: k in entries <==> k in keys
        invariant fresh(entries.Values)
        invariant forall j :: 0 <= j < i ==> entries[keys[j]].Data() == want[j]
        invariant forall j, l :: 0 <= j < l < i ==> entries[keys[j]] != entries[keys[l]]
      {
        var ds := new DataSource(want[i]);
        var key := names[i];
        if key !in entries {
          keys := keys + [key];
        }
        ghost var before := entries;
        entries := entries[key := ds];
        forall d | d in entries.Values
          ensures fresh(d)
        {
          var k :| k in entries && entries[k] == d;
          if k != key {
            assert before[k] in before.Values;
          }
        }
        i := i + 1;
      }
    }

    /** The ordered dictionary of the grouped branch: key `str(g)` holds the source of group `g`. */
    static method BuildSources(plan: GroupedPlan) returns (keys: seq<string>, entries: map<string, DataSource>)
      requires GroupedOk(plan)
      ensures keys == KeyNames(plan.keys)
      ensures forall k :: k in entries <==> k in keys
      ensures fresh(entries.Values)
      ensures forall i :: 0 <= i < |keys| ==> entries[keys[i]].Data() == GroupEntry(plan, plan.keys[i])
      ensures forall i, j :: 0 <= i < j < |keys| ==> entries[keys[i]] != entries[keys[j]]
    {
      IncreasingIsDistinct(plan.keys);
      keys, entries := MakeSources(KeyNames(plan.keys), GroupEntries(plan));
    }

    /**
     * `GraphPlot(x, y, group=..., palette=...)`: the conformed sources and
     * palettes, or the exception the constructor raises.
     */
    static method Create(x: seq<Value>, y: seq<Value>, group: Option<seq<int>>, paletteName: Option<string>, p: Provider)
      returns (r: Result<GraphPlot, Error>)
      ensures r.Err? <==> Conform(x, y, group, paletteName, p).Err?
      ensures r.Err? ==> r.error == Conform(x, y, group, paletteName, p).error
      ensures r.Ok? ==> fresh(r.value) && fresh(r.value.SourceObjects()) && r.value.Valid()
      ensures r.Ok? ==> r.value.Built(x, y, group, Conform(x, y, group, paletteName, p).value)
    {
      var c := Conform(x, y, group, paletteName, p);
      if c.Err? {
        return Err(c.error);
      }
      if c.value.Single? {
        var gp := FromUngrouped(c.value.ungrouped);
        return Ok(gp);
      } else {
        ConformGroupedOk(x, y, group.value, p, PaletteName(paletteName));
        var gp := FromGrouped(x, y, group, c.value.grouped);
        return Ok(gp);
      }
    }

    /** The ungrouped branch (lines 68-101): one data source with the conformed columns. */
    static method FromUngrouped(u: Ungrouped) returns (gp: GraphPlot)
      requires forall name :: name in u.palettes ==> |u.palettes[name]| == 1
      requires |u.palette| == 1
      ensures fresh(gp) && fresh(gp.SourceObjects()) && gp.Valid()
      ensures gp.Built(u.x, u.y, None, Single(u))
    {
      var ds := new DataSource(SourceData(u.x, u.y, u.colors, None));
      gp := new GraphPlot.Init(None, u.x, u.y, 0, 0, u.palettes, u.palette, u.colors, OneSource(ds));
    }

    /** The grouped branch (lines 35-63): the inputs kept as given, one data source per group. */
    static method FromGrouped(x: seq<Value>, y: seq<Value>, group: Option<seq<int>>, plan: GroupedPlan)
      returns (gp: GraphPlot)
      requires group.Some? && GroupedOk(plan)
      requires forall name :: name in plan.palettes ==> |plan.palettes[name]| == plan.numColors
      requires |plan.palette| == plan.numColors
      ensures fresh(gp) && fresh(gp.SourceObjects()) && gp.Valid()
      ensures gp.Built(x, y, group, Grouped(plan))
    {
      var keys, entries := BuildSources(plan);
      IncreasingIsDistinct(plan.keys);
      gp := new GraphPlot.Init(group, x, y, plan.numColors, plan.numMod, plan.palettes, plan.palette,
                               plan.colors, ByGroup(keys, entries));
    }

    /** The data source `update` writes to: the one given, else `self.source` when it is a single source. */
    function Target(target: DataSource?): set<DataSource>
      reads this
    {
      if target != null then {target} else if source.OneSource? then {source.source} else {}
    }

    /**
     * `update(x, y, c, g, source)` (lines 299-345): empties the columns of the
     * target source and streams the new values in, so that it holds exactly them.
     * Without a target, a grouped object fails: its `source` is a dictionary.
     */
    method Update(nx: seq<Value>, ny: seq<Value>, c: seq<Color>, g: seq<int>, target: DataSource?)
      returns (r: Result<(), Error>)
      modifies Target(target)
      ensures r.Err? <==> target == null && source.ByGroup?
      ensures r.Err? ==> r.error == NoDataAttribute
      ensures r.Ok? ==>
        var ds := if target != null then target else source.source;
        && ds.x == nx && ds.y == ny && ds.color == c
        && ds.group == if group.Some? then Some(g) else old(ds.group)
    {
      var ds: DataSource;
      if target != null {
        ds := target;
      } else {
        match source
        case ByGroup(_, _) =>
          return Err(NoDataAttribute);
        case OneSource(s) =>
          ds := s;
      }
      ds.color := [];
      ds.x := [];
      ds.y := [];
      if group.Some? {
        ds.group := Some([]);
        ds.Stream(nx, ny, c, Some(g));
        assert [] + g == g;
      } else {
        ds.Stream(nx, ny, c, None);
      }
      r := Ok(());
    }

    /**
     * `change_palette_scatter` (lines 161-182): switches to the named palette and
     * gives each renderer's data source a colour column of the same length holding
     * its palette colour. Renderer `i` stops the loop with an IndexError when it
     * has no palette colour, or when its colour column is empty (the first colour
     * is read for the glyph); the renderers before it keep their new colours.
     */
    method ChangePaletteScatter(renderers: seq<DataSource>, name: string) returns (r: Result<(), Error>)
      requires Valid()
      requires Distinct(renderers)
      modifies this`palette, this`colors, renderers
      ensures Valid()
      ensures forall i :: 0 <= i < |renderers| ==>
        renderers[i].x == old(renderers[i].x) && renderers[i].y == old(renderers[i].y)
        && renderers[i].group == old(renderers[i].group)
      ensures name !in palettes ==>
        && r == Err(UnknownPalette(name)) && palette == old(palette) && colors == old(colors)
        && forall i :: 0 <= i < |renderers| ==> renderers[i].color == old(renderers[i].color)
      ensures name in palettes ==>
        && palette == palettes[name]
        && (forall i :: 0 <= i < |renderers| ==>
              renderers[i].color == Recolour(palette, old(Colourings(renderers)))[i])
        && r == ScatterOutcome(palette, old(Colourings(renderers)))
        && colors == ScatterLastColours(palette, old(Colourings(renderers)), old(colors))
    {
      if name !in palettes {
        return Err(UnknownPalette(name));
      }
      ghost var cs, before := Colourings(renderers), colors;
      r := RecolourScatter(renderers, palettes[name]);
      assert palette == palettes[name];
      assert r == ScatterOutcome(palette, cs) && colors == ScatterLastColours(palette, cs, before);
    }

    /** The loop of lines 165-182 over the renderers, after the palette is switched. */
    method RecolourScatter(renderers: seq<DataSource>, newPalette: seq<Color>) returns (r: Result<(), Error>)
      requires Distinct(renderers)
      modifies this`palette, this`colors, renderers
      ensures palette == newPalette
      ensures forall i :: 0 <= i < |renderers| ==>
        renderers[i].x == old(renderers[i].x) && renderers[i].y == old(renderers[i].y)
        && renderers[i].group == old(renderers[i].group)
      ensures forall i :: 0 <= i < |renderers| ==>
        renderers[i].color == Recolour(newPalette, old(Colourings(renderers)))[i]
      ensures r == ScatterOutcome(newPalette, old(Colourings(renderers)))
      ensures colors == ScatterLastColours(newPalette, old(Colourings(renderers)), old(colors))
    {
      var cs := Colourings(renderers);
      palette := newPalette;
      r, colors := ScatterOutcome(newPalette, cs), ScatterLastColours(newPalette, cs, colors);
      var columns := ScatterColumns(newPalette, Lengths(cs));
      RecolourSplit(newPalette, cs);
      SetColours(renderers, columns);
    }

    /** Assigns the given colour columns to the first renderers' data sources, in order. */
    static method SetColours(renderers: seq<DataSource>, columns: seq<seq<Color>>)
      requires Distinct(renderers) && |columns| <= |renderers|
      modifies renderers
      ensures forall i :: 0 <= i < |renderers| ==>
        renderers[i].x == old(renderers[i].x) && renderers[i].y == old(renderers[i].y)
        && renderers[i].group == old(renderers[i].group)
      ensures forall i :: 0 <= i < |columns| ==> renderers[i].color == columns[i]
      ensures forall i :: |columns| <= i < |renderers| ==> renderers[i].color == old(renderers[i].color)
    {
      var i := 0;
      while i < |columns|
        invariant 0 <= i <= |columns|
        invariant forall k :: 0 <= k < |renderers| ==>
          renderers[k].x == old(renderers[k].x) && renderers[k].y == old(renderers[k].y)
          && renderers[k].group == old(renderers[k].group)
        invariant forall k :: 0 <= k < i ==> renderers[k].color == columns[k]
        invariant forall k :: i <= k < |renderers| ==> renderers[k].color == old(renderers[k].color)
      {
        renderers[i].color := columns[i];
        i := i + 1;
      }
    }
  }
}

# autovis `GraphPlot`: data conformance, `update` and scatter recolouring

This project models the core of `GraphPlot` in autovis's `graphs.py`. It proves properties of that model in Dafny.

`GraphPlot(x, y, group=..., palette=...)` turns raw x and y columns, with an optional group column, into bokeh data sources ready to plot:

- **Grouped.** The inputs are zipped into (x, y, group) rows. A pandas `groupby` forms the groups, and each group becomes one `ColumnDataSource` in an ordered dictionary keyed `str(g)`. Every point of group `g` gets the palette colour at `g`'s position among the group keys. The palette has one colour per distinct label.
- **Ungrouped.** The x and y columns are conformed to one length. If the sizes differ and one divides the other, the smaller column is repeated element-wise. A single data source holds the result, coloured with a one-colour palette.

`update` empties a data source and streams new values into it. `change_palette_scatter` switches the palette and gives each scatter renderer a constant colour column of the same length as before. A renderer past the end of the palette uses the fallback position `int(i - n/2)`.

Layout, module by module:

- `results.dfy` (`Results`): the `Option` and `Result` datatypes.
- `listops.dfy` (`ListOps`): Python's `list * n` (`Times`), pandas' `Series.repeat` (`Repeat`), `list.index` (`IndexOf`) and `set` (`Elems`), with their lemmas.
- `text.dfy` (`Text`): `str` on integers, proved injective.
- `palettes.dfy` (`Palettes`): `palette_maps`, over an abstract palette provider.
- `groupby.dfy` (`GroupBy`): `zip`, the sorted keys of `groupby`, and `get_group`.
- `conform.dfy` (`Conformance`): the three branches of the constructor, as pure functions over values. They return the conformed columns and palettes, or the exception the constructor raises.
- `graphs.dfy` (`Graphs`): the mutable objects. `DataSource` holds the columns of a `ColumnDataSource`, with `stream`. `GraphPlot` has its construction, `Update`, and `ChangePaletteScatter` with its loop.

`Create`, `FromUngrouped`, `FromGrouped`, `BuildSources`, `ChangePaletteScatter` and `RecolourScatter` are proved against specification functions from `Conformance` and `Graphs`, and lemmas prove separately what those functions promise. `DataSource.Stream`, `Update`, `MakeSources` and `SetColours` state their effect on the objects directly in their postconditions.

Details of the code that the model keeps:

- `Series.repeat` repeats each element in place: `[a, b]` with factor 2 becomes `[a, a, b, b]`. `list * n`, by contrast, tiles the whole list.
- `groupby` yields its keys in ascending order, and the colours follow that order.
- The grouped branch does not check that x, y and group have equal lengths: `zip` truncates to the shortest.
- The palette size is the number of distinct labels in the whole group column. When the group column is no longer than x and y, this equals the number of keys (`GroupedKeysAreLabels`).
- DataFrame inputs reach the same size arithmetic and are not modelled (see "## Left out").
- An empty column beside a non-empty one is not rejected up front. It makes Python divide by zero, which the model returns as the `ZeroDivision` error.

The two mutable classes of `Graphs` carry their invariants as predicates:

- `DataSource` holds the columns of one `ColumnDataSource`. A source is created from a `SourceData` value. It is changed by `Stream`, and by direct column assignment in `Update` (which clears the columns) and `SetColours` (which sets the colour column).
- `GraphPlot.Valid()` holds for every object `Create` returns, and `ChangePaletteScatter` preserves it:
  - the object is grouped exactly when its sources form a dictionary;
  - every palette, including the current one, has the size its branch asks for;
  - the dictionary's keys are distinct, each with its own data source.
- `GraphPlot.Built(x, y, group, plan)` says that an object holds exactly what the conformance step computed. `Create` establishes it.

## Model

| member | source | states |
|---|---|---|
| ListOps.Times | graphs.py:51 | `list * n` of a list of `m` elements has `m * n` elements |
| ListOps.TimesAt | graphs.py:50-51 | position `i` of `palette * n` holds `palette[i % len(palette)]`: the list is tiled cyclically |
| ListOps.TimesSingle | graphs.py:59-63 | `[c] * n` has length `n` and holds `c` at every position |
| ListOps.Repeat | graphs.py:76 | `Series.repeat(k)` of `m` elements has `m` blocks of `k` positions each |
| ListOps.RepeatLength | graphs.py:76 | `Series.repeat(k)` of a column of `m` values has `m * k` values |
| ListOps.RepeatBlock | graphs.py:81 | with the blocks of `k` positions, position `j` (`j < k`) of the `q`-th block of `repeat(k)` holds element `q`: every element `k` times in a row, in order |
| ListOps.RepeatAt | graphs.py:73-81 | position `i` of `repeat(k)` holds element `i / k` of the original |
| ListOps.IndexOf | graphs.py:61-62 | `list.index(v)` is a position holding `v`, and no earlier position holds `v` |
| ListOps.IndexOfDistinct | graphs.py:61-62 | in a list without repetitions, `index` of the element at position `i` is `i` |
| ListOps.DistinctCard | graphs.py:41 | a list without repetitions has as many elements as its `set` |
| Text.IntToString | graphs.py:59 | `str(g)` is non-empty and starts with a minus sign exactly when `g` is negative |
| Text.IntToStringInjective | graphs.py:59 | distinct labels give distinct `str` keys |
| Text.IntToStringsInjective | graphs.py:59 | within a list of labels, two `str` keys agree exactly when their labels do |
| Palettes.PaletteMap | graphs.py:106-125 | `palette_maps(n)` maps exactly the known colour maps other than "jet", each to `n` colours |
| GroupBy.Zip3 | graphs.py:46-47 | the zipped frame has `min(len x, len y, len group)` rows, and row `i` holds the `i`-th entries |
| GroupBy.Keys | graphs.py:48 | the group keys are strictly ascending and are exactly the labels that occur |
| GroupBy.AscendingUnique | graphs.py:55 | an ascending list without repetitions is determined by its elements, so the key list is unique |
| GroupBy.RowsOf | graphs.py:57 | `get_group(g)` has no more rows than the frame, and every row it returns is labelled `g` |
| GroupBy.PositionsShape | graphs.py:57 | the positions of label `g` are ascending, and are exactly the frame positions labelled `g` |
| GroupBy.RowsOfAt | graphs.py:57 | row `j` of `get_group(g)` is the frame row at the `j`-th position labelled `g` |
| GroupBy.RowsOfInOrder | graphs.py:57 | `get_group(g)` keeps exactly the rows labelled `g`, in frame order |
| GroupBy.ZippedGroup | graphs.py:46-59 | the x and y lists of group `g` are the input values at the ascending positions where the group column holds `g` |
| GroupBy.PartitionLossless | graphs.py:48-57 | the groups together hold every row of the frame exactly once |
| Conformance.SingleColour | graphs.py:83-85 | the `KeyError` for an unknown palette name; otherwise a one-colour palette and a colour list of `len(y)` copies of that colour |
| Conformance.Stretch | graphs.py:76 | the repeated column reaches exactly the requested length |
| Conformance.Resize | graphs.py:68-92 | sizes that differ with neither dividing the other raise, an empty column beside a non-empty one divides by zero, and otherwise both columns end up with the larger length; equal sizes pass through |
| Conformance.ResizeRepeatsY | graphs.py:73-76 | with x larger, x is kept, the size of y divides it, and y becomes `y.repeat(len x / len y)` |
| Conformance.ResizeRepeatsX | graphs.py:78-81 | with y larger, y is kept, the size of x divides it, and x becomes `x.repeat(len y / len x)` |
| Conformance.ConformUngrouped | graphs.py:64-101 | the sizing errors first, then the palette error; on success, the resized columns, a one-colour palette, and `len(y)` colours all equal to it |
| Conformance.KeysWithinLabels | graphs.py:41-48 | there are no more group keys than distinct labels, so the palette has a colour for every key |
| Conformance.ConformGrouped | graphs.py:35-51 | the palette has one colour per distinct label; an unknown name raises `KeyError`, and an empty group column divides by zero; `num_mod` is `len(group) // len(palette)`, and the colour list is `palette * num_mod`, the palette tiled `num_mod` times |
| Conformance.EmptyLabels | graphs.py:41-50 | the number of distinct labels is zero exactly when the group column is empty |
| Conformance.GroupEntry | graphs.py:57-63 | the source of group `g` has x, y, colour and group columns as long as `get_group(g)`; every colour is the palette colour at `g`'s position among the keys, and every group value is `g` |
| Conformance.GroupEntries | graphs.py:55-63 | one source per key, in key order; the source of key `i` has as many points as rows labelled with that key, and every colour in it is `palette[i]` |
| Conformance.GroupEntryShape | graphs.py:57-63 | the source of key `i` has x, y, colour and group columns of one length, the number of rows labelled with that key; the group column is the key throughout, and the colour column is `palette[i]` throughout |
| Conformance.ConformGroupedOk | graphs.py:41-55 | every plan the grouped branch produces has ascending keys and no more keys than palette colours |
| Conformance.GroupedKeysAreLabels | graphs.py:41-55 | the keys ascend and are exactly the labels of the zipped rows; when the group column is no longer than x and y, there are as many keys as palette colours |
| Conformance.GroupEntryInRowOrder | graphs.py:57-59 | point `j` of group `g`'s source is the input point at the `j`-th position labelled `g`; the positions ascend and are exactly those labelled `g` |
| Conformance.GroupedLossless | graphs.py:46-59 | the group sources together hold `min(len x, len y, len group)` points |
| Conformance.PaletteName | graphs.py:45 | the palette name given, or "Accent" by default |
| Conformance.Conform | graphs.py:35-101 | grouped exactly when a group column is given; its plan or its error is exactly the chosen branch's, and the only errors are the unknown palette, the division by zero and the indivisible sizes |
| Graphs.DataSource.constructor | graphs.py:59-63 | a new `ColumnDataSource` holds exactly the columns it is given |
| Graphs.DataSource.Stream | graphs.py:330 | `stream` appends the new values at the end of each column it is given, and leaves a missing group column alone |
| Graphs.KeyNames | graphs.py:59 | the dictionary key of group `i` is `str` of its label, and two keys agree exactly when their labels do, so no group source overwrites another |
| Graphs.PyIndex | graphs.py:172 | Python list indexing: a position in `-len <= j < len` is valid, a negative one counts from the end, and any other raises `IndexError` |
| Graphs.TruncHalf | graphs.py:172 | `int(a / 2)` truncates the half toward zero, for either sign |
| Graphs.ScatterColorIndex | graphs.py:169-172 | renderer `i` uses palette position `i` when it exists, and otherwise Python's indexing at `int(i - n/2)`, which raises `IndexError` outside the palette; any position it yields is inside the palette |
| Graphs.ScatterIndexInRange | graphs.py:169-172 | with at most twice as many renderers as colours, every renderer finds a colour |
| Graphs.RegressionLineSharesColour | graphs.py:169-172 | with one regression line per scatter renderer, line `m` gets the same colour as scatter renderer `m` |
| Graphs.ScatterColumn | graphs.py:169-172 | a renderer that has a colour gets a column of the old length, holding that colour throughout |
| Graphs.FirstStop | graphs.py:165-182 | the loop passes every renderer before the stop, which has a colour and a non-empty column, and stops at the first renderer without one |
| Graphs.Recolour | graphs.py:165-182 | the loop leaves one colour column per renderer; what each holds is stated by `RecolourSplit` and `RecolourPrefix` |
| Graphs.RecolourSplit | graphs.py:165-182 | after the loop, the renderers before the stop hold their new columns, and the rest keep their old ones |
| Graphs.RecolourPrefix | graphs.py:165-182 | each recoloured renderer has a colour, a non-empty column, and a new column of the same length holding its colour; the renderers from the stop on are unchanged |
| Graphs.ScatterOutcomeCases | graphs.py:165-182 | the loop completes exactly when every renderer has a colour and a non-empty column; otherwise it raises at the first renderer that has none, with `PaletteIndex` or `EmptyColour` saying which |
| Graphs.ScatterOutcome | graphs.py:165-182 | the loop completes exactly when it passes every renderer; otherwise it raises `IndexError` at the renderer where it stops |
| Graphs.ScatterLastColumn | graphs.py:165-182 | when the loop passes at least one renderer and does not stop at an empty column, `self.colors` ends as the last recoloured renderer's colour repeated once per point |
| Graphs.ScatterLastEdgeCases | graphs.py:165-182 | when the loop stops at the first renderer for want of a colour or of renderers, `self.colors` keeps its old value; when it stops at a renderer that has a colour, that renderer's column is empty and `self.colors` becomes `[]` |
| Graphs.ScatterCompletes | graphs.py:165-182 | with at most twice as many renderers as colours and no empty column, the loop completes |
| Graphs.GraphPlot.Init | graphs.py:19-101 | the object's attributes hold exactly the values the constructor computed |
| Graphs.GraphPlot.MakeSources | graphs.py:53-63 | the loop builds one fresh data source per key, in key order, with the wanted columns, and no two keys share a source |
| Graphs.GraphPlot.BuildSources | graphs.py:53-63 | key `str(g)` holds a fresh source with exactly group `g`'s columns, in key order |
| Graphs.GraphPlot.Create | graphs.py:19-104 | the constructor raises exactly when the conformance step fails, with its error; otherwise a fresh object holds exactly the computed palettes, colours and sources |
| Graphs.GraphPlot.FromUngrouped | graphs.py:64-101 | a single fresh source with the conformed x and y and the colour list |
| Graphs.GraphPlot.FromGrouped | graphs.py:35-63 | the inputs are kept as given, and there is one fresh source per group key |
| Graphs.GraphPlot.Update | graphs.py:299-345 | the target source (the one given, else `self.source`) holds exactly the new x, y and colours, and the new groups when grouped; without a target, the dictionary of a grouped object raises `AttributeError` |
| Graphs.GraphPlot.ChangePaletteScatter | graphs.py:151-182 | an unknown name raises `KeyError` and changes nothing; otherwise the palette is switched, each renderer holds its entry of the recoloured columns, and the outcome and `self.colors` are those of the loop |
| Graphs.GraphPlot.RecolourScatter | graphs.py:165-182 | the loop over the renderers: the recoloured prefix, the outcome and the last colour column written; the x, y and group columns are untouched |
| Graphs.GraphPlot.SetColours | graphs.py:182 | the first renderers get the given columns, in order, and nothing else changes |

## Left out

- `palette_maps` internals: the colour maps and their colours come from seaborn and matplotlib. They are the parameter `Provider` (a set of names and a colour function). The model assumes only that a map yields the requested number of colours.
- DataFrame inputs: the model works on one-dimensional columns (pandas `Series`) only. A DataFrame's `.size` counts its cells and `.values.flatten()` flattens it, so two-column frames would reach the size arithmetic of lines 68-81. app.py:34 builds such frames, but passes them to a module-level `graphs.plot_scatter` that graphs.py does not define, so they never reach `GraphPlot`. A DataFrame has no `repeat`, so when the smaller input is a frame the code raises `AttributeError` at line 76 or 81. None of this is modelled.
- Conformance.Resize: `x.size / y.size` is a float in Python and is modelled as the exact integer quotient. The code checks divisibility first, so the two have the same value. Only that value is modelled, not the float argument as such: lines 76 and 81 pass a float count to `Series.repeat`, and whether numpy accepts a float count depends on its version (recent versions raise `TypeError`).
- Values are `real` and group labels are `int`. NaN handling in pandas and other label types are not modelled.
- The `kwargs` that only feed drawing (`x_axis_type`, `plot_title`, labels, width, height) and the `graph` and `p` attributes set to `None` are left out, because they hold no data.
- Graphs.GraphPlot.ChangePaletteScatter: the renderers are a parameter, each identified with its data source. They are assumed distinct, as the figure's renderers are. The glyph `fill_color` and `line_color` assignments are left out because they only feed drawing. The per-renderer `IndexError` on an empty colour column is modelled.
- Graphs.GraphPlot.Update: `update`'s `g=None` default is left out. The new group values are always a list. bokeh's `stream` column validation is not modelled (see `Graphs.DataSource.Stream` below).
- Graphs.DataSource.Stream: bokeh raises `ValueError` when the streamed columns differ from the source's own columns or have unequal lengths. The model appends whatever it is given and does not model that error.
- `plot_scatter`, `plot_bar`, `plot_line`: bokeh figure and widget construction.
- `change_palette_lines`, `change_palette_bar`, `change_dot_size`, `change_line_thick`, `change_figure_title`, `change_glyph_alpha`: attribute assignment on library glyph objects.
- `add_regression` and stats.py: a statsmodels regression with floating-point results. Only the renderer count it produces appears here, in `RegressionLineSharesColour`.
- The module-level script of graphs.py, file_input.py (browser file reading and CSV parsing), app.py (a Flask route) and main.py (widget wiring) are I/O and user-interface glue. They are not part of this model.

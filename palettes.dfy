/**
 * The colour-map provider behind `GraphPlot.palette_maps`, kept abstract: which
 * colour maps exist and the colours a map yields come from the plotting libraries.
 */
module Palettes {
  /** An opaque colour token (a hex string in the application). */
  type Color = string

  /** The colour map that `palette_maps` skips. */
  const Skipped: string := "jet"

  /**
   * The colour maps the plotting library knows (`names`) and, for a map name,
   * a palette size `n` and a position `i < n`, the colour at that position.
   */
  datatype Provider = Provider(names: set<string>, shade: (string, nat, nat) -> Color)

  /**
   * `palette_maps(n)`: every known colour map except "jet", each mapped to
   * a palette of exactly `n` colours.
   */
  function PaletteMap(p: Provider, n: nat): (m: map<string, seq<Color>>)
    ensures forall name :: name in m <==> name in p.names && name != Skipped
    ensures forall name :: name in m ==> |m[name]| == n
  {
    map name | name in p.names && name != Skipped :: seq(n, i requires 0 <= i < n => p.shade(name, n, i))
  }
}

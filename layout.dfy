/**
 * The layout adapter and the choropleth's values: the breakpoint name picks
 * the colorbar's orientation and the histogram legend, and every district is
 * drawn at its participation rate signed by its party.
 */
module Layout {
  import opened Districts

  /** The breakpoint name of the narrow layout; every other value means the wide layout. */
  const NARROW: string := "sm"
  /** The colour scale is clipped at plus or minus this rate (zmin, zmax). */
  const COLOR_LIMIT: real := 0.30
  /** cdmap_tickvals. */
  const TICK_VALS: seq<real> := [-0.30, -0.20, -0.10, 0.0, 0.10, 0.20, 0.30]
  /** cdmap_ticktext. */
  const TICK_TEXT: seq<string> := ["30% (D)", "20% (D)", "10% (D)", "0%", "10% (R)", "20% (R)", "30% (R)"]
  const COLORBAR_TITLE: string := "SNAP Participation Rate"

  datatype Orientation = Horizontal | Vertical

  /** Where the colorbar sits: below the map at height y, or left of it at x. */
  datatype Placement = Below(y: real) | LeftOf(x: real)

  /**
   * The colorbar settings the callback passes. `titleSideTopGiven` records
   * whether `side='top'` is passed for the title; when it is not, the
   * plotting library's own default side applies.
   */
  datatype Colorbar = Colorbar(
    title: string,
    titleSideTopGiven: bool,
    orientation: Orientation,
    placement: Placement,
    tickVals: seq<real>,
    tickText: seq<string>)

  /** What the breakpoint decides: the map's colorbar and whether the histogram shows its legend. */
  datatype LayoutParams = LayoutParams(colorbar: Colorbar, showHistLegend: bool)

  /** cb_dict and hist_leg for a breakpoint name. */
  function Adapt(breakpoint: string): (p: LayoutParams)
    ensures p.colorbar.orientation == Horizontal <==> breakpoint == NARROW
    ensures p.showHistLegend <==> breakpoint != NARROW
    ensures p.colorbar.titleSideTopGiven <==> p.colorbar.orientation == Horizontal
    ensures p.colorbar.placement.Below? <==> p.colorbar.orientation == Horizontal
    ensures p.colorbar.placement.Below? ==> p.colorbar.placement.y < 0.0
    ensures p.colorbar.placement.LeftOf? ==> p.colorbar.placement.x < 0.0
    ensures p.colorbar.title == COLORBAR_TITLE
    ensures p.colorbar.tickVals == TICK_VALS && p.colorbar.tickText == TICK_TEXT
  {
    if breakpoint == NARROW then
      LayoutParams(Colorbar(COLORBAR_TITLE, true, Horizontal, Below(-0.125), TICK_VALS, TICK_TEXT), false)
    else
      LayoutParams(Colorbar(COLORBAR_TITLE, false, Vertical, LeftOf(-0.125), TICK_VALS, TICK_TEXT), true)
  }

  /** The decimal digits of a natural number. */
  function NatToString(n: nat): (s: string)
    ensures |s| > 0
  {
    var digit := ["0", "1", "2", "3", "4", "5", "6", "7", "8", "9"][n % 10];
    if n < 10 then digit else NatToString(n / 10) + digit
  }

  /**
   * The label a signed rate should carry on the colorbar: its whole
   * percentage, followed by the party whose side of the scale it is on.
   */
  function TickLabel(v: real): string {
    if v == 0.0 then "0%"
    else
      var pct := NatToString(((if v < 0.0 then -v else v) * 100.0).Floor as nat);
      pct + "% " + (if v < 0.0 then "(D)" else "(R)")
  }

  /**
   * The colorbar's ticks: one label per value, each label the one its value
   * calls for, the values increasing, symmetric about zero and spanning the
   * clipped colour range exactly.
   */
  lemma TicksAgree()
    ensures |TICK_VALS| == |TICK_TEXT| == 7
    ensures forall i :: 0 <= i < 7 ==> TICK_TEXT[i] == TickLabel(TICK_VALS[i])
    ensures forall i :: 0 <= i < 6 ==> TICK_VALS[i] < TICK_VALS[i + 1]
    ensures forall i :: 0 <= i < 7 ==> TICK_VALS[i] == -TICK_VALS[6 - i]
    ensures TICK_VALS[0] == -COLOR_LIMIT && TICK_VALS[6] == COLOR_LIMIT
  {
    assert NatToString(10) == "10" && NatToString(20) == "20" && NatToString(30) == "30";
  }

  /** The z value of one district on the map: hh_snap_pct * PARTYNUM. */
  function MapValue(d: District): (z: real)
    ensures d.partyNum == 1 ==> z == d.rate
    ensures d.partyNum == -1 ==> z == -d.rate
  {
    d.rate * (d.partyNum as real)
  }

  /** The map's z column, one value per selected district, in row order. */
  function MapValues(rows: seq<District>): (z: seq<real>)
    ensures |z| == |rows|
    ensures forall i :: 0 <= i < |rows| ==> z[i] == MapValue(rows[i])
  {
    seq(|rows|, i requires 0 <= i < |rows| => MapValue(rows[i]))
  }

  /**
   * With a unit party multiplier, the magnitude of a district's map value is
   * its rate and its sign is the multiplier's (a rate of zero aside).
   */
  lemma MapValueMagnitude(d: District)
    requires d.partyNum == 1 || d.partyNum == -1
    requires d.rate >= 0.0
    ensures (if MapValue(d) < 0.0 then -MapValue(d) else MapValue(d)) == d.rate
    ensures d.rate > 0.0 ==> (MapValue(d) > 0.0 <==> d.partyNum == 1)
  {
  }
}

/**
 * The callback itself: from the breakpoint name and the dropdown value it
 * builds the map, the donut and the histogram, reading the district table
 * and the region directory handed to it.
 */
module Dashboard {
  import opened Wrappers
  import opened Districts
  import opened Resolver
  import opened Histogram
  import opened Ticks
  import opened Donut
  import opened Layout

  /** One row of the region directory: a dropdown code and its display name. */
  datatype DirectoryEntry = DirectoryEntry(code: string, name: string)

  /**
   * Why the callback raises instead of returning figures: the dropdown was
   * cleared (no value), or the code has no row in the directory.
   */
  datatype Error = SelectionCleared | UnknownRegion(code: string)

  datatype MapFigure = MapFigure(
    locations: seq<string>,
    z: seq<real>,
    fitBounds: bool,
    colorbar: Colorbar,
    regionName: string)

  datatype PieFigure = PieFigure(republicanShare: RepublicanShare, regionName: string)

  /** One bar series of the histogram: the party it counts and its eight counts. */
  datatype Bars = Bars(party: string, counts: seq<nat>)

  /** The bucket labels on the x axis; the series are drawn Republican first, then Democratic. */
  datatype HistFigure = HistFigure(labels: seq<string>, series: seq<Bars>, dtick: nat, showLegend: bool)

  datatype Figures = Figures(cdmap: MapFigure, pie: PieFigure, hist: HistFigure)

  /** The display name of the first directory row with this code, like `.iloc[0]` on the match. */
  function LookupName(directory: seq<DirectoryEntry>, code: string): (r: Option<string>)
    ensures r.None? <==> forall i :: 0 <= i < |directory| ==> directory[i].code != code
    ensures r.Some? ==> exists i :: (0 <= i < |directory| && directory[i] == DirectoryEntry(code, r.value)
      && forall j :: 0 <= j < i ==> directory[j].code != code)
  {
    if |directory| == 0 then None
    else if directory[0].code == code then Some(directory[0].name)
    else
      var rest := LookupName(directory[1..], code);
      if rest.Some? then
        ghost var k :| 0 <= k < |directory[1..]| && directory[1..][k] == DirectoryEntry(code, rest.value)
          && forall j :: 0 <= j < k ==> directory[1..][j].code != code;
        assert directory[k + 1] == DirectoryEntry(code, rest.value);
        rest
      else rest
  }

  /** display_choropleth(breakpoints, selection). */
  function DisplayChoropleth(
    table: seq<District>, directory: seq<DirectoryEntry>, breakpoint: string, selection: Option<string>)
    : (r: Result<Figures, Error>)
    ensures selection.None? ==> r == Failure(SelectionCleared)
    ensures selection.Some? ==>
      (r.Failure? <==> LookupName(directory, selection.value).None?)
    ensures r.Failure? && selection.Some? ==> r.error == UnknownRegion(selection.value)
    ensures r.Success? ==> (|r.value.hist.series| == 2
      && |r.value.hist.series[0].counts| == BUCKETS && |r.value.hist.series[1].counts| == BUCKETS)
  {
    if selection.None? then Failure(SelectionCleared)
    else
      var code := selection.value;
      var layout := Adapt(breakpoint);
      var s := Resolve(code);
      var chosen := Select(table, s);
      var dems := PartySelect(table, s, DEMOCRATIC);
      var reps := PartySelect(table, s, REPUBLICAN);
      match LookupName(directory, code)
      case None => Failure(UnknownRegion(code))
      case Some(name) =>
        var cdmap := MapFigure(
          seq(|chosen|, i requires 0 <= i < |chosen| => chosen[i].geoid),
          MapValues(chosen), FitBounds(s), layout.colorbar, name);
        var pie := PieFigure(Share(chosen), name);
        var countsD := Counts(Rates(dems));
        var countsR := Counts(Rates(reps));
        var hist := HistFigure(
          LABELS,
          [Bars(REPUBLICAN, countsR), Bars(DEMOCRATIC, countsD)],
          TickStep(if Max(countsD) >= Max(countsR) then Max(countsD) else Max(countsR)),
          layout.showHistLegend);
        Success(Figures(cdmap, pie, hist))
  }

  /**
   * For every code the directory knows and every breakpoint, the figures
   * follow the selection: the map shows the selected districts in table
   * order with their signed rates, is fitted unless the code is USA, 02 or
   * 15, and carries the breakpoint's colorbar; the donut shows the
   * selection's Republican share; the histogram tallies the Republican and
   * then the Democratic subset into the eight labelled buckets, with the
   * step of the taller bar and the legend shown unless the layout is narrow.
   */
  lemma FiguresFollowSelection(
    table: seq<District>, directory: seq<DirectoryEntry>, breakpoint: string, code: string)
    requires LookupName(directory, code).Some?
    ensures var r := DisplayChoropleth(table, directory, breakpoint, Some(code));
      var chosen := Select(table, Resolve(code));
      var countsR := Counts(Rates(PartySelect(table, Resolve(code), REPUBLICAN)));
      var countsD := Counts(Rates(PartySelect(table, Resolve(code), DEMOCRATIC)));
      && r.Success?
      && |r.value.cdmap.locations| == |chosen|
      && (forall i :: 0 <= i < |chosen| ==> r.value.cdmap.locations[i] == chosen[i].geoid)
      && r.value.cdmap.z == MapValues(chosen)
      && (r.value.cdmap.fitBounds <==> code != NATIONAL_CODE && code != "02" && code != "15")
      && r.value.cdmap.colorbar == Adapt(breakpoint).colorbar
      && r.value.cdmap.regionName == LookupName(directory, code).value
      && r.value.pie == PieFigure(Share(chosen), LookupName(directory, code).value)
      && r.value.hist.labels == LABELS
      && r.value.hist.series == [Bars(REPUBLICAN, countsR), Bars(DEMOCRATIC, countsD)]
      && r.value.hist.dtick == TickStep(if Max(countsD) >= Max(countsR) then Max(countsD) else Max(countsR))
      && (r.value.hist.showLegend <==> breakpoint != NARROW)
  {
    var s := Resolve(code);
    var chosen := Select(table, s);
    var name := LookupName(directory, code).value;
    var countsR := Counts(Rates(PartySelect(table, s, REPUBLICAN)));
    var countsD := Counts(Rates(PartySelect(table, s, DEMOCRATIC)));
    var layout := Adapt(breakpoint);
    var locations := seq(|chosen|, i requires 0 <= i < |chosen| => chosen[i].geoid);
    var expected := Figures(
      MapFigure(locations, MapValues(chosen), FitBounds(s), layout.colorbar, name),
      PieFigure(Share(chosen), name),
      HistFigure(
        LABELS,
        [Bars(REPUBLICAN, countsR), Bars(DEMOCRATIC, countsD)],
        TickStep(if Max(countsD) >= Max(countsR) then Max(countsD) else Max(countsR)),
        layout.showHistLegend));
    assert DisplayChoropleth(table, directory, breakpoint, Some(code)) == Success(expected);
    FitBoundsByCode(code);
  }

  /**
   * Every district on the map is counted exactly once in the histogram when
   * every district is D or R with a rate in [0, 1]: the two series together
   * count as many districts as the map shows.
   */
  lemma HistogramCountsMap(
    table: seq<District>, directory: seq<DirectoryEntry>, breakpoint: string, code: string)
    requires TwoParty(table) && RatesAreFractions(table)
    requires DisplayChoropleth(table, directory, breakpoint, Some(code)).Success?
    ensures var f := DisplayChoropleth(table, directory, breakpoint, Some(code)).value;
      Sum(f.hist.series[0].counts) + Sum(f.hist.series[1].counts) == |f.cdmap.locations|
  {
    var s := Resolve(code);
    var dems, reps := PartySelect(table, s, DEMOCRATIC), PartySelect(table, s, REPUBLICAN);
    PartySubsets(table, s);
    PartySizes(table, s);
    forall i | 0 <= i < |dems| ensures 0.0 <= Rates(dems)[i] <= 1.0 {
      assert dems[i] in multiset(table);
      var j :| 0 <= j < |table| && table[j] == dems[i];
    }
    forall i | 0 <= i < |reps| ensures 0.0 <= Rates(reps)[i] <= 1.0 {
      assert reps[i] in multiset(table);
      var j :| 0 <= j < |table| && table[j] == reps[i];
    }
    CountsCoverAll(Rates(dems));
    CountsCoverAll(Rates(reps));
  }

  /**
   * The national view in the wide layout: every district is on the map in
   * table order, the map is not fitted, the colorbar is vertical with the
   * fixed ticks, and the histogram shows its legend.
   */
  lemma NationalWide(table: seq<District>, directory: seq<DirectoryEntry>, breakpoint: string)
    requires LookupName(directory, NATIONAL_CODE).Some?
    requires breakpoint != NARROW
    ensures var r := DisplayChoropleth(table, directory, breakpoint, Some(NATIONAL_CODE));
      && r.Success?
      && |r.value.cdmap.locations| == |table|
      && (forall i :: 0 <= i < |table| ==> r.value.cdmap.locations[i] == table[i].geoid)
      && !r.value.cdmap.fitBounds
      && r.value.cdmap.colorbar.orientation == Vertical
      && r.value.cdmap.colorbar.tickText == ["30% (D)", "20% (D)", "10% (D)", "0%", "10% (R)", "20% (R)", "30% (R)"]
      && r.value.hist.showLegend
  {
    NationalSelectsAll(table);
  }

  /** The Democratic district of the two-district scenario below. */
  function ScenarioDem(): District {
    District("3601", "New York", "District 1", "D", 0.12, 1000, "36", "R1", "D2", -1)
  }

  /** The Republican district of the two-district scenario below. */
  function ScenarioRep(): District {
    District("3602", "New York", "District 2", "R", 0.22, 500, "36", "R1", "D2", 1)
  }

  /** The state code keeps both districts, and each party subset holds its one district. */
  lemma ScenarioSelection()
    ensures Select([ScenarioDem(), ScenarioRep()], Resolve("36")) == [ScenarioDem(), ScenarioRep()]
    ensures PartySelect([ScenarioDem(), ScenarioRep()], Resolve("36"), DEMOCRATIC) == [ScenarioDem()]
    ensures PartySelect([ScenarioDem(), ScenarioRep()], Resolve("36"), REPUBLICAN) == [ScenarioRep()]
    ensures FitBounds(Resolve("36"))
  {
    var table := [ScenarioDem(), ScenarioRep()];
    assert Resolve("36") == State("36");
    assert table[1..] == [ScenarioRep()] && [ScenarioRep()][1..] == [];
  }

  /** Rates 0.12 and 0.22 land in the buckets [10%, 15%) and [20%, 25%), and the tallest bar is 1. */
  lemma ScenarioCounts()
    ensures Counts(Rates([ScenarioDem()])) == [0, 0, 1, 0, 0, 0, 0, 0]
    ensures Counts(Rates([ScenarioRep()])) == [0, 0, 0, 0, 1, 0, 0, 0]
    ensures Max([0, 0, 1, 0, 0, 0, 0, 0]) == 1 && Max([0, 0, 0, 0, 1, 0, 0, 0]) == 1
  {
    assert Rates([ScenarioDem()]) == [0.12] && Rates([ScenarioRep()]) == [0.22];
    assert Bucket(0.12) == Some(2);
    assert Bucket(0.22) == Some(4);
  }

  /** The Democratic district is drawn at -0.12 and the Republican one at 0.22. */
  lemma ScenarioMapValues()
    ensures MapValues([ScenarioDem(), ScenarioRep()]) == [-0.12, 0.22]
  {
    var z := MapValues([ScenarioDem(), ScenarioRep()]);
    assert z[0] == -0.12 && z[1] == 0.22;
  }

  /** 500 of 1500 households live in the Republican district. */
  lemma ScenarioShare()
    ensures Share([ScenarioDem(), ScenarioRep()]) == Percent(100.0 / 3.0)
  {
    var table := [ScenarioDem(), ScenarioRep()];
    assert table[1..] == [ScenarioRep()] && [ScenarioRep()][1..] == [];
    assert Households(table) == 1500 && PartyHouseholds(table, REPUBLICAN) == 500;
    assert table[1].party == REPUBLICAN;
  }

  /**
   * One state with a Democratic district (1000 households, rate 0.12) and a
   * Republican one (500 households, rate 0.22), in the narrow layout: the
   * donut shows 100/3 percent, each series has its single district in its
   * bucket, the y-axis step is 1, and the map is fitted to the state.
   */
  lemma TwoDistrictState()
    ensures var r := DisplayChoropleth(
        [ScenarioDem(), ScenarioRep()], [DirectoryEntry("36", "New York")], NARROW, Some("36"));
      && r.Success?
      && r.value.pie.republicanShare == Percent(100.0 / 3.0)
      && r.value.hist.series == [Bars("R", [0, 0, 0, 0, 1, 0, 0, 0]), Bars("D", [0, 0, 1, 0, 0, 0, 0, 0])]
      && r.value.hist.dtick == 1
      && r.value.cdmap.z == [-0.12, 0.22]
      && r.value.cdmap.fitBounds
      && !r.value.hist.showLegend
  {
    ScenarioSelection();
    ScenarioCounts();
    ScenarioShare();
    ScenarioMapValues();
    assert LookupName([DirectoryEntry("36", "New York")], "36") == Some("New York");
  }
}

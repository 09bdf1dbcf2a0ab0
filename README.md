# SNAP participation by congressional district: model of the dashboard callback

This project models the one reactive callback of the Congressional District
SNAP Benefits Explorer, `display_choropleth` in `app.py`. The callback takes the
window-width breakpoint name and the geographic dropdown value. It returns
three figures built from the district table: a choropleth map of
participation rates signed by the winning party, a donut titled with the share
of SNAP households living in Republican districts, and a histogram of
Democratic and Republican districts over eight fixed rate buckets.

The district table and the region directory are loaded once at start-up and
never change. Here they are plain values handed to the callback: a
`seq<District>` and a `seq<DirectoryEntry>`. The callback has no loops and
changes no state, so the whole model is datatypes, functions and lemmas.

Modules, one per part of the callback:

- `Districts`: the row type of the district table.
- `Resolver`: classifies a dropdown code (`USA`, a region `R…`, a division
  `D…`, or a state FIPS code). It also gives the selected rows, the
  per-party histogram subsets, and the map's fit-to-bounds flag, including
  the Alaska/Hawaii exception.
- `Histogram`: `np.histogram` over the edges `[0, .05, …, .35, 1]` as exact
  reals. Bins are half-open except the last, which is closed at 1. Values
  outside [0, 1] are dropped.
- `Ticks`: the y-axis step as a function of the tallest bar.
- `Donut`: the Republican household share in the donut title, with its
  `'0.0'` fallback.
- `Layout`: the breakpoint-driven colorbar and legend settings, the shared
  tick values and labels, and the signed map value.
- `Dashboard`: the callback as a whole, including its two failure paths.
  These are a cleared dropdown (no value) and a code with no directory row.

Three behaviours of the code that are easy to misread, all modelled as the code has them:

- The last histogram bucket is closed at 1, not open-ended. A rate above 1
  is not counted.
- When the selection has a Republican group but no households at all,
  numpy's 0/0 gives NaN rather than raising. So the title then shows `nan`,
  not the `'0.0'` fallback. The model gives `Undefined` for this case.
- The `'0.0'` fallback is reached only when no Republican group exists.
  When Republican households are zero and the total is positive, the
  computed percentage is 0, which also displays as `0.0`.

## Model

| member | source | states |
|---|---|---|
| `Resolver.ResolveCode` | app.py:237-262 | every dropdown code is classified into a kind whose shape it has, and the code is recovered from the classification |
| `Resolver.CodeResolves` | app.py:237-262 | a well-formed selection is exactly what its own code resolves to (the classification is invertible) |
| `Resolver.Select` | app.py:237-262 | the selected rows hold each district exactly as often as the table does when the selection keeps it, and never otherwise |
| `Resolver.PartySelect` | app.py:241-262 | a histogram subset holds exactly the table's districts of that party that the selection keeps, with their multiplicity |
| `Resolver.NationalSelectsAll` | app.py:238-242 | `USA` selects the whole table in order and leaves the map unfitted |
| `Resolver.RegionCode` | app.py:243-247 | a code starting with `R` keeps exactly the districts whose region code equals it, and fits the map |
| `Resolver.DivisionCode` | app.py:248-252 | a code starting with `D` keeps exactly the districts whose division code equals it, and fits the map |
| `Resolver.StateCode` | app.py:253-262 | any other code keeps exactly the districts of that state; the map is fitted unless the code is `02` or `15` |
| `Resolver.FitBoundsByCode` | app.py:238-262 | the map is fitted for a code if and only if it is not `USA`, `02` or `15` |
| `Resolver.PartySubsets` | app.py:241-262 | the D and R subsets are disjoint and both inside the selection; when every party is D or R, together they are the selection |
| `Resolver.PartySizes` | app.py:241-262 | in a two-party table the two subsets' sizes add up to the selection's size |
| `Histogram.Bucket` | app.py:49-50 | a value gets a bucket if and only if it lies in [0, 1], and that bucket is the only one whose half-open range (closed at 1 for the last) holds it |
| `Histogram.Counts` | app.py:347-348 | the one-pass tally has eight counts, each equal to the number of values whose bucket it is |
| `Histogram.CountsTotal` | app.py:347-348 | the eight counts add up to the number of values in [0, 1] |
| `Histogram.NothingInRange` | app.py:347-348 | an input with no value in [0, 1], the empty input included, gives eight zeros |
| `Histogram.CountsCoverAll` | app.py:347-348 | when every value is in [0, 1], the counts add up to the number of values |
| `Histogram.Max` | app.py:352 | the maximum of the counts is one of them and no count exceeds it |
| `Ticks.TickStep` | app.py:352-363 | the step is one of 1, 2, 5, 10, 20; a maximum of 0 (or less) gives 1; it never exceeds a positive maximum; below 50 the maximum is under six steps |
| `Ticks.TickStepThresholds` | app.py:354-363 | the steps on both sides of each threshold: 0 and 5 give 1, 6 and 9 give 2, 10 and 24 give 5, 25 and 49 give 10, 50 gives 20 |
| `Ticks.TickStepMonotone` | app.py:354-363 | a larger maximum never gives a smaller step |
| `Donut.Share` | app.py:321-324 | the title falls back if and only if there is no Republican district; it is undefined if and only if one exists and the total is zero; otherwise the percentage times the total is 100 times the Republican households |
| `Donut.PartyHouseholdsBounded` | app.py:322 | with non-negative counts, a party's household sum lies between zero and the total |
| `Donut.PartyHouseholdsSplit` | app.py:312 | in a two-party selection, the D and R group sums add up to the total |
| `Donut.ShareInRange` | app.py:322 | with non-negative counts, the Republican percentage lies in [0, 100] |
| `Donut.SharesComplement` | app.py:322 | in a two-party selection with households, the R and D percentages add up to 100 |
| `Layout.Adapt` | app.py:202-232 | `sm` gives a horizontal colorbar below the map with its title on top and no histogram legend; anything else gives a vertical colorbar left of the map and shows the legend; both use the same ticks and title |
| `Layout.TicksAgree` | app.py:39-40 | seven tick values and seven labels; each label is the whole percentage of its value with the party of its side; the values increase, are symmetric about 0 and span the clipped range ±0.30 |
| `Layout.MapValue` | app.py:268 | a district with multiplier 1 is drawn at its rate, one with multiplier -1 at minus its rate |
| `Layout.MapValueMagnitude` | app.py:268 | with a unit multiplier the map value's magnitude is the rate, and a positive rate's sign is the multiplier's |
| `Dashboard.LookupName` | app.py:282 | the lookup fails if and only if no directory row has the code; otherwise it gives the name of the first such row |
| `Dashboard.DisplayChoropleth` | app.py:199-410 | a cleared dropdown fails; a code fails if and only if the directory lacks it; on success the histogram has two series of eight counts |
| `Dashboard.FiguresFollowSelection` | app.py:199-410 | for every known code and breakpoint: the map shows the selected districts' geoids in order with their signed rates, is fitted unless the code is `USA`, `02` or `15`, and carries the breakpoint's colorbar; the donut shows the selection's R share; the histogram has the eight bucket labels, the R then D tallies of the party subsets, the step of the taller bar, and the legend unless `sm` |
| `Dashboard.HistogramCountsMap` | app.py:237-348 | with two parties and rates in [0, 1], the two histogram series together count exactly the districts on the map |
| `Dashboard.NationalWide` | app.py:218-242 | the national view in the wide layout maps every district in table order, unfitted, with a vertical colorbar, the fixed labels and a visible legend |
| `Dashboard.TwoDistrictState` | app.py:199-363 | for one state with a D district (1000 households, 12%) and an R district (500, 22%) in the narrow layout: share 100/3 %, one bar each in the third and fifth buckets, [10%,15%) and [20%,25%), step 1, values -0.12 and 0.22, map fitted, no legend |

## Left out

- Reading `data/processed.geojson` and `data/fips.csv` and building the dropdown options: file I/O. The table and the directory are inputs here.
- The Dash app, its layout, the `WindowBreakpoints` component and the server start-up: UI and hosting. An unset breakpoint is any string other than `sm`.
- Plotly figure construction: the colour scale, fonts, margins, titles' surrounding text, the hover template and its `abs(round(rate*100, 2))` values, and the geojson sent to the map. These are foreign library calls; the map keeps only its locations, values, fit flag, colorbar and region name.
- The donut's slices (groupby labels, sums and colours per party): figure construction. Only the title share and the per-party household sums behind it are modelled.
- Floating point: rates, edges and tick values are exact reals. So a rate that is exactly an edge such as 0.1 is bucketed by real comparison, not by its binary double.
- Donut.Share: does not model rounding to one decimal or the conversion to a string. The model returns the exact percentage, and `Undefined` stands for numpy's NaN.
- NaN rates (dropped by numpy's histogram) and the pandas dtype chosen when reading codes: the model's codes are strings and its rates are reals.

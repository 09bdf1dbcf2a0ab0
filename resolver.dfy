/**
 * The selection resolver at the top of the callback: it reads the dropdown
 * code, decides which districts are shown and whether the map is fitted to
 * them, and derives the Democratic and Republican subsets the histogram uses.
 */
module Resolver {
  import opened Districts

  /** The dropdown's "whole country" code; it is not a column value of any district. */
  const NATIONAL_CODE: string := "USA"
  /** Alaska and Hawaii: state codes whose maps are never fitted to the selection. */
  const UNFITTABLE_STATES: set<string> := {"02", "15"}

  /** The four kinds of dropdown code. */
  datatype Selection = National | Region(code: string) | Division(code: string) | State(code: string)

  /** The first character of a code as a string, like Python's `code[:1]`. */
  function Head(code: string): (h: string)
    ensures |code| > 0 ==> h == [code[0]]
    ensures |code| == 0 ==> h == ""
  {
    if |code| == 0 then "" else code[..1]
  }

  /** Classifies a dropdown code, testing in the order of the callback's branches. */
  function Resolve(code: string): Selection {
    if code == NATIONAL_CODE then National
    else if Head(code) == "R" then Region(code)
    else if Head(code) == "D" then Division(code)
    else State(code)
  }

  /** The dropdown code a selection came from. */
  function Code(s: Selection): string {
    match s
    case National => NATIONAL_CODE
    case Region(c) => c
    case Division(c) => c
    case State(c) => c
  }

  /** A selection whose code has the shape of its kind. */
  predicate WellFormed(s: Selection) {
    match s
    case National => true
    case Region(c) => Head(c) == "R"
    case Division(c) => Head(c) == "D"
    case State(c) => c != NATIONAL_CODE && Head(c) != "R" && Head(c) != "D"
  }

  /** Does the selection keep district `d`? */
  predicate Selects(s: Selection, d: District) {
    match s
    case National => true
    case Region(c) => d.regionCode == c
    case Division(c) => d.divisionCode == c
    case State(c) => d.stateFips == c
  }

  /** The map's fitbounds setting: 'geojson' (true) or None (false). */
  predicate FitBounds(s: Selection) {
    match s
    case National => false
    case Region(_) => true
    case Division(_) => true
    case State(c) => c !in UNFITTABLE_STATES
  }

  /** cd_select: the districts the selection keeps, in table order. */
  function Select(table: seq<District>, s: Selection): (r: seq<District>)
    ensures forall d :: multiset(r)[d] == if Selects(s, d) then multiset(table)[d] else 0
    ensures forall i :: 0 <= i < |r| ==> Selects(s, r[i])
    decreases |table|
  {
    if |table| == 0 then []
    else
      assert table == [table[0]] + table[1..];
      var rest := Select(table[1..], s);
      if Selects(s, table[0]) then [table[0]] + rest else rest
  }

  /** hist_select_d / hist_select_r: the districts of one party that the selection keeps. */
  function PartySelect(table: seq<District>, s: Selection, party: string): (r: seq<District>)
    ensures forall d :: multiset(r)[d] == if d.party == party && Selects(s, d) then multiset(table)[d] else 0
    ensures forall i :: 0 <= i < |r| ==> r[i].party == party && Selects(s, r[i])
    decreases |table|
  {
    if |table| == 0 then []
    else
      assert table == [table[0]] + table[1..];
      var rest := PartySelect(table[1..], s, party);
      if table[0].party == party && Selects(s, table[0]) then [table[0]] + rest else rest
  }

  /** Resolving a code loses nothing: the code comes back, with the shape of its kind. */
  lemma ResolveCode(code: string)
    ensures WellFormed(Resolve(code))
    ensures Code(Resolve(code)) == code
  {
  }

  /** A well-formed selection is what its own code resolves to. */
  lemma CodeResolves(s: Selection)
    requires WellFormed(s)
    ensures Resolve(Code(s)) == s
  {
  }

  /** The national code keeps every district, in table order, and does not fit the map. */
  lemma {:induction false} NationalSelectsAll(table: seq<District>)
    ensures Select(table, Resolve(NATIONAL_CODE)) == table
    ensures !FitBounds(Resolve(NATIONAL_CODE))
  {
    if |table| > 0 {
      NationalSelectsAll(table[1..]);
    }
  }

  /** A code starting with 'R' keeps exactly the districts of that region and fits the map. */
  lemma RegionCode(code: string, d: District)
    requires Head(code) == "R"
    ensures Selects(Resolve(code), d) <==> d.regionCode == code
    ensures FitBounds(Resolve(code))
  {
  }

  /** A code starting with 'D' keeps exactly the districts of that division and fits the map. */
  lemma DivisionCode(code: string, d: District)
    requires Head(code) == "D"
    ensures Selects(Resolve(code), d) <==> d.divisionCode == code
    ensures FitBounds(Resolve(code))
  {
  }

  /**
   * Any other code is a state code: it keeps the districts of that state and
   * fits the map except for Alaska and Hawaii.
   */
  lemma StateCode(code: string, d: District)
    requires code != NATIONAL_CODE && Head(code) != "R" && Head(code) != "D"
    ensures Selects(Resolve(code), d) <==> d.stateFips == code
    ensures FitBounds(Resolve(code)) <==> code != "02" && code != "15"
  {
  }

  /** The map is fitted for every code except the national one, Alaska and Hawaii. */
  lemma FitBoundsByCode(code: string)
    ensures FitBounds(Resolve(code)) <==> code != NATIONAL_CODE && code != "02" && code != "15"
  {
  }

  /** A district of a two-party table belongs to one of the two parties. */
  lemma TwoPartyMember(table: seq<District>, d: District)
    requires TwoParty(table) && d in multiset(table)
    ensures d.party == DEMOCRATIC || d.party == REPUBLICAN
  {
    var i :| 0 <= i < |table| && table[i] == d;
  }

  /**
   * The two histogram subsets are disjoint, both lie inside the selection,
   * and together they are the selection when every district is D or R.
   */
  lemma PartySubsets(table: seq<District>, s: Selection)
    ensures multiset(PartySelect(table, s, DEMOCRATIC)) <= multiset(Select(table, s))
    ensures multiset(PartySelect(table, s, REPUBLICAN)) <= multiset(Select(table, s))
    ensures multiset(PartySelect(table, s, DEMOCRATIC)) !! multiset(PartySelect(table, s, REPUBLICAN))
    ensures TwoParty(table) ==>
      multiset(PartySelect(table, s, DEMOCRATIC)) + multiset(PartySelect(table, s, REPUBLICAN))
        == multiset(Select(table, s))
  {
    var dems, reps, all := multiset(PartySelect(table, s, DEMOCRATIC)), multiset(PartySelect(table, s, REPUBLICAN)), multiset(Select(table, s));
    forall d
      ensures dems[d] <= all[d] && reps[d] <= all[d]
      ensures dems[d] == 0 || reps[d] == 0
      ensures TwoParty(table) ==> dems[d] + reps[d] == all[d]
    {
      if TwoParty(table) && d in multiset(table) {
        TwoPartyMember(table, d);
      }
    }
    if TwoParty(table) {
      assert dems + reps == all;
    }
  }

  /** The histogram subsets hold as many districts as the selection when every district is D or R. */
  lemma PartySizes(table: seq<District>, s: Selection)
    requires TwoParty(table)
    ensures |PartySelect(table, s, DEMOCRATIC)| + |PartySelect(table, s, REPUBLICAN)| == |Select(table, s)|
  {
    PartySubsets(table, s);
    assert |multiset(PartySelect(table, s, DEMOCRATIC)) + multiset(PartySelect(table, s, REPUBLICAN))|
      == |multiset(Select(table, s))|;
  }
}

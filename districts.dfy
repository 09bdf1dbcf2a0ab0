/**
 * The congressional-district table the dashboard reads once at start-up and
 * never changes. Each row is one district of the joined geospatial table.
 */
module Districts {

  /**
   * One district. The fields are the table's columns: `geoid` is GEOID,
   * `stateName` is state, `districtName` is NAMELSAD, `party` is PARTY,
   * `rate` is hh_snap_pct (a fraction), `households` is hh_snap,
   * `stateFips` is STATEFP, `regionCode` is reg_codes, `divisionCode` is
   * div_codes and `partyNum` is PARTYNUM (the sign used on the map).
   */
  datatype District = District(
    geoid: string,
    stateName: string,
    districtName: string,
    party: string,
    rate: real,
    households: int,
    stateFips: string,
    regionCode: string,
    divisionCode: string,
    partyNum: int)

  const DEMOCRATIC: string := "D"
  const REPUBLICAN: string := "R"

  /** Every district is won by one of the two parties the charts know. */
  predicate TwoParty(rows: seq<District>) {
    forall i :: 0 <= i < |rows| ==> rows[i].party == DEMOCRATIC || rows[i].party == REPUBLICAN
  }

  /** Every participation rate is a fraction in [0, 1]. */
  predicate RatesAreFractions(rows: seq<District>) {
    forall i :: 0 <= i < |rows| ==> 0.0 <= rows[i].rate <= 1.0
  }

  /** No district has a negative household count. */
  predicate NonNegativeHouseholds(rows: seq<District>) {
    forall i :: 0 <= i < |rows| ==> rows[i].households >= 0
  }

  /** The hh_snap_pct column of the rows, in row order. */
  function Rates(rows: seq<District>): (r: seq<real>)
    ensures |r| == |rows|
    ensures forall i :: 0 <= i < |rows| ==> r[i] == rows[i].rate
  {
    seq(|rows|, i requires 0 <= i < |rows| => rows[i].rate)
  }
}

/** The donut chart's title figure: the share of SNAP households living in Republican districts. */
module Donut {
  import opened Districts

  /**
   * What the title shows: the '0.0' fallback when the selection has no
   * Republican district, the exact percentage otherwise, or an undefined
   * value when the selection holds no households at all.
   */
  datatype RepublicanShare = Fallback | Percent(value: real) | Undefined

  /** Sum of hh_snap over the rows. */
  function Households(rows: seq<District>): int {
    if |rows| == 0 then 0 else rows[0].households + Households(rows[1..])
  }

  /** Sum of hh_snap over the rows of one party: its groupby group's total. */
  function PartyHouseholds(rows: seq<District>, party: string): int {
    if |rows| == 0 then 0
    else (if rows[0].party == party then rows[0].households else 0) + PartyHouseholds(rows[1..], party)
  }

  /** Does the groupby have a group for `party`? */
  predicate HasParty(rows: seq<District>, party: string) {
    exists i :: 0 <= i < |rows| && rows[i].party == party
  }

  /** pie_temp before rounding and formatting. */
  function Share(rows: seq<District>): (s: RepublicanShare)
    ensures s.Fallback? <==> !HasParty(rows, REPUBLICAN)
    ensures s.Undefined? <==> HasParty(rows, REPUBLICAN) && Households(rows) == 0
    ensures s.Percent? ==>
      s.value * (Households(rows) as real) == 100.0 * (PartyHouseholds(rows, REPUBLICAN) as real)
  {
    if !HasParty(rows, REPUBLICAN) then Fallback
    else if Households(rows) == 0 then Undefined
    else Percent(100.0 * (PartyHouseholds(rows, REPUBLICAN) as real) / (Households(rows) as real))
  }

  /** With no negative counts, one party's households lie between zero and the total. */
  lemma {:induction false} PartyHouseholdsBounded(rows: seq<District>, party: string)
    requires NonNegativeHouseholds(rows)
    ensures 0 <= PartyHouseholds(rows, party) <= Households(rows)
  {
    if |rows| > 0 {
      PartyHouseholdsBounded(rows[1..], party);
    }
  }

  /** In a two-party selection the two groups' totals make up the whole. */
  lemma {:induction false} PartyHouseholdsSplit(rows: seq<District>)
    requires TwoParty(rows)
    ensures PartyHouseholds(rows, DEMOCRATIC) + PartyHouseholds(rows, REPUBLICAN) == Households(rows)
  {
    if |rows| > 0 {
      PartyHouseholdsSplit(rows[1..]);
    }
  }

  /** With no negative counts, the percentage shown lies in [0, 100]. */
  lemma ShareInRange(rows: seq<District>)
    requires NonNegativeHouseholds(rows)
    ensures Share(rows).Percent? ==> 0.0 <= Share(rows).value <= 100.0
  {
    PartyHouseholdsBounded(rows, REPUBLICAN);
  }

  /**
   * In a two-party selection with a positive total, the Republican
   * percentage and the Democratic one (computed the same way) add up to 100.
   */
  lemma SharesComplement(rows: seq<District>)
    requires TwoParty(rows) && HasParty(rows, REPUBLICAN) && Households(rows) > 0
    ensures Share(rows).Percent?
    ensures Share(rows).value + 100.0 * (PartyHouseholds(rows, DEMOCRATIC) as real) / (Households(rows) as real) == 100.0
  {
    PartyHouseholdsSplit(rows);
  }
}

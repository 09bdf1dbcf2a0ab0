/** The histogram's y-axis tick spacing, chosen from the tallest bar. */
module Ticks {

  /**
   * The dtick for a tallest bar of `histMax` districts. Below 50 the axis
   * never shows six or more gridlines, and the step never exceeds a
   * positive maximum, so at least one gridline above zero is drawn.
   */
  function TickStep(histMax: int): (step: nat)
    ensures step in {1, 2, 5, 10, 20}
    ensures histMax <= 0 ==> step == 1
    ensures histMax >= 1 ==> step <= histMax
    ensures histMax < 50 ==> histMax < 6 * step
  {
    if histMax >= 50 then 20
    else if histMax >= 25 then 10
    else if histMax >= 10 then 5
    else if histMax >= 6 then 2
    else 1
  }

  /** A taller maximum never gives a finer step. */
  lemma TickStepMonotone(a: int, b: int)
    requires a <= b
    ensures TickStep(a) <= TickStep(b)
  {
  }

  /**
   * The steps on both sides of each threshold. With monotonicity and the
   * five possible steps, these values pin the step at every maximum.
   */
  lemma TickStepThresholds()
    ensures TickStep(0) == 1 && TickStep(5) == 1
    ensures TickStep(6) == 2 && TickStep(9) == 2
    ensures TickStep(10) == 5 && TickStep(24) == 5
    ensures TickStep(25) == 10 && TickStep(49) == 10
    ensures TickStep(50) == 20
  {
  }
}

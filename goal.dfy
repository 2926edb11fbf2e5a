/**
 * Comparison of the monthly usage with the user's target: either the amount by
 * which usage exceeds the goal, or the margin left below it.
 */
module Goal {
  import opened Results

  /** The feedback shown: a warning with the excess, or a success with the margin left. */
  datatype Feedback = Exceeded(excess: real) | WithinGoal(margin: real)

  /**
   * Compares the usage `total` with the integer goal. A zero goal is falsy and yields
   * no feedback at all; otherwise usage above the goal is reported as its excess and
   * usage at or below the goal as the margin that remains.
   */
  function Compare(total: real, goal: int): (f: Option<Feedback>)
    ensures f.None? <==> goal == 0
    ensures f.Some? ==> (f.value.Exceeded? <==> total > goal as real)
    ensures f.Some? && f.value.Exceeded? ==> f.value.excess > 0.0 && goal as real + f.value.excess == total
    ensures f.Some? && f.value.WithinGoal? ==> f.value.margin >= 0.0 && total + f.value.margin == goal as real
  {
    if goal == 0 then None
    else if total > goal as real then Some(Exceeded(total - goal as real))
    else Some(WithinGoal(goal as real - total))
  }

  /** Worked values: 250 kWh against 200 exceeds by 50; 150 kWh against 200 leaves 50. */
  lemma CompareExamples()
    ensures Compare(250.0, 200) == Some(Exceeded(50.0))
    ensures Compare(150.0, 200) == Some(WithinGoal(50.0))
    ensures Compare(200.0, 200) == Some(WithinGoal(0.0))
  {
  }
}

/**
 * The three-bracket progressive electricity tariff applied to the monthly total:
 * the first 200 kWh at 100 per kWh, the next 200 kWh at 200 per kWh and
 * everything above 400 kWh at 300 per kWh.
 */
module Tariff {

  const FIRST_LIMIT: real := 200.0
  const SECOND_LIMIT: real := 400.0
  const FIRST_RATE: real := 100.0
  const SECOND_RATE: real := 200.0
  const THIRD_RATE: real := 300.0

  /** The charge of the first branch, used up to 200 kWh. */
  function FirstBranch(e: real): real
  {
    e * FIRST_RATE
  }

  /** The charge of the second branch: the first bracket in full, then the rest at the second rate. */
  function SecondBranch(e: real): real
  {
    FIRST_LIMIT * FIRST_RATE + (e - FIRST_LIMIT) * SECOND_RATE
  }

  /** The charge of the third branch: both lower brackets in full, then the rest at the third rate. */
  function ThirdBranch(e: real): real
  {
    FIRST_LIMIT * FIRST_RATE + (SECOND_LIMIT - FIRST_LIMIT) * SECOND_RATE + (e - SECOND_LIMIT) * THIRD_RATE
  }

  /** The monthly bill for `e` kWh, chosen branch by branch as the dashboard does. */
  function Bill(e: real): (b: real)
    ensures e >= 0.0 ==> FIRST_RATE * e <= b <= THIRD_RATE * e
    ensures e >= 0.0 ==> b >= 0.0
    ensures e <= FIRST_LIMIT ==> b == FIRST_RATE * e
  {
    if e <= FIRST_LIMIT then FirstBranch(e)
    else if e <= SECOND_LIMIT then SecondBranch(e)
    else ThirdBranch(e)
  }

  /** How much of `e` falls into the bracket from `lo` to `hi`. */
  function Portion(e: real, lo: real, hi: real): (p: real)
    requires lo <= hi
    ensures 0.0 <= p <= hi - lo
  {
    if e <= lo then 0.0 else if e >= hi then hi - lo else e - lo
  }

  /**
   * Independent reference: a progressive schedule charges each bracket at its own
   * rate for exactly the part of the usage that falls into it.
   */
  function BracketBill(e: real): real
  {
    FIRST_RATE * Portion(e, 0.0, FIRST_LIMIT)
    + SECOND_RATE * Portion(e, FIRST_LIMIT, SECOND_LIMIT)
    + THIRD_RATE * (if e <= SECOND_LIMIT then 0.0 else e - SECOND_LIMIT)
  }

  /** For every non-negative usage the branch-by-branch bill is the bracket-by-bracket bill. */
  lemma BillIsProgressive(e: real)
    requires e >= 0.0
    ensures Bill(e) == BracketBill(e)
  {
  }

  /** At each bracket edge the two neighbouring branches give the same charge. */
  lemma BranchesMeetAtEdges()
    ensures FirstBranch(FIRST_LIMIT) == SecondBranch(FIRST_LIMIT) == 20000.0
    ensures SecondBranch(SECOND_LIMIT) == ThirdBranch(SECOND_LIMIT) == 60000.0
  {
  }

  /**
   * Between any two usages the bill rises by at least the lowest rate and at most
   * the highest rate per kWh of difference: it never decreases, and it is continuous.
   */
  lemma BillIncrement(e1: real, e2: real)
    requires e1 <= e2
    ensures FIRST_RATE * (e2 - e1) <= Bill(e2) - Bill(e1) <= THIRD_RATE * (e2 - e1)
  {
  }

  /** The bill never decreases as usage grows. */
  lemma BillMonotone(e1: real, e2: real)
    requires e1 <= e2
    ensures Bill(e1) <= Bill(e2)
  {
    BillIncrement(e1, e2);
  }

  /** Worked values: 150 kWh, 300 kWh and 500 kWh, and the two edges. */
  lemma BillExamples()
    ensures Bill(150.0) == 15000.0
    ensures Bill(200.0) == 20000.0
    ensures Bill(300.0) == 40000.0
    ensures Bill(400.0) == 60000.0
    ensures Bill(500.0) == 90000.0
    ensures Bill(0.0) == 0.0
  {
  }
}

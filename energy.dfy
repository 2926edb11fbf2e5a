/**
 * Energy drawn by the appliances of the calculator tab: each row's daily and
 * monthly consumption in kWh, and the monthly total over the whole table.
 */
module Energy {

  /** One row of the appliance table: a name, the power draw in watts and the hours of use per day. */
  datatype Device = Device(name: string, watts: int, hours: int)

  /** The month is fixed at thirty days. */
  const DAYS_PER_MONTH: int := 30

  /** Daily consumption in kWh: watts times hours, divided by 1000. */
  function DailyKWh(d: Device): (e: real)
    ensures e * 1000.0 == (d.watts * d.hours) as real
  {
    (d.watts * d.hours) as real / 1000.0
  }

  /** Monthly consumption in kWh: the daily figure over a thirty-day month. */
  function MonthlyKWh(d: Device): (e: real)
    ensures e * 1000.0 == (DAYS_PER_MONTH * (d.watts * d.hours)) as real
  {
    DailyKWh(d) * DAYS_PER_MONTH as real
  }

  /**
   * The total monthly consumption: the monthly figures summed over every row. When
   * every row is stored with power and hours at least 1, it is at least 0.03 kWh per
   * row, and so never negative.
   */
  function TotalMonthlyKWh(rows: seq<Device>): (t: real)
    ensures (forall i :: 0 <= i < |rows| ==> Stored(rows[i])) ==> t >= 0.03 * |rows| as real && t >= 0.0
  {
    if rows == [] then 0.0 else MonthlyKWh(rows[0]) + TotalMonthlyKWh(rows[1..])
  }

  /** Independent reference: the daily watt-hours of all rows, in exact integers. */
  function DailyWattHours(rows: seq<Device>): int
  {
    if rows == [] then 0 else rows[0].watts * rows[0].hours + DailyWattHours(rows[1..])
  }

  /** A row the form can store: power and hours are both at least 1. */
  predicate Stored(d: Device)
  {
    d.watts >= 1 && d.hours >= 1
  }

  /** An empty table draws nothing. */
  lemma TotalOfEmpty()
    ensures TotalMonthlyKWh([]) == 0.0
  {
  }

  /** The monthly total in kWh is thirty times the daily watt-hours, divided by 1000. */
  lemma {:induction false} TotalIsScaledWattHours(rows: seq<Device>)
    ensures TotalMonthlyKWh(rows) * 1000.0 == (DAYS_PER_MONTH * DailyWattHours(rows)) as real
  {
    if rows != [] {
      TotalIsScaledWattHours(rows[1..]);
    }
  }

  /** The total over two tables laid end to end is the sum of their totals. */
  lemma {:induction false} TotalOfConcat(a: seq<Device>, b: seq<Device>)
    ensures TotalMonthlyKWh(a + b) == TotalMonthlyKWh(a) + TotalMonthlyKWh(b)
  {
    if a == [] {
      assert a + b == b;
    } else {
      assert (a + b)[1..] == a[1..] + b;
      TotalOfConcat(a[1..], b);
    }
  }

  /** A stored row draws at least 1 Wh a day, so at least 0.03 kWh a month. */
  lemma StoredRowDrawsAtLeast(d: Device)
    requires Stored(d)
    ensures MonthlyKWh(d) >= 0.03
  {
    assert d.watts * d.hours >= 1 * d.hours;
  }
}

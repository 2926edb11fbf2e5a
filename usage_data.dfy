/**
 * The data tab: rows of per-district monthly household figures loaded from a file,
 * the rows of one district, and the per-period totals with the per-household
 * figures derived from them.
 */
module UsageData {
  import opened Results
  import opened NumberText

  /** A row as it comes from the file: the household count and the bill are comma-grouped text. */
  datatype RawRow = RawRow(district: string, period: string, households: string, usage: real, bill: string)

  /** A loaded row: target households, average usage per household in kWh, average bill per household. */
  datatype Row = Row(district: string, period: string, households: int, usage: real, bill: int)

  /** The two columns converted from grouped text. */
  datatype Column = HouseholdsColumn | BillColumn

  /** A value of `column` in row `row` that is not an integer once its commas are removed. */
  datatype LoadError = BadNumber(column: Column, row: nat)

  /**
   * Converts a whole column: the values of all rows when every one parses, otherwise
   * the first row whose value does not.
   */
  function ParseColumn(texts: seq<string>): (r: Result<seq<int>, nat>)
    ensures r.Ok? ==> |r.value| == |texts| &&
                      forall i :: 0 <= i < |texts| ==> ParseGrouped(texts[i]) == Some(r.value[i])
    ensures r.Err? ==> r.error < |texts| && ParseGrouped(texts[r.error]).None? &&
                       forall i :: 0 <= i < r.error ==> ParseGrouped(texts[i]).Some?
  {
    if texts == [] then Ok([])
    else match ParseGrouped(texts[0])
      case None => Err(0)
      case Some(v) =>
        match ParseColumn(texts[1..])
        case Ok(vs) => Ok([v] + vs)
        case Err(i) => Err(i + 1)
  }

  function HouseholdTexts(raw: seq<RawRow>): (t: seq<string>)
    ensures |t| == |raw| && forall i :: 0 <= i < |raw| ==> t[i] == raw[i].households
  {
    seq(|raw|, i requires 0 <= i < |raw| => raw[i].households)
  }

  function BillTexts(raw: seq<RawRow>): (t: seq<string>)
    ensures |t| == |raw| && forall i :: 0 <= i < |raw| ==> t[i] == raw[i].bill
  {
    seq(|raw|, i requires 0 <= i < |raw| => raw[i].bill)
  }

  /**
   * Loading: the household column is converted first, then the bill column; the
   * first value that fails stops the load. Otherwise each row keeps its district,
   * period and usage and gets the two parsed integers.
   */
  function Load(raw: seq<RawRow>): (r: Result<seq<Row>, LoadError>)
    ensures r.Ok? ==> (|r.value| == |raw| &&
      forall i :: 0 <= i < |raw| ==>
        r.value[i].district == raw[i].district && r.value[i].period == raw[i].period &&
        r.value[i].usage == raw[i].usage &&
        ParseGrouped(raw[i].households) == Some(r.value[i].households) &&
        ParseGrouped(raw[i].bill) == Some(r.value[i].bill))
    ensures r.Err? && r.error.column == HouseholdsColumn ==>
      (r.error.row < |raw| && ParseGrouped(raw[r.error.row].households).None? &&
       forall i :: 0 <= i < r.error.row ==> ParseGrouped(raw[i].households).Some?)
    ensures r.Err? && r.error.column == BillColumn ==>
      ((forall i :: 0 <= i < |raw| ==> ParseGrouped(raw[i].households).Some?) &&
       r.error.row < |raw| && ParseGrouped(raw[r.error.row].bill).None? &&
       forall i :: 0 <= i < r.error.row ==> ParseGrouped(raw[i].bill).Some?)
  {
    match ParseColumn(HouseholdTexts(raw))
    case Err(i) => Err(BadNumber(HouseholdsColumn, i))
    case Ok(hs) =>
      match ParseColumn(BillTexts(raw))
      case Err(i) => Err(BadNumber(BillColumn, i))
      case Ok(bs) =>
        Ok(seq(|raw|, i requires 0 <= i < |raw| => Row(raw[i].district, raw[i].period, hs[i], raw[i].usage, bs[i])))
  }

  /** Loading succeeds exactly when every household count and every bill parses. */
  lemma LoadSucceedsIff(raw: seq<RawRow>)
    ensures Load(raw).Ok? <==>
      forall i :: 0 <= i < |raw| ==> ParseGrouped(raw[i].households).Some? && ParseGrouped(raw[i].bill).Some?
  {
    if Load(raw).Err? {
      var e := Load(raw).error;
      assert e.row < |raw|;
    }
  }

  // ---------------------------------------------------------------------------
  // District filter

  /** The rows of one district, in the order they were loaded. */
  function ForDistrict(rows: seq<Row>, d: string): (r: seq<Row>)
    ensures |r| <= |rows|
    ensures forall i :: 0 <= i < |r| ==> r[i].district == d
  {
    if rows == [] then []
    else if rows[0].district == d then [rows[0]] + ForDistrict(rows[1..], d)
    else ForDistrict(rows[1..], d)
  }

  /** Filtering two runs of rows laid end to end keeps each run's rows in place: the order is kept. */
  lemma {:induction false} ForDistrictConcat(a: seq<Row>, b: seq<Row>, d: string)
    ensures ForDistrict(a + b, d) == ForDistrict(a, d) + ForDistrict(b, d)
  {
    if a == [] {
      assert a + b == b;
    } else {
      assert (a + b)[1..] == a[1..] + b;
      ForDistrictConcat(a[1..], b, d);
    }
  }

  /** Every row of the district is kept as often as it occurs, and every other row is dropped. */
  lemma {:induction false} ForDistrictCount(rows: seq<Row>, d: string, x: Row)
    ensures multiset(ForDistrict(rows, d))[x] == if x.district == d then multiset(rows)[x] else 0
  {
    if rows != [] {
      assert rows == [rows[0]] + rows[1..];
      ForDistrictCount(rows[1..], d, x);
    }
  }

  /** Rows that all belong to the district are kept as they are. */
  lemma {:induction false} ForDistrictKeepsAll(rows: seq<Row>, d: string)
    requires forall i :: 0 <= i < |rows| ==> rows[i].district == d
    ensures ForDistrict(rows, d) == rows
  {
    if rows != [] {
      ForDistrictKeepsAll(rows[1..], d);
    }
  }

  /** Filtering twice for the same district changes nothing more. */
  lemma ForDistrictIdempotent(rows: seq<Row>, d: string)
    ensures ForDistrict(ForDistrict(rows, d), d) == ForDistrict(rows, d)
  {
    ForDistrictKeepsAll(ForDistrict(rows, d), d);
  }

  // ---------------------------------------------------------------------------
  // Aggregation by period

  /** The three sums kept per period. */
  datatype Totals = Totals(households: int, usage: real, bill: int)

  const ZERO_TOTALS: Totals := Totals(0, 0.0, 0)

  function Plus(a: Totals, b: Totals): Totals
  {
    Totals(a.households + b.households, a.usage + b.usage, a.bill + b.bill)
  }

  function Contribution(r: Row): Totals
  {
    Totals(r.households, r.usage, r.bill)
  }

  /** The rows of one period, in order. */
  function InPeriod(rows: seq<Row>, p: string): (r: seq<Row>)
    ensures forall i :: 0 <= i < |r| ==> r[i].period == p
  {
    if rows == [] then []
    else if rows[0].period == p then [rows[0]] + InPeriod(rows[1..], p)
    else InPeriod(rows[1..], p)
  }

  /** Every row of the period is selected as often as it occurs, and every other row is dropped. */
  lemma {:induction false} InPeriodCount(rows: seq<Row>, p: string, x: Row)
    ensures multiset(InPeriod(rows, p))[x] == if x.period == p then multiset(rows)[x] else 0
  {
    if rows != [] {
      assert rows == [rows[0]] + rows[1..];
      InPeriodCount(rows[1..], p, x);
    }
  }

  /** Reference: households, usage and bill each summed over a run of rows. */
  function Sum(rows: seq<Row>): Totals
  {
    if rows == [] then ZERO_TOTALS else Plus(Contribution(rows[0]), Sum(rows[1..]))
  }

  /** The periods that occur in the rows. */
  function Periods(rows: seq<Row>): set<string>
  {
    set i | 0 <= i < |rows| :: rows[i].period
  }

  /** Adds one row to the running totals of its period. */
  function AddRow(m: map<string, Totals>, r: Row): map<string, Totals>
  {
    m[r.period := Plus(Contribution(r), if r.period in m then m[r.period] else ZERO_TOTALS)]
  }

  /** Groups the rows by period, accumulating the three sums of each group. */
  function Aggregate(rows: seq<Row>): map<string, Totals>
  {
    if rows == [] then map[] else AddRow(Aggregate(rows[1..]), rows[0])
  }

  /** There is one group for each period that occurs, and no other. */
  lemma {:induction false} AggregateKeys(rows: seq<Row>)
    ensures Aggregate(rows).Keys == Periods(rows)
  {
    if rows != [] {
      AggregateKeys(rows[1..]);
      assert Periods(rows) == {rows[0].period} + Periods(rows[1..]) by {
        forall q | q in Periods(rows) ensures q in {rows[0].period} + Periods(rows[1..]) {
          var i :| 0 <= i < |rows| && rows[i].period == q;
          if i > 0 {
            assert rows[1..][i - 1].period == q;
          }
        }
        forall q | q in Periods(rows[1..]) ensures q in Periods(rows) {
          var i :| 0 <= i < |rows[1..]| && rows[1..][i].period == q;
          assert rows[i + 1].period == q;
        }
      }
    }
  }

  /** Each group's totals are the sums over that period's rows (with zero for a period that does not occur). */
  lemma {:induction false} AggregateSums(rows: seq<Row>, p: string)
    ensures (if p in Aggregate(rows) then Aggregate(rows)[p] else ZERO_TOTALS) == Sum(InPeriod(rows, p))
  {
    if rows != [] {
      AggregateSums(rows[1..], p);
    }
  }

  /** The per-period summary behind the trend chart. */
  datatype Summary = Summary(totals: Totals, usagePerHousehold: Option<real>, billPerHousehold: Option<real>)

  /**
   * The per-household figures are the totals divided by the household count; with
   * no households they are undefined.
   */
  function Summarize(t: Totals): (s: Summary)
    ensures s.totals == t
    ensures s.usagePerHousehold.Some? <==> t.households != 0
    ensures s.billPerHousehold.Some? <==> t.households != 0
    ensures s.usagePerHousehold.Some? ==> s.usagePerHousehold.value * t.households as real == t.usage
    ensures s.billPerHousehold.Some? ==> s.billPerHousehold.value * t.households as real == t.bill as real
  {
    if t.households == 0 then Summary(t, None, None)
    else Summary(t, Some(t.usage / t.households as real), Some(t.bill as real / t.households as real))
  }

  /** The trend table: one summary per period. */
  function Trend(rows: seq<Row>): map<string, Summary>
  {
    map p | p in Aggregate(rows) :: Summarize(Aggregate(rows)[p])
  }

  /**
   * The trend table has a summary for exactly the periods that occur, and each holds
   * the sums over that period's rows.
   */
  lemma TrendPerPeriod(rows: seq<Row>, p: string)
    ensures p in Trend(rows) <==> p in Periods(rows)
    ensures p in Trend(rows) ==> Trend(rows)[p] == Summarize(Sum(InPeriod(rows, p)))
  {
    AggregateKeys(rows);
    AggregateSums(rows, p);
  }

  /**
   * Worked value: two districts in one period with 10 and 20 households and usages of
   * 100 and 200 give 30 households, 300 kWh, and 10 kWh per household.
   */
  lemma TrendExample(a: Row, b: Row)
    requires a.period == b.period
    requires a.households == 10 && a.usage == 100.0 && b.households == 20 && b.usage == 200.0
    ensures a.period in Trend([a, b])
    ensures Trend([a, b])[a.period].totals == Totals(30, 300.0, a.bill + b.bill)
    ensures Trend([a, b])[a.period].usagePerHousehold == Some(10.0)
  {
    var rows := [a, b];
    assert rows[1..] == [b] && [b][1..] == [];
    assert InPeriod([b], a.period) == [b];
    assert InPeriod(rows, a.period) == rows;
    assert Sum([b]) == Contribution(b);
    assert Sum(rows) == Totals(30, 300.0, a.bill + b.bill);
    assert rows[0].period in Periods(rows);
    TrendPerPeriod(rows, a.period);
  }

  /** A period whose household counts sum to zero has undefined per-household figures. */
  lemma NoHouseholdsUndefined(rows: seq<Row>, p: string)
    requires p in Trend(rows) && Sum(InPeriod(rows, p)).households == 0
    ensures Trend(rows)[p].usagePerHousehold == None && Trend(rows)[p].billPerHousehold == None
  {
    TrendPerPeriod(rows, p);
  }

  // ---------------------------------------------------------------------------
  // Household-weighted per-period figures

  /** The number of households of a run of rows. */
  function Households(rows: seq<Row>): int
  {
    if rows == [] then 0 else rows[0].households + Households(rows[1..])
  }

  /** The total usage of a run of rows: each district average times its households. */
  function WeightedUsage(rows: seq<Row>): real
  {
    if rows == [] then 0.0 else rows[0].usage * rows[0].households as real + WeightedUsage(rows[1..])
  }

  /** The total bill of a run of rows: each district average times its households. */
  function WeightedBill(rows: seq<Row>): int
  {
    if rows == [] then 0 else rows[0].bill * rows[0].households + WeightedBill(rows[1..])
  }

  /** The totals of a run of rows with each district's averages weighted by its households. */
  function WeightedSum(rows: seq<Row>): Totals
  {
    Totals(Households(rows), WeightedUsage(rows), WeightedBill(rows))
  }

  /** The trend table with each district's averages weighted by its number of households. */
  function WeightedTrend(rows: seq<Row>): map<string, Summary>
  {
    map p | p in Periods(rows) :: Summarize(WeightedSum(InPeriod(rows, p)))
  }

  lemma MulMonotone(x: real, y: real, h: real)
    requires x <= y && h >= 0.0
    ensures x * h <= y * h
  {
  }

  lemma Distribute(x: real, a: real, b: real)
    ensures x * (a + b) == x * a + x * b
  {
  }

  lemma MulStrict(x: real, y: real, h: real)
    requires x < y && h > 0.0
    ensures x * h < y * h
  {
  }

  /** The household count summed alone is the one the per-period totals hold. */
  lemma {:induction false} HouseholdsOfSum(rows: seq<Row>)
    ensures Households(rows) == Sum(rows).households
  {
    if rows != [] {
      HouseholdsOfSum(rows[1..]);
    }
  }

  /**
   * When every district average lies between `lo` and `hi`, the weighted usage lies
   * between `lo` and `hi` times the number of households.
   */
  lemma {:induction false} WeightedUsageBounds(rows: seq<Row>, lo: real, hi: real)
    requires forall i :: 0 <= i < |rows| ==> rows[i].households >= 0 && lo <= rows[i].usage <= hi
    ensures lo * Households(rows) as real <= WeightedUsage(rows) <= hi * Households(rows) as real
  {
    if rows != [] {
      var r := rows[0];
      var h, ht := r.households as real, Households(rows[1..]) as real;
      WeightedUsageBounds(rows[1..], lo, hi);
      MulMonotone(lo, r.usage, h);
      MulMonotone(r.usage, hi, h);
      Distribute(lo, h, ht);
      Distribute(hi, h, ht);
      assert Households(rows) as real == h + ht;
    }
  }

  /** Dividing a total bounded by `lo` and `hi` times a positive count gives a value between them. */
  lemma QuotientBounds(total: real, count: real, lo: real, hi: real)
    requires count > 0.0 && lo * count <= total <= hi * count
    ensures lo <= total / count <= hi
  {
    var q := total / count;
    assert q * count == total;
    if q < lo {
      MulStrict(q, lo, count);
    }
    if q > hi {
      MulStrict(hi, q, count);
    }
  }

  /** Every row of `InPeriod(rows, p)` is a row of `rows`. */
  lemma {:induction false} InPeriodFrom(rows: seq<Row>, p: string)
    ensures forall j :: 0 <= j < |InPeriod(rows, p)| ==> InPeriod(rows, p)[j] in rows
  {
    if rows != [] {
      InPeriodFrom(rows[1..], p);
    }
  }

  /** The weighted usage per household of a group lies between its smallest and largest average. */
  lemma GroupAverageBounds(group: seq<Row>, lo: real, hi: real)
    requires forall j :: 0 <= j < |group| ==> group[j].households >= 0 && lo <= group[j].usage <= hi
    requires Households(group) > 0
    ensures Summarize(WeightedSum(group)).usagePerHousehold.Some?
    ensures lo <= Summarize(WeightedSum(group)).usagePerHousehold.value <= hi
  {
    var w, h := WeightedUsage(group), Households(group) as real;
    WeightedUsageBounds(group, lo, hi);
    QuotientBounds(w, h, lo, hi);
    var t := WeightedSum(group);
    assert t.households != 0 && t.usage == w && t.households as real == h;
    assert Summarize(t).usagePerHousehold == Some(w / h);
  }

  /**
   * In the weighted table, a period's usage per household lies between the smallest
   * and the largest district average of that period.
   */
  lemma WeightedAverageWithinDistricts(rows: seq<Row>, p: string, lo: real, hi: real)
    requires p in Periods(rows)
    requires forall i :: 0 <= i < |rows| && rows[i].period == p ==>
               rows[i].households >= 0 && lo <= rows[i].usage <= hi
    requires Sum(InPeriod(rows, p)).households > 0
    ensures p in WeightedTrend(rows)
    ensures WeightedTrend(rows)[p].usagePerHousehold.Some?
    ensures lo <= WeightedTrend(rows)[p].usagePerHousehold.value <= hi
  {
    var group := InPeriod(rows, p);
    InPeriodFrom(rows, p);
    forall j | 0 <= j < |group|
      ensures group[j].households >= 0 && lo <= group[j].usage <= hi
    {
      var i :| 0 <= i < |rows| && rows[i] == group[j];
    }
    HouseholdsOfSum(group);
    GroupAverageBounds(group, lo, hi);
    assert WeightedTrend(rows)[p] == Summarize(WeightedSum(group));
  }

  /**
   * As written, two districts averaging 100 and 200 kWh per household report 10 kWh
   * per household for the period, below both; weighted by households the figure is
   * 5000 / 30 kWh, between them.
   */
  lemma SummedAveragesFinding(a: Row, b: Row)
    requires a.period == b.period
    requires a.households == 10 && a.usage == 100.0 && b.households == 20 && b.usage == 200.0
    ensures Trend([a, b])[a.period].usagePerHousehold.Some?
    ensures Trend([a, b])[a.period].usagePerHousehold.value < a.usage
    ensures Trend([a, b])[a.period].usagePerHousehold.value < b.usage
    ensures WeightedTrend([a, b])[a.period].usagePerHousehold == Some(5000.0 / 30.0)
  {
    TrendExample(a, b);
    var rows := [a, b];
    assert rows[1..] == [b] && [b][1..] == [];
    assert InPeriod([b], a.period) == [b];
    assert InPeriod(rows, a.period) == rows;
    assert Households([b]) == 20 && WeightedUsage([b]) == 4000.0;
    assert Households(rows) == 30 && WeightedUsage(rows) == 5000.0;
    assert rows[0].period in Periods(rows);
  }
}

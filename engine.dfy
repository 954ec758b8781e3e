/** The calculation engine: the cost of one allocation-month, quarterly and
    yearly roll-ups of cost records, and the positive-months utilization
    average. */
module Engine {
  import opened Basics
  import opened Dict
  import opened Types

  // ---------------------------------------------------------------- cost

  /** `hourlyRate * fte * workdays * 8`, eight billable hours per workday.
      No argument is clamped or rejected. */
  function CalculateMonthlyCost(hourlyRate: real, fte: real, workdays: real): (cost: real)
    ensures cost == 0.0 <==> hourlyRate == 0.0 || fte == 0.0 || workdays == 0.0
    ensures 0.0 <= hourlyRate && 0.0 <= fte && 0.0 <= workdays ==> 0.0 <= cost
  {
    hourlyRate * fte * workdays * 8.0
  }

  /** Cost is linear in the FTE: two part-time shares of one month cost what
      their sum costs. */
  lemma {:induction false} MonthlyCostLinearInFte(hourlyRate: real, f1: real, f2: real, workdays: real)
    ensures CalculateMonthlyCost(hourlyRate, f1 + f2, workdays)
         == CalculateMonthlyCost(hourlyRate, f1, workdays) + CalculateMonthlyCost(hourlyRate, f2, workdays)
  {
    calc {
      CalculateMonthlyCost(hourlyRate, f1 + f2, workdays);
      hourlyRate * (f1 + f2) * workdays * 8.0;
      { assert hourlyRate * (f1 + f2) == hourlyRate * f1 + hourlyRate * f2; }
      (hourlyRate * f1 + hourlyRate * f2) * workdays * 8.0;
      hourlyRate * f1 * workdays * 8.0 + hourlyRate * f2 * workdays * 8.0;
    }
  }

  // ---------------------------------------------------------- month keys

  /** The twelve month keys of the planning year. */
  const MonthKeys: seq<string> := [
    "2026-01", "2026-02", "2026-03", "2026-04", "2026-05", "2026-06",
    "2026-07", "2026-08", "2026-09", "2026-10", "2026-11", "2026-12"]

  /** The fixed quarter table of calculateQuarterlyCost. */
  const QuarterMonths: map<int, seq<string>> := map[
    1 := ["2026-01", "2026-02", "2026-03"],
    2 := ["2026-04", "2026-05", "2026-06"],
    3 := ["2026-07", "2026-08", "2026-09"],
    4 := ["2026-10", "2026-11", "2026-12"]]

  predicate IsDigit(c: char) {
    '0' <= c <= '9'
  }

  function DigitValue(c: char): int {
    c as int - '0' as int
  }

  /** `parseInt(key.split("-")[1])` for a key of the form "YYYY-MM". */
  function MonthNumber(key: string): int
    requires |key| == 7
  {
    10 * DigitValue(key[5]) + DigitValue(key[6])
  }

  /** A "YYYY-MM" key naming one of the twelve months. */
  predicate IsMonthKey(key: string) {
    && |key| == 7
    && IsDigit(key[0]) && IsDigit(key[1]) && IsDigit(key[2]) && IsDigit(key[3])
    && key[4] == '-'
    && IsDigit(key[5]) && IsDigit(key[6])
    && 1 <= MonthNumber(key) <= 12
  }

  /** `Math.ceil(monthNum / 3)`: the quarter a month key falls in. */
  function QuarterOf(key: string): (q: int)
    requires IsMonthKey(key)
    ensures 1 <= q <= 4
    ensures 3 * (q - 1) < MonthNumber(key) <= 3 * q
  {
    (MonthNumber(key) + 2) / 3
  }

  /** Each planning-year month key parses to a month and lies in exactly one
      row of the quarter table: the row of its computed quarter. */
  lemma MonthKeyQuarter(key: string)
    requires key in MonthKeys
    ensures IsMonthKey(key)
    ensures forall q :: q in QuarterMonths ==> (key in QuarterMonths[q] <==> q == QuarterOf(key))
  {
  }

  // ------------------------------------------------------------- roll-ups

  /** `reduce((sum, d) => sum + d.monthlyCost, 0)`. */
  function SumCosts(data: seq<FinancialData>): real {
    if data == [] then 0.0 else data[0].monthlyCost + SumCosts(data[1..])
  }

  lemma {:induction false} SumCostsAppend(a: seq<FinancialData>, b: seq<FinancialData>)
    ensures SumCosts(a + b) == SumCosts(a) + SumCosts(b)
  {
    if a == [] {
      assert a + b == b;
    } else {
      assert (a + b)[1..] == a[1..] + b;
      SumCostsAppend(a[1..], b);
    }
  }

  /** `filter((d) => months.includes(d.month))`. */
  function FilterMonths(data: seq<FinancialData>, months: seq<string>): (out: seq<FinancialData>)
    ensures forall d :: d in out <==> d in data && d.month in months
  {
    if data == [] then []
    else (if data[0].month in months then [data[0]] else []) + FilterMonths(data[1..], months)
  }

  lemma {:induction false} FilterMonthsAppend(a: seq<FinancialData>, b: seq<FinancialData>, months: seq<string>)
    ensures FilterMonths(a + b, months) == FilterMonths(a, months) + FilterMonths(b, months)
  {
    if a == [] {
      assert a + b == b;
    } else {
      assert (a + b)[1..] == a[1..] + b;
      FilterMonthsAppend(a[1..], b, months);
    }
  }

  /** calculateQuarterlyCost. For a quarter outside 1..4 the table lookup is
      undefined and the filter callback throws a TypeError (None) as soon as
      there is a record to test. */
  function CalculateQuarterlyCost(data: seq<FinancialData>, quarter: int): (cost: Option<real>)
    ensures cost.None? <==> data != [] && quarter !in QuarterMonths
    ensures data == [] ==> cost == Some(0.0)
  {
    if data == [] then Some(0.0)
    else if quarter !in QuarterMonths then None
    else Some(SumCosts(FilterMonths(data, QuarterMonths[quarter])))
  }

  /** calculateYearlyCost: every record's cost, whatever its month. */
  function CalculateYearlyCost(data: seq<FinancialData>): real {
    SumCosts(data)
  }

  /** A quarter's cost grows by a record's cost exactly when the record's
      month is in that quarter's row of the table. */
  lemma {:induction false} QuarterlyCostStep(data: seq<FinancialData>, d: FinancialData, quarter: int)
    requires quarter in QuarterMonths
    ensures CalculateQuarterlyCost([d] + data, quarter).value
         == (if d.month in QuarterMonths[quarter] then d.monthlyCost else 0.0)
            + CalculateQuarterlyCost(data, quarter).value
  {
    assert ([d] + data)[1..] == data;
    var head := if d.month in QuarterMonths[quarter] then [d] else [];
    assert FilterMonths([d] + data, QuarterMonths[quarter]) == head + FilterMonths(data, QuarterMonths[quarter]);
    SumCostsAppend(head, FilterMonths(data, QuarterMonths[quarter]));
  }

  /** With no negative costs, no quarter costs more than the whole year, and
      none costs less than nothing. */
  lemma {:induction false} QuarterWithinYear(data: seq<FinancialData>, quarter: int)
    requires quarter in QuarterMonths
    requires forall d :: d in data ==> 0.0 <= d.monthlyCost
    ensures 0.0 <= CalculateQuarterlyCost(data, quarter).value <= CalculateYearlyCost(data)
  {
    if data != [] {
      var d, rest := data[0], data[1..];
      assert data == [d] + rest;
      QuarterWithinYear(rest, quarter);
      QuarterlyCostStep(rest, d, quarter);
    }
  }

  /** The four quarters add up to the year whenever every record is dated
      in the planning year. */
  lemma {:induction false} QuartersSumToYear(data: seq<FinancialData>)
    requires forall d :: d in data ==> d.month in MonthKeys
    ensures CalculateQuarterlyCost(data, 1).value + CalculateQuarterlyCost(data, 2).value
          + CalculateQuarterlyCost(data, 3).value + CalculateQuarterlyCost(data, 4).value
         == CalculateYearlyCost(data)
  {
    if data != [] {
      var d, rest := data[0], data[1..];
      assert data == [d] + rest;
      QuartersSumToYear(rest);
      MonthKeyQuarter(d.month);
      QuarterlyCostStep(rest, d, 1);
      QuarterlyCostStep(rest, d, 2);
      QuarterlyCostStep(rest, d, 3);
      QuarterlyCostStep(rest, d, 4);
    }
  }

  // ---------------------------------------------------------- utilization

  /** `filter((v) => v > 0)`. */
  function Positives(vs: seq<real>): (ps: seq<real>)
    ensures forall i :: 0 <= i < |ps| ==> 0.0 < ps[i]
    ensures forall v :: v in ps <==> v in vs && 0.0 < v
  {
    if vs == [] then []
    else (if 0.0 < vs[0] then [vs[0]] else []) + Positives(vs[1..])
  }

  lemma {:induction false} PositivesAppend(a: seq<real>, b: seq<real>)
    ensures Positives(a + b) == Positives(a) + Positives(b)
  {
    if a == [] {
      assert a + b == b;
    } else {
      assert (a + b)[1..] == a[1..] + b;
      PositivesAppend(a[1..], b);
    }
  }

  /** calculateUtilization: the mean of the POSITIVE monthly values, as a
      rounded percentage; 0 when no value is positive. The period is ignored. */
  function CalculateUtilization(allocations: MonthValues, period: Period): (u: int)
    ensures (forall v :: v in Values(allocations) ==> v <= 0.0) ==> u == 0
    ensures (forall v :: v in Values(allocations) ==> v <= 1.0) ==> 0 <= u <= 100
  {
    var values := Positives(Values(allocations));
    if |values| == 0 then 0
    else
      assert values[0] in values;
      PositiveFractionsAverage(Values(allocations));
      Round(Mean(values) * 100.0)
  }

  /** Positive values of at most 1 average to a fraction in (0, 1]. */
  lemma PositiveFractionsAverage(vs: seq<real>)
    requires Positives(vs) != []
    ensures (forall v :: v in vs ==> v <= 1.0) ==> 0.0 < Mean(Positives(vs)) <= 1.0
  {
    var ps := Positives(vs);
    if forall v :: v in vs ==> v <= 1.0 {
      forall i | 0 <= i < |ps|
        ensures ps[i] <= 1.0
      {
        assert ps[i] in ps;
      }
      MeanOfFractions(ps);
    }
  }

  /** Months without a positive value do not dilute the average. */
  lemma UtilizationIgnoresNonPositive(allocations: MonthValues, month: string, fte: real, period: Period)
    requires fte <= 0.0
    ensures CalculateUtilization(allocations + [(month, fte)], period)
         == CalculateUtilization(allocations, period)
  {
    ValuesAppend(allocations, month, fte);
    PositivesAppend(Values(allocations), [fte]);
    assert Positives(Values(allocations + [(month, fte)])) == Positives(Values(allocations));
  }

  /** When every positive month has the same FTE `c`, utilization is `c` as
      a rounded percentage, however many months are zero. */
  lemma UtilizationOfUniform(allocations: MonthValues, c: real, period: Period)
    requires 0.0 < c
    requires c in Values(allocations)
    requires forall v :: v in Values(allocations) ==> v <= 0.0 || v == c
    ensures CalculateUtilization(allocations, period) == Round(c * 100.0)
  {
    var values := Positives(Values(allocations));
    assert c in values;
    forall i | 0 <= i < |values|
      ensures values[i] == c
    {
      assert values[i] in values;
    }
    MeanConstant(values, c);
  }
}

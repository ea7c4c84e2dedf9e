/** The staking-yield calculator: staked amount, APY, a holding period in
    days and months, and a validator fee become a net profit and a per-day
    cumulative profit chart. */
module Staking {
  import opened JsValues

  const DaysPerMonth: int := 30
  const DaysPerYear: real := 365.0

  /** The input boxes the calculation reads; `price` is filled by the price
      fetch or typed by hand. */
  datatype StakingForm = StakingForm(
    amount: Text,
    apy: Text,
    days: Text,
    months: Text,
    price: Text,
    validatorFee: Text)

  /** One point of the profit chart. */
  datatype ChartPoint = ChartPoint(day: int, profit: real)

  /** `parseInt(t || '0')`: an empty box counts as 0. */
  function WholeCount(t: Text): (n: Option<int>)
    ensures t.Blank? ==> n == Some(0)
    ensures t.Numeric? ==> n == Some(Trunc(t.v))
    ensures t.Garbage? ==> n.None?
  {
    if t.Blank? then Some(0) else ParseInt(t)
  }

  /** `days + 30 * months`, None standing for NaN. */
  function TotalDays(days: Text, months: Text): (n: Option<int>)
    ensures n.Some? <==> !days.Garbage? && !months.Garbage?
  {
    var d := WholeCount(days);
    var m := WholeCount(months);
    if d.Some? && m.Some? then Some(d.value + m.value * DaysPerMonth) else None
  }

  /** The fee percentage; empty, unparsable or zero means no fee. */
  function Fee(f: StakingForm): real {
    OrDefault(ParseFloat(f.validatorFee), 0.0)
  }

  /** The gross profit of one day: principal times the yearly rate, over 365. */
  function DailyProfit(principal: real, apyPercent: real): real {
    principal * (apyPercent / 100.0) / DaysPerYear
  }

  /** Cumulative net profit after `day` days: gross times (1 - fee/100). */
  function NetAtDay(dailyProfit: real, fee: real, day: int): real {
    dailyProfit * day as real * (1.0 - fee / 100.0)
  }

  /** The chart point of day `day`: its cumulative net profit, rounded to cents. */
  function DayPoint(dailyProfit: real, fee: real, day: int): ChartPoint {
    ChartPoint(day, Round2(NetAtDay(dailyProfit, fee, day)))
  }

  /** The chart for the first `n` days. */
  function Chart(dailyProfit: real, fee: real, n: nat): seq<ChartPoint> {
    if n == 0 then []
    else Chart(dailyProfit, fee, n - 1) + [DayPoint(dailyProfit, fee, n)]
  }

  /** What one press of the button computes. */
  datatype Outcome =
    | Unavailable                              // result cleared, chart left as it was
    | Computed(net: Num, chart: seq<ChartPoint>)

  function Calculate(f: StakingForm): Outcome {
    var principal := ParseFloat(f.amount);
    var apy := ParseFloat(f.apy);
    var coinPrice := ParseFloat(f.price);
    var total := TotalDays(f.days, f.months);
    if principal.None? || apy.None? || coinPrice.None? || (total.Some? && total.value <= 0) then
      Unavailable
    else if total.None? then
      // NaN days pass the `totalDays <= 0` test; the loop then runs no times
      Computed(NaN, [])
    else
      var daily := DailyProfit(principal.value, apy.value);
      Computed(Finite(NetAtDay(daily, Fee(f), total.value)), Chart(daily, Fee(f), total.value))
  }

  lemma {:induction false} ChartPoints(dailyProfit: real, fee: real, n: nat)
    ensures |Chart(dailyProfit, fee, n)| == n
    ensures forall k :: 0 <= k < n ==>
      Chart(dailyProfit, fee, n)[k] == ChartPoint(k + 1, Round2(NetAtDay(dailyProfit, fee, k + 1)))
  {
    if n > 0 {
      ChartPoints(dailyProfit, fee, n - 1);
    }
  }

  /** The result is cleared exactly when amount, APY or coin price does not
      parse or the holding period is a number of days that is not positive. */
  lemma UnavailableExactly(f: StakingForm)
    ensures Calculate(f).Unavailable? <==>
      !f.amount.Numeric? || !f.apy.Numeric? || !f.price.Numeric?
      || (!f.days.Garbage? && !f.months.Garbage? && TotalDays(f.days, f.months).value <= 0)
  {
  }

  /** Empty days or months count as 0, both are truncated toward zero, and a
      month is 30 days. */
  lemma TotalDaysCountsMonthsAsThirty(days: Text, months: Text)
    requires !days.Garbage? && !months.Garbage?
    ensures var d := if days.Blank? then 0 else Trunc(days.v);
      var m := if months.Blank? then 0 else Trunc(months.v);
      TotalDays(days, months) == Some(d + 30 * m)
  {
  }

  /** A computed result has a chart of exactly `totalDays` points, days 1 to
      `totalDays` in order, each the cents-rounded net profit up to that day;
      the last point is the rounded net result. */
  lemma ChartMatchesResult(f: StakingForm)
    requires Calculate(f).Computed? && Calculate(f).net.Finite?
    ensures var total := TotalDays(f.days, f.months).value;
      var c := Calculate(f).chart;
      var daily := DailyProfit(f.amount.v, f.apy.v);
      && total > 0
      && |c| == total
      && (forall k :: 0 <= k < |c| ==> c[k].day == k + 1 && c[k].profit == Round2(NetAtDay(daily, Fee(f), k + 1)))
      && c[|c| - 1].profit == Round2(Calculate(f).net.v)
  {
    var total := TotalDays(f.days, f.months).value;
    ChartPoints(DailyProfit(f.amount.v, f.apy.v), Fee(f), total);
  }

  /** The net result is the principal's yearly yield pro rata over the
      holding days, less the validator's share. */
  lemma NetFormula(f: StakingForm)
    requires Calculate(f).Computed? && Calculate(f).net.Finite?
    ensures var total := TotalDays(f.days, f.months).value;
      Calculate(f).net.v == f.amount.v * f.apy.v * total as real * (100.0 - Fee(f)) / 3650000.0
  {
  }

  /** The coin price only decides whether a result is shown: two forms that
      differ only in a parsable price compute the same thing. */
  lemma CoinPriceOnlyGates(f: StakingForm, price: real)
    requires f.price.Numeric?
    ensures Calculate(f.(price := Numeric(price))) == Calculate(f)
  {
  }

  /** With a positive stake and APY and a fee below 100 %, cumulative net
      profit grows strictly from one day to the next. */
  lemma {:induction false} NetStrictlyIncreasing(principal: real, apy: real, fee: real, i: int, j: int)
    requires 0.0 < principal && 0.0 < apy && fee < 100.0
    requires i < j
    ensures NetAtDay(DailyProfit(principal, apy), fee, i) < NetAtDay(DailyProfit(principal, apy), fee, j)
  {
    var d := DailyProfit(principal, apy);
    var keep := 1.0 - fee / 100.0;
    assert 0.0 < d by {
      assert 0.0 < apy / 100.0;
      assert 0.0 < principal * (apy / 100.0);
    }
    assert 0.0 < keep;
    assert d * i as real < d * j as real;
    assert (d * j as real - d * i as real) * keep > 0.0;
  }

  /** Hence the plotted (rounded) profits never decrease along the chart. */
  lemma RoundedChartNonDecreasing(f: StakingForm, k: int)
    requires Calculate(f).Computed? && 0.0 < f.amount.v && 0.0 < f.apy.v && Fee(f) < 100.0
    requires 0 <= k < |Calculate(f).chart| - 1
    ensures Calculate(f).chart[k].profit <= Calculate(f).chart[k + 1].profit
  {
    ChartMatchesResult(f);
    var daily := DailyProfit(f.amount.v, f.apy.v);
    NetStrictlyIncreasing(f.amount.v, f.apy.v, Fee(f), k + 1, k + 2);
    Round2Monotone(NetAtDay(daily, Fee(f), k + 1), NetAtDay(daily, Fee(f), k + 2));
  }

  /** 1000 staked at 10 % APY for 30 days with no fee earns 3000/365,
      shown as 8.22 on the last chart point. */
  lemma WorkedExample()
    ensures var f := StakingForm(Numeric(1000.0), Numeric(10.0), Numeric(30.0), Blank, Numeric(2500.0), Blank);
      && Calculate(f).Computed?
      && Calculate(f).net == Finite(3000.0 / 365.0)
      && |Calculate(f).chart| == 30
      && Calculate(f).chart[29] == ChartPoint(30, 8.22)
  {
    var f := StakingForm(Numeric(1000.0), Numeric(10.0), Numeric(30.0), Blank, Numeric(2500.0), Blank);
    assert TotalDays(f.days, f.months) == Some(30);
    ChartPoints(DailyProfit(1000.0, 10.0), 0.0, 30);
    assert NetAtDay(DailyProfit(1000.0, 10.0), 0.0, 30) == 3000.0 / 365.0;
    assert (3000.0 / 365.0 * 100.0 + 0.5).Floor == 822;
  }

  /** The calculator component's result state. */
  class StakingCalculator {
    var result: Option<Num>
    var chartData: seq<ChartPoint>

    constructor ()
      ensures result == None && chartData == []
    {
      result, chartData := None, [];
    }

    /** The button handler. On the failure path only the result is cleared;
        the chart keeps what the previous calculation drew. */
    method CalculateProfit(f: StakingForm)
      modifies this
      ensures Calculate(f).Unavailable? ==> result == None && chartData == old(chartData)
      ensures Calculate(f).Computed? ==> result == Some(Calculate(f).net) && chartData == Calculate(f).chart
    {
      var principal := ParseFloat(f.amount);
      var annualRate := ParseFloat(f.apy);
      var coinPrice := ParseFloat(f.price);
      var fee := OrDefault(ParseFloat(f.validatorFee), 0.0);
      var days := if f.days.Blank? then Some(0) else ParseInt(f.days);
      var months := if f.months.Blank? then Some(0) else ParseInt(f.months);
      var totalDays := if days.Some? && months.Some? then Some(days.value + months.value * DaysPerMonth) else None;
      assert totalDays == TotalDays(f.days, f.months);
      assert fee == Fee(f);

      if principal.None? || annualRate.None? || coinPrice.None? || (totalDays.Some? && totalDays.value <= 0) {
        result := None;
        return;
      }

      var yearlyProfit := principal.value * (annualRate.value / 100.0);
      var dailyProfit := yearlyProfit / DaysPerYear;
      assert dailyProfit == DailyProfit(principal.value, annualRate.value);
      if totalDays.None? {
        result := Some(NaN);
        chartData := [];
        return;
      }
      var total := totalDays.value;
      var gross := dailyProfit * total as real;
      var net := gross * (1.0 - fee / 100.0);
      assert net == NetAtDay(dailyProfit, fee, total);
      result := Some(Finite(net));

      var chart: seq<ChartPoint> := [];
      var i := 1;
      while i <= total
        invariant 1 <= i <= total + 1
        invariant chart == Chart(dailyProfit, fee, i - 1)
      {
        var dailyGross := dailyProfit * i as real;
        var dailyNet := dailyGross * (1.0 - fee / 100.0);
        assert dailyNet == NetAtDay(dailyProfit, fee, i);
        chart := chart + [DayPoint(dailyProfit, fee, i)];
        i := i + 1;
      }
      chartData := chart;
    }
  }
}

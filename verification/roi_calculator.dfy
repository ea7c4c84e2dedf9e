/** The ROI calculator: an investment bought at one price and sold at
    another gives an ROI percentage and an absolute profit, plus a simulated
    curve of both over sell prices from half to two and a half times the
    buy price. */
module Roi {
  import opened JsValues

  /** The input boxes of the component; the last three are shown but never
      read by the calculation. */
  datatype RoiForm = RoiForm(
    investment: Text,
    buyPrice: Text,
    sellPrice: Text,
    holdDays: Text,
    holdMonths: Text,
    monthlyInvestment: Text)

  /** One point of the simulated curve, each value rounded to cents. */
  datatype RoiPoint = RoiPoint(price: real, roi: real, profit: real)

  /** Coins bought with the investment. */
  function Units(invest: real, buy: real): real
    requires buy != 0.0
  {
    invest / buy
  }

  /** The percentage gain of selling at `sell` what was bought at `buy`. */
  function RoiPercent(buy: real, sell: real): real
    requires buy != 0.0
  {
    ((sell - buy) / buy) * 100.0
  }

  /** The money gained by selling `units` coins at `sell`. */
  function ProfitAt(units: real, buy: real, sell: real): real {
    (sell - buy) * units
  }

  /** The k-th price the curve loop visits: 0.5 * buy, then steps of 0.1 * buy. */
  function GridPrice(buy: real, k: nat): real {
    buy * 0.5 + k as real * (buy * 0.1)
  }

  /** Each step of the loop moves to the next grid price. */
  lemma GridStep(buy: real, k: nat)
    ensures GridPrice(buy, k) + buy * 0.1 == GridPrice(buy, k + 1)
  {
  }

  /** For a positive buy price the grid rises strictly with k. */
  lemma GridAscends(buy: real, j: nat, k: nat)
    requires 0.0 < buy && j < k
    ensures GridPrice(buy, j) < GridPrice(buy, k)
  {
    assert GridPrice(buy, k) - GridPrice(buy, j) == buy * (k - j) as real / 10.0;
    assert buy * (k - j) as real > 0.0;
  }

  /** The number of prices between 0.5 * buy and 2.5 * buy inclusive. */
  function PointCount(buy: real): nat {
    if buy > 0.0 then 21 else 0
  }

  /** The curve point for sell price `p`, from the headline formulas. */
  function PointAt(units: real, buy: real, p: real): RoiPoint
    requires buy != 0.0
  {
    RoiPoint(Round2(p), Round2(RoiPercent(buy, p)), Round2(ProfitAt(units, buy, p)))
  }

  /** A point at the buy price shows no gain; one above a positive buy
      price, with coins held, shows no loss. */
  lemma PointAtSigns(units: real, buy: real, p: real)
    requires buy != 0.0
    ensures p == buy ==> PointAt(units, buy, p).roi == 0.0 && PointAt(units, buy, p).profit == 0.0
    ensures 0.0 < buy < p && 0.0 < units ==>
      0.0 <= PointAt(units, buy, p).roi && 0.0 <= PointAt(units, buy, p).profit
  {
    if p == buy {
      assert RoiPercent(buy, p) == 0.0 && ProfitAt(units, buy, p) == 0.0;
    }
    if 0.0 < buy < p && 0.0 < units {
      assert 0.0 < (p - buy) / buy;
      assert 0.0 < (p - buy) * units;
    }
  }

  function CurvePoint(invest: real, buy: real, k: nat): RoiPoint
    requires buy != 0.0
  {
    PointAt(Units(invest, buy), buy, GridPrice(buy, k))
  }

  /** The first `n` points of the curve. */
  function Curve(invest: real, buy: real, n: nat): seq<RoiPoint>
    requires buy != 0.0
  {
    if n == 0 then [] else Curve(invest, buy, n - 1) + [CurvePoint(invest, buy, n - 1)]
  }

  /** What one press of the button computes. */
  datatype Outcome =
    | Unavailable
    | Computed(roi: real, profit: real, curve: seq<RoiPoint>)

  function Calculate(f: RoiForm): Outcome {
    var invest := ParseFloat(f.investment);
    var buy := ParseFloat(f.buyPrice);
    var sell := ParseFloat(f.sellPrice);
    if invest.None? || buy.None? || sell.None? || buy.value == 0.0 then Unavailable
    else
      var units := Units(invest.value, buy.value);
      Computed(RoiPercent(buy.value, sell.value), ProfitAt(units, buy.value, sell.value),
               Curve(invest.value, buy.value, PointCount(buy.value)))
  }

  lemma {:induction false} CurvePoints(invest: real, buy: real, n: nat)
    requires buy != 0.0
    ensures |Curve(invest, buy, n)| == n
    ensures forall k: nat :: k < n ==> Curve(invest, buy, n)[k] == CurvePoint(invest, buy, k)
  {
    if n > 0 {
      CurvePoints(invest, buy, n - 1);
    }
  }

  /** The loop guard `p <= 2.5 * buy` holds at the k-th price exactly for the
      first 21 prices when buy is positive, and only if k >= 20 when buy is
      negative. */
  lemma GridGuard(buy: real, k: nat)
    requires buy != 0.0
    ensures buy > 0.0 ==> (GridPrice(buy, k) <= buy * 2.5 <==> k <= 20)
    ensures buy < 0.0 ==> (GridPrice(buy, k) <= buy * 2.5 <==> k >= 20)
  {
  }

  /** The result is cleared, with no division done, exactly when a field
      does not parse or the buy price is zero. */
  lemma UnavailableExactly(f: RoiForm)
    ensures Calculate(f).Unavailable? <==>
      !f.investment.Numeric? || !f.buyPrice.Numeric? || !f.sellPrice.Numeric? || f.buyPrice.v == 0.0
  {
  }

  /** The absolute profit is the ROI percentage of the investment. */
  lemma ProfitIsRoiOfInvestment(f: RoiForm)
    requires Calculate(f).Computed?
    ensures Calculate(f).profit == Calculate(f).roi * f.investment.v / 100.0
  {
  }

  /** Selling at the buy price gains nothing. */
  lemma BreakEven(f: RoiForm)
    requires Calculate(f).Computed? && f.sellPrice.v == f.buyPrice.v
    ensures Calculate(f).roi == 0.0 && Calculate(f).profit == 0.0
  {
  }

  /** For a positive buy price the curve has 21 points, at the prices
      0.5 * buy + k * 0.1 * buy for k = 0 .. 20, each applying the headline
      ROI and profit formulas to that price with the same units held. */
  lemma CurveForPositiveBuy(f: RoiForm)
    requires Calculate(f).Computed? && f.buyPrice.v > 0.0
    ensures var c := Calculate(f).curve;
      var i, b := f.investment.v, f.buyPrice.v;
      && |c| == 21
      && forall k: nat :: k < 21 ==>
           var p := b * 0.5 + k as real * (b * 0.1);
           c[k] == RoiPoint(Round2(p), Round2(RoiPercent(b, p)), Round2(ProfitAt(Units(i, b), b, p)))
  {
    CurvePoints(f.investment.v, f.buyPrice.v, 21);
  }

  /** The curve's prices run from 0.5 * buy to 2.5 * buy in strictly rising
      order before rounding, and never fall after rounding. */
  lemma CurvePricesAscend(f: RoiForm, j: nat, k: nat)
    requires Calculate(f).Computed? && f.buyPrice.v > 0.0
    requires j < k < 21
    ensures GridPrice(f.buyPrice.v, 0) == f.buyPrice.v * 0.5
    ensures GridPrice(f.buyPrice.v, 20) == f.buyPrice.v * 2.5
    ensures GridPrice(f.buyPrice.v, j) < GridPrice(f.buyPrice.v, k)
    ensures |Calculate(f).curve| == 21
    ensures Calculate(f).curve[j].price <= Calculate(f).curve[k].price
  {
    var b := f.buyPrice.v;
    CurvePoints(f.investment.v, b, 21);
    GridAscends(b, j, k);
    Round2Monotone(GridPrice(b, j), GridPrice(b, k));
  }

  /** The sixth point sits at the buy price itself, with zero ROI and profit. */
  lemma CurvePassesThroughBuyPrice(f: RoiForm)
    requires Calculate(f).Computed? && f.buyPrice.v > 0.0
    ensures |Calculate(f).curve| == 21
    ensures Calculate(f).curve[5] == RoiPoint(Round2(f.buyPrice.v), 0.0, 0.0)
  {
    CurvePoints(f.investment.v, f.buyPrice.v, 21);
    assert GridPrice(f.buyPrice.v, 5) == f.buyPrice.v;
    assert Round2(0.0) == 0.0;
  }

  /** A negative buy price still gives an ROI and a profit, but the curve is
      empty: the first price already lies above 2.5 * buy. */
  lemma NegativeBuyHasEmptyCurve(f: RoiForm)
    requires f.investment.Numeric? && f.sellPrice.Numeric?
    requires f.buyPrice.Numeric? && f.buyPrice.v < 0.0
    ensures Calculate(f).Computed? && Calculate(f).curve == []
    ensures f.buyPrice.v * 0.5 > f.buyPrice.v * 2.5
  {
  }

  /** The holding period and monthly top-up boxes have no effect. */
  lemma HoldingFieldsIgnored(f: RoiForm, holdDays: Text, holdMonths: Text, monthly: Text)
    ensures Calculate(f.(holdDays := holdDays, holdMonths := holdMonths, monthlyInvestment := monthly))
         == Calculate(f)
  {
  }

  /** 1000 invested at 100 and sold at 150: 10 coins, 50 % ROI, 500 profit,
      and the curve point at price 100 shows 0 and 0. */
  lemma WorkedExample()
    ensures var f := RoiForm(Numeric(1000.0), Numeric(100.0), Numeric(150.0), Blank, Blank, Blank);
      && Calculate(f) == Computed(50.0, 500.0, Calculate(f).curve)
      && Calculate(f).curve[5] == RoiPoint(100.0, 0.0, 0.0)
  {
    var f := RoiForm(Numeric(1000.0), Numeric(100.0), Numeric(150.0), Blank, Blank, Blank);
    CurvePassesThroughBuyPrice(f);
    assert (100.0 * 100.0 + 0.5).Floor == 10000;
  }

  /** The calculator component's result state. */
  class RoiCalculator {
    var roi: Option<real>
    var profit: Option<real>
    var roiData: seq<RoiPoint>

    constructor ()
      ensures roi == None && profit == None && roiData == []
    {
      roi, profit, roiData := None, None, [];
    }

    /** The button handler: clears all three on the failure path, otherwise
        sets the headline figures and rebuilds the curve point by point. */
    method CalculateRoi(f: RoiForm)
      modifies this
      ensures Calculate(f).Unavailable? ==> roi == None && profit == None && roiData == []
      ensures Calculate(f).Computed? ==>
        roi == Some(Calculate(f).roi) && profit == Some(Calculate(f).profit) && roiData == Calculate(f).curve
    {
      var invest := ParseFloat(f.investment);
      var buyNum := ParseFloat(f.buyPrice);
      var sell := ParseFloat(f.sellPrice);

      if invest.None? || buyNum.None? || sell.None? || buyNum.value == 0.0 {
        roi := None;
        profit := None;
        roiData := [];
        return;
      }

      var buy := buyNum.value;
      var amount := invest.value / buy;
      var roiResult := ((sell.value - buy) / buy) * 100.0;
      var profitResult := (sell.value - buy) * amount;

      assert amount == Units(invest.value, buy);
      assert Calculate(f) == Computed(roiResult, profitResult, Curve(invest.value, buy, PointCount(buy)));
      roi := Some(roiResult);
      profit := Some(profitResult);

      var simulatedData: seq<RoiPoint> := [];
      var p := buy * 0.5;
      ghost var k: nat := 0;
      while p <= buy * 2.5
        invariant p == GridPrice(buy, k)
        invariant k <= 21 && (buy < 0.0 ==> k == 0)
        invariant simulatedData == Curve(invest.value, buy, k)
        invariant roi == Some(roiResult) && profit == Some(profitResult)
        invariant amount == Units(invest.value, buy)
        decreases 21 - k
      {
        GridGuard(buy, k);
        simulatedData := simulatedData + [PointAt(amount, buy, p)];
        GridStep(buy, k);
        p := p + buy * 0.1;
        k := k + 1;
      }
      GridGuard(buy, k);
      assert k == PointCount(buy);
      roiData := simulatedData;
    }
  }
}

/** The mining-profitability calculator: hashrate, power draw, electricity
    tariff, block reward and network difficulty become a daily profit, a
    daily energy cost and an ROI relative to that cost. */
module Mining {
  import opened JsValues

  /** Used when the block-reward box is empty, unparsable or zero. */
  const DefaultBlockReward: real := 6.25
  /** Used when the difficulty box is empty, unparsable or zero. */
  const DefaultDifficulty: real := 1000000.0
  const SecondsPerDay: real := 86400.0
  /** The hashrate is entered in MH/s. */
  const HashesPerMegahash: real := 1000000.0
  const HoursPerDay: real := 24.0
  const WattsPerKilowatt: real := 1000.0

  /** The input boxes the calculation reads. */
  datatype MiningForm = MiningForm(
    hashrate: Text,
    powerConsumption: Text,
    electricityCost: Text,
    blockReward: Text,
    networkDifficulty: Text,
    manualPrice: Text)

  /** The three results, set together. */
  datatype MiningResult = MiningResult(dailyProfit: Num, dailyCost: real, profitability: Num)

  function BlockReward(f: MiningForm): (r: real)
    ensures r != 0.0
    ensures f.blockReward.Numeric? && f.blockReward.v != 0.0 ==> r == f.blockReward.v
    ensures !f.blockReward.Numeric? || f.blockReward.v == 0.0 ==> r == DefaultBlockReward
  {
    OrDefault(ParseFloat(f.blockReward), DefaultBlockReward)
  }

  function Difficulty(f: MiningForm): (d: real)
    ensures d != 0.0
    ensures f.networkDifficulty.Numeric? && f.networkDifficulty.v != 0.0 ==> d == f.networkDifficulty.v
    ensures !f.networkDifficulty.Numeric? || f.networkDifficulty.v == 0.0 ==> d == DefaultDifficulty
  {
    OrDefault(ParseFloat(f.networkDifficulty), DefaultDifficulty)
  }

  /** Coins mined per day. */
  function EarningsPerDay(hashrate: real, reward: real, difficulty: real): (e: real)
    requires difficulty != 0.0
    ensures e == 0.0 <==> hashrate == 0.0 || reward == 0.0
    ensures 0.0 <= hashrate && 0.0 < reward && 0.0 < difficulty ==> 0.0 <= e
  {
    (hashrate * reward * SecondsPerDay) / (difficulty * HashesPerMegahash)
  }

  /** Electricity bill per day in dollars: watts over a day, in kWh, times the tariff. */
  function EnergyCostPerDay(power: real, tariff: real): (c: real)
    ensures 0.0 <= power && 0.0 <= tariff ==> 0.0 <= c
    ensures c == 0.0 <==> power == 0.0 || tariff == 0.0
  {
    (power * HoursPerDay) * (tariff / WattsPerKilowatt)
  }

  /** `manualPrice ? parseFloat(manualPrice) : cryptoPrice`: any non-empty
      manual text supersedes the fetched price, even one that parses to NaN. */
  function EffectivePrice(manual: Text, fetched: real): (r: Num)
    ensures r.Finite? <==> !manual.Garbage?
    ensures manual.Blank? ==> r == Finite(fetched)
    ensures manual.Numeric? ==> r == Finite(manual.v)
  {
    match manual
    case Blank => Finite(fetched)
    case Numeric(v) => Finite(v)
    case Garbage => NaN
  }

  /** True when the fetched price is falsy (absent or 0), which blocks the
      calculation whatever the manual price says. */
  predicate PriceMissing(cryptoPrice: Option<real>) {
    cryptoPrice.None? || cryptoPrice.value == 0.0
  }

  /** What one press of the button computes; None when the results are cleared. */
  function Calculate(f: MiningForm, cryptoPrice: Option<real>): Option<MiningResult> {
    var hashrate := ParseFloat(f.hashrate);
    var power := ParseFloat(f.powerConsumption);
    var tariff := ParseFloat(f.electricityCost);
    if hashrate.None? || power.None? || tariff.None? || PriceMissing(cryptoPrice) then None
    else
      var earnings := EarningsPerDay(hashrate.value, BlockReward(f), Difficulty(f));
      var cost := EnergyCostPerDay(power.value, tariff.value);
      var profit := Minus(Times(EffectivePrice(f.manualPrice, cryptoPrice.value), earnings), cost);
      Some(MiningResult(profit, cost, Times(Divide(profit, cost), 100.0)))
  }

  /** The "net profit for the day" line shown on screen and exported. */
  function DisplayedNetProfit(r: MiningResult): (n: Num)
    ensures n.Finite? <==> r.dailyProfit.Finite?
    ensures r.dailyProfit.Finite? && 0.0 < r.dailyCost ==> n.v < r.dailyProfit.v
  {
    Minus(r.dailyProfit, r.dailyCost)
  }

  /** The results are cleared exactly when hashrate, power or tariff does
      not parse or the fetched price is absent or zero; a manual price does
      not lift that guard. */
  lemma ClearedExactlyWhenGuardFails(f: MiningForm, cryptoPrice: Option<real>)
    ensures Calculate(f, cryptoPrice).None? <==>
      !f.hashrate.Numeric? || !f.powerConsumption.Numeric? || !f.electricityCost.Numeric?
      || cryptoPrice.None? || cryptoPrice.value == 0.0
  {
  }

  /** When set, the results follow the earnings formula with the block
      reward and difficulty defaults, the effective price and the energy
      formula; a parsable manual price supersedes the fetched one. */
  lemma ResultFormulas(f: MiningForm, cryptoPrice: Option<real>)
    requires f.hashrate.Numeric? && f.powerConsumption.Numeric? && f.electricityCost.Numeric?
    requires cryptoPrice.Some? && cryptoPrice.value != 0.0
    ensures Calculate(f, cryptoPrice).Some?
    ensures var r := Calculate(f, cryptoPrice).value;
      var earnings := f.hashrate.v * BlockReward(f) * 86400.0 / (Difficulty(f) * 1000000.0);
      && r.dailyCost == f.powerConsumption.v * 24.0 * f.electricityCost.v / 1000.0
      && (f.manualPrice.Blank? ==> r.dailyProfit == Finite(earnings * cryptoPrice.value - r.dailyCost))
      && (f.manualPrice.Numeric? ==> r.dailyProfit == Finite(earnings * f.manualPrice.v - r.dailyCost))
      && (f.manualPrice.Garbage? ==> r.dailyProfit == NaN)
  {
  }

  /** The profitability is the daily profit as a percentage of the energy
      cost: it scales back to the profit when the cost is not zero, and is
      NaN or infinite when it is. */
  lemma ProfitabilityRelativeToCost(f: MiningForm, cryptoPrice: Option<real>)
    requires f.hashrate.Numeric? && f.powerConsumption.Numeric? && f.electricityCost.Numeric?
    requires cryptoPrice.Some? && cryptoPrice.value != 0.0
    ensures Calculate(f, cryptoPrice).Some?
    ensures var r := Calculate(f, cryptoPrice).value;
      && (r.dailyCost != 0.0 && r.dailyProfit.Finite? ==>
            r.profitability.Finite? && r.profitability.v * r.dailyCost == r.dailyProfit.v * 100.0)
      && (r.dailyCost == 0.0 ==> !r.profitability.Finite?)
      && (r.dailyProfit.NaN? ==> r.profitability.NaN?)
  {
  }

  /** The zero-cost case is reachable: with a tariff of 0 the profitability
      is infinite (or NaN when the profit is 0 too). */
  lemma FreeElectricityGivesNoFiniteRoi(f: MiningForm, price: real)
    requires f.hashrate.Numeric? && f.powerConsumption.Numeric?
    requires f.electricityCost == Numeric(0.0) && price != 0.0
    ensures Calculate(f, Some(price)).Some?
    ensures Calculate(f, Some(price)).value.dailyCost == 0.0
    ensures !Calculate(f, Some(price)).value.profitability.Finite?
  {
  }

  /** The displayed net profit subtracts the energy cost a second time from
      a profit that already has it subtracted. */
  lemma DisplayedNetSubtractsCostTwice(f: MiningForm, cryptoPrice: Option<real>)
    requires Calculate(f, cryptoPrice).Some? && !f.manualPrice.Garbage?
    ensures var r := Calculate(f, cryptoPrice).value;
      var revenue := EarningsPerDay(f.hashrate.v, BlockReward(f), Difficulty(f))
        * (if f.manualPrice.Numeric? then f.manualPrice.v else cryptoPrice.value);
      DisplayedNetProfit(r) == Finite(revenue - 2.0 * r.dailyCost)
  {
  }

  /** 100 MH/s at 3000 W and $0.10/kWh, default reward and difficulty, coin
      at $60,000: earnings 0.000054 coins, cost $7.20, profit -$3.96, ROI
      -55 %, and the displayed net -$11.16. */
  lemma WorkedExample()
    ensures var f := MiningForm(Numeric(100.0), Numeric(3000.0), Numeric(0.1), Blank, Blank, Blank);
      && EarningsPerDay(100.0, BlockReward(f), Difficulty(f)) == 0.000054
      && Calculate(f, Some(60000.0)) == Some(MiningResult(Finite(-3.96), 7.2, Finite(-55.0)))
      && DisplayedNetProfit(Calculate(f, Some(60000.0)).value) == Finite(-11.16)
  {
  }

  /** The calculator component's result state. */
  class MiningCalculator {
    var dailyProfit: Option<Num>
    var dailyCost: Option<real>
    var profitability: Option<Num>

    /** The three results are shown together or not at all. */
    predicate AllOrNothing()
      reads this
    {
      dailyProfit.Some? == dailyCost.Some? == profitability.Some?
    }

    constructor ()
      ensures dailyProfit == None && dailyCost == None && profitability == None
      ensures AllOrNothing()
    {
      dailyProfit, dailyCost, profitability := None, None, None;
    }

    /** The button handler: clears all three results on the failure path,
        otherwise sets all three. */
    method CalculateMiningProfitability(f: MiningForm, cryptoPrice: Option<real>)
      modifies this
      ensures AllOrNothing()
      ensures Calculate(f, cryptoPrice).None? ==>
        dailyProfit == None && dailyCost == None && profitability == None
      ensures Calculate(f, cryptoPrice).Some? ==>
        var r := Calculate(f, cryptoPrice).value;
        dailyProfit == Some(r.dailyProfit) && dailyCost == Some(r.dailyCost)
        && profitability == Some(r.profitability)
    {
      var hashrateNum := ParseFloat(f.hashrate);
      var powerNum := ParseFloat(f.powerConsumption);
      var electricityNum := ParseFloat(f.electricityCost);
      var reward := OrDefault(ParseFloat(f.blockReward), DefaultBlockReward);
      var difficulty := OrDefault(ParseFloat(f.networkDifficulty), DefaultDifficulty);

      if hashrateNum.None? || powerNum.None? || electricityNum.None? || PriceMissing(cryptoPrice) {
        dailyProfit := None;
        dailyCost := None;
        profitability := None;
        return;
      }

      var earningsPerDay := (hashrateNum.value * reward * SecondsPerDay) / (difficulty * HashesPerMegahash);
      var energyCostPerDay := (powerNum.value * HoursPerDay) * (electricityNum.value / WattsPerKilowatt);
      var manual := ParseFloat(f.manualPrice);
      var price := if f.manualPrice.Blank? then Finite(cryptoPrice.value)
                   else if manual.Some? then Finite(manual.value) else NaN;
      var profitPerDay := Minus(Times(price, earningsPerDay), energyCostPerDay);

      assert earningsPerDay == EarningsPerDay(hashrateNum.value, BlockReward(f), Difficulty(f));
      assert energyCostPerDay == EnergyCostPerDay(powerNum.value, electricityNum.value);
      assert price == EffectivePrice(f.manualPrice, cryptoPrice.value);
      dailyProfit := Some(profitPerDay);
      dailyCost := Some(energyCostPerDay);
      profitability := Some(Times(Divide(profitPerDay, energyCostPerDay), 100.0));
    }
  }
}

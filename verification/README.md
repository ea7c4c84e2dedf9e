# CryptoCalc calculation engine in Dafny

This project models the calculation core of CryptoCalc, a client-side web app with three cryptocurrency calculators. Each calculator component has a button handler. The handler reads the text of its input boxes and, for mining, the fetched coin price. It then either clears its result state or sets it from closed-form formulas.

- **Mining** (`Mining`, `mining_calculator.dfy`). Hashrate, power draw, electricity tariff, block reward and network difficulty give three results: daily profit, daily energy cost, and profitability (an ROI relative to the energy cost). The block reward and difficulty fall back to 6.25 and 1,000,000.
- **Staking** (`Staking`, `staking_calculator.dfy`). Stake, APY, a holding period in days plus 30-day months, and a validator fee give a net profit. A loop builds a per-day cumulative profit chart.
- **ROI** (`Roi`, `roi_calculator.dfy`). Investment, buy price and sell price give an ROI percentage and an absolute profit. A stepped loop builds a simulated curve from 0.5×buy to 2.5×buy in steps of 0.1×buy.
- **Shared values** (`JsValues`, `js_values.dfy`). This module models the input text as the JavaScript parsers see it (`Blank`, `Numeric(v)`, `Garbage`). It also holds `parseFloat`/`parseInt` (with `None` for NaN), the `x || d` default (both NaN and 0 give `d`), `toFixed(2)` rounding (`Round2`), and the three kinds of JavaScript number a result can hold (`Finite`, `NaN`, `Infinity`).

Each component is a class whose fields are its result state. The handler is a method with `modifies this`. Its postcondition ties the new state to a specification function, `Calculate`, and lemmas prove what the calculators promise about `Calculate`. The chart and curve loops are `while` loops whose invariants say that the points built so far are a prefix of the specified series. The ROI loop steps a real-valued price. Over exact reals, a ghost step counter proves that it runs exactly 21 times when the buy price is positive and not at all when it is negative. In doubles the loop can behave differently; see the ROI handler under "Left out".

Arithmetic is exact, over `real`. NaN and Infinity appear only where the code produces them:
- A non-empty manual mining price that does not parse gives a NaN profit.
- A zero energy cost makes the profitability infinite, or NaN when the profit is zero too.
- An unparsable days or months box gives a NaN holding period. That NaN passes the `totalDays <= 0` guard, so the staking result becomes NaN and the chart becomes empty.

Behaviour of the code worth noting:
- The mining guard requires a non-zero fetched price even when a manual price has been entered.
- The profitability division is not guarded.
- The staking coin price is only checked for parsing. It is not required to be positive.
- The ROI loop has no epsilon on its upper bound.

## Model

| member | source | states |
|---|---|---|
| JsValues.Trunc | src/components/StakingCalculator/StakingCalculator.tsx:55 | `parseInt` keeps the integer part: the result lies within 1 of the input, toward zero, and has the input's sign |
| JsValues.OrDefault | src/components/MiningCalculator/MiningCalculator.tsx:65-66 | JavaScript `x or d` gives the parsed value unless it is NaN or 0, and then gives the default; a non-zero default never yields 0 |
| JsValues.Round2 | src/components/StakingCalculator/StakingCalculator.tsx:72 | `parseFloat(x.toFixed(2))` is a whole number of cents (`Cents`): the nearest one to `x`, with an exact half-cent rounded away from zero; it is within half a cent of `x` and keeps its sign |
| JsValues.Round2Monotone | src/components/ROICalculator/ROICalculator.tsx:96 | rounding to cents never reverses the order of two values |
| JsValues.Divide | src/components/MiningCalculator/MiningCalculator.tsx:83 | JavaScript division: a finite quotient that multiplies back to the dividend when the divisor is non-zero, never a finite number when the divisor is 0, and then NaN exactly when the dividend is 0; a NaN dividend always gives NaN |
| Mining.BlockReward | src/components/MiningCalculator/MiningCalculator.tsx:65 | the block reward is the parsed box unless it is empty, unparsable or 0, and then it is 6.25; it is never 0 |
| Mining.Difficulty | src/components/MiningCalculator/MiningCalculator.tsx:66 | the difficulty is the parsed box unless it is empty, unparsable or 0, and then it is 1,000,000; the earnings divisor is therefore never 0 |
| Mining.EarningsPerDay | src/components/MiningCalculator/MiningCalculator.tsx:76 | coins mined per day are 0 exactly when the hashrate or the block reward is 0, and are non-negative for a non-negative hashrate and positive reward and difficulty; `Mining.ResultFormulas` and `Mining.WorkedExample` give the formula's values |
| Mining.EffectivePrice | src/components/MiningCalculator/MiningCalculator.tsx:79 | the price used is finite exactly when the manual box is not unparsable text; an empty manual box uses the fetched price and a numeric one supersedes it |
| Mining.EnergyCostPerDay | src/components/MiningCalculator/MiningCalculator.tsx:77 | the daily energy cost is non-negative for non-negative power and tariff, and is 0 exactly when one of them is 0 |
| Mining.ClearedExactlyWhenGuardFails | src/components/MiningCalculator/MiningCalculator.tsx:68-73 | the results are cleared if and only if hashrate, power or tariff fails to parse or the fetched price is null or 0, whatever the manual price |
| Mining.ResultFormulas | src/components/MiningCalculator/MiningCalculator.tsx:76-79 | cost = power × 24 × tariff / 1000; profit = hashrate × reward × 86400 / (difficulty × 10^6) × price − cost, where a non-empty manual price supersedes the fetched one and an unparsable one gives NaN |
| Mining.ProfitabilityRelativeToCost | src/components/MiningCalculator/MiningCalculator.tsx:83 | profitability × cost = profit × 100 when the cost is non-zero; profitability is not finite when the cost is 0 and is NaN when the profit is NaN |
| Mining.FreeElectricityGivesNoFiniteRoi | src/components/MiningCalculator/MiningCalculator.tsx:77-83 | a tariff of 0 still sets the results, with a zero cost and a non-finite profitability: the unguarded division is reachable |
| Mining.Calculate | src/components/MiningCalculator/MiningCalculator.tsx:61-84 | the specification of one press of the button; its guard is stated by `Mining.ClearedExactlyWhenGuardFails`, its results by `Mining.ResultFormulas` and `Mining.ProfitabilityRelativeToCost` |
| Mining.DisplayedNetProfit | src/components/MiningCalculator/MiningCalculator.tsx:219 | the displayed net profit (also exported, line 94) is finite exactly when the stored profit is, and lies strictly below it whenever the energy cost is positive; `Mining.DisplayedNetSubtractsCostTwice` gives its value |
| Mining.DisplayedNetSubtractsCostTwice | src/components/MiningCalculator/MiningCalculator.tsx:94 | the shown and exported "net profit for the day" equals revenue − 2 × energy cost, because the energy cost is subtracted a second time |
| Mining.WorkedExample | src/components/MiningCalculator/MiningCalculator.tsx:76-83 | 100 MH/s, 3000 W, $0.10/kWh, the defaults and a $60,000 price give earnings 5.4e-5, cost 7.2, profit −3.96, profitability −55 and a displayed net of −11.16 |
| Mining.MiningCalculator.constructor | src/components/MiningCalculator/MiningCalculator.tsx:19-21 | the three results start out null |
| Mining.MiningCalculator.CalculateMiningProfitability | src/components/MiningCalculator/MiningCalculator.tsx:61-84 | the handler either clears all three results or sets all three to what `Calculate` gives; the results are never a mixture of set and cleared |
| Staking.WholeCount | src/components/StakingCalculator/StakingCalculator.tsx:55 | `parseInt` of the box or `'0'`: an empty box counts as 0, a number is truncated, and unparsable text is NaN |
| Staking.TotalDays | src/components/StakingCalculator/StakingCalculator.tsx:55 | the holding period is a number exactly when neither the days box nor the months box holds unparsable text |
| Staking.TotalDaysCountsMonthsAsThirty | src/components/StakingCalculator/StakingCalculator.tsx:55 | total days = truncated days + 30 × truncated months, where an empty box counts as 0 |
| Staking.UnavailableExactly | src/components/StakingCalculator/StakingCalculator.tsx:57-60 | the result is cleared if and only if stake, APY or coin price fails to parse or the holding period is a number ≤ 0 |
| Staking.NetFormula | src/components/StakingCalculator/StakingCalculator.tsx:62-65 | net = stake × APY × totalDays × (100 − fee) / 3,650,000, that is stake × APY/100 / 365 × days × (1 − fee/100), where an empty, unparsable or 0 fee counts as 0 |
| Staking.Calculate | src/components/StakingCalculator/StakingCalculator.tsx:50-75 | the specification of one press of the button; its guard is stated by `Staking.UnavailableExactly`, its result by `Staking.NetFormula`, its chart by `Staking.ChartMatchesResult` |
| Staking.Chart | src/components/StakingCalculator/StakingCalculator.tsx:68-73 | the series the chart loop builds; its length and points are stated by `Staking.ChartPoints` |
| Staking.ChartPoints | src/components/StakingCalculator/StakingCalculator.tsx:68-73 | the chart for n days has n points, and point k is day k + 1 with the rounded cumulative net profit of that day |
| Staking.ChartMatchesResult | src/components/StakingCalculator/StakingCalculator.tsx:62-73 | a computed chart has exactly totalDays points with days 1, 2, …, totalDays in order; each profit is the rounded net after that many days, and the last one is the rounded net result |
| Staking.CoinPriceOnlyGates | src/components/StakingCalculator/StakingCalculator.tsx:53-57 | changing a parsable coin price changes neither the result nor the chart |
| Staking.NetStrictlyIncreasing | src/components/StakingCalculator/StakingCalculator.tsx:69-71 | with a positive stake and APY and a fee below 100, the unrounded cumulative net profit is strictly increasing in the day |
| Staking.RoundedChartNonDecreasing | src/components/StakingCalculator/StakingCalculator.tsx:69-72 | under the same conditions the plotted, rounded profits never decrease from one point to the next |
| Staking.WorkedExample | src/components/StakingCalculator/StakingCalculator.tsx:62-65 | a stake of 1000 at 10 % for 30 days with no fee gives a net of 3000/365 and a last chart point of (30, 8.22) |
| Staking.StakingCalculator.constructor | src/components/StakingCalculator/StakingCalculator.tsx:32-33 | the result starts null and the chart empty |
| Staking.StakingCalculator.CalculateProfit | src/components/StakingCalculator/StakingCalculator.tsx:50-75 | on the failure path only the result is cleared and the chart is left as it was; otherwise the result and the chart built by the loop are what `Calculate` gives |
| Roi.GridStep | src/components/ROICalculator/ROICalculator.tsx:93 | adding 0.1 × buy moves the loop from the k-th grid price to the (k+1)-th |
| Roi.GridGuard | src/components/ROICalculator/ROICalculator.tsx:93 | the guard `p <= 2.5 × buy` holds at the k-th price exactly when k ≤ 20 for a positive buy price, and exactly when k ≥ 20 for a negative one |
| Roi.PointAt | src/components/ROICalculator/ROICalculator.tsx:94-96 | one loop iteration's point: the headline roi and profit formulas at sell price p, each rounded to cents; its signs are stated by `Roi.PointAtSigns` |
| Roi.PointAtSigns | src/components/ROICalculator/ROICalculator.tsx:94-96 | a curve point at the buy price shows roi 0 and profit 0, and one above a positive buy price with coins held shows a non-negative roi and profit |
| Roi.Curve | src/components/ROICalculator/ROICalculator.tsx:92-97 | the series the price loop builds; its length and points are stated by `Roi.CurvePoints` and `Roi.CurveForPositiveBuy` |
| Roi.Calculate | src/components/ROICalculator/ROICalculator.tsx:73-99 | the specification of one press of the button; its guard is stated by `Roi.UnavailableExactly`, its results by `Roi.ProfitIsRoiOfInvestment` and `Roi.BreakEven`, its curve by `Roi.CurveForPositiveBuy` and `Roi.NegativeBuyHasEmptyCurve` |
| Roi.CurvePoints | src/components/ROICalculator/ROICalculator.tsx:92-97 | the first n curve points are n in number, and point k is the point at the k-th grid price |
| Roi.UnavailableExactly | src/components/ROICalculator/ROICalculator.tsx:78-83 | roi, profit and curve are cleared if and only if investment, buy or sell fails to parse or buy = 0; no division happens then |
| Roi.ProfitIsRoiOfInvestment | src/components/ROICalculator/ROICalculator.tsx:85-87 | profit = roi × investment / 100 |
| Roi.BreakEven | src/components/ROICalculator/ROICalculator.tsx:86-87 | selling at the buy price gives an roi of 0 and a profit of 0 |
| Roi.CurveForPositiveBuy | src/components/ROICalculator/ROICalculator.tsx:92-97 | for buy > 0 the curve has exactly 21 points at prices 0.5·buy + k·0.1·buy, k = 0..20; each applies the headline roi and profit formulas with that price as the sell price and the same units held |
| Roi.CurvePricesAscend | src/components/ROICalculator/ROICalculator.tsx:93 | the grid runs from 0.5·buy to 2.5·buy in strictly ascending order, and the rounded prices on the curve never decrease |
| Roi.CurvePassesThroughBuyPrice | src/components/ROICalculator/ROICalculator.tsx:93-96 | the sixth point (k = 5) is at the buy price, with roi 0 and profit 0 |
| Roi.NegativeBuyHasEmptyCurve | src/components/ROICalculator/ROICalculator.tsx:89-93 | for buy < 0 the roi and profit are still set but the curve is empty, because 0.5·buy already exceeds 2.5·buy |
| Roi.HoldingFieldsIgnored | src/components/ROICalculator/ROICalculator.tsx:41-43 | the hold-days, hold-months and monthly-investment boxes have no effect on the outcome |
| Roi.WorkedExample | src/components/ROICalculator/ROICalculator.tsx:85-87 | investing 1000 at 100 and selling at 150 gives an roi of 50 and a profit of 500, and the curve point at price 100 shows 0 and 0 |
| Roi.RoiCalculator.constructor | src/components/ROICalculator/ROICalculator.tsx:36-40 | roi and profit start null and the curve empty |
| Roi.RoiCalculator.CalculateRoi | src/components/ROICalculator/ROICalculator.tsx:73-99 | the handler clears all three on the failure path; otherwise it sets roi and profit and, with the stepped price loop, the curve `Calculate` gives |

## Left out

- Price fetching (the `useEffect` bodies and `src/hooks/useCryptoPrices.ts`) is network I/O. The fetched mining price is an `Option<real>` parameter, and the staking and ROI prices are the text of their input boxes.
- CSV export (`downloadCSV` in all three components) is left out because it relies on a foreign library and browser calls. Only the derived "net profit for the day" figure is modelled, as `Mining.DisplayedNetProfit`.
- Charts, JSX rendering and the page shell (`src/app/*`, Header, Footer, HeroSection) are markup with no logic.
- The cryptocurrency selectors and the market list only choose which price is fetched.
- The JavaScript number grammar is abstracted. `Text` keeps what matters to the handlers: empty, a number, or unparsable text. A box whose text `parseInt` and `parseFloat` read differently (an exponent such as `1e3`, or `.5` with no leading digit) is not distinguished.
- JsValues.Round2: models `toFixed(2)` on the exact value. Binary doubles whose decimal expansion sits just below a half-cent can round the other way.
- Roi.RoiCalculator.CalculateRoi: steps the price over exact reals. In doubles, accumulated error in `p += buy * 0.1` can drop the 2.5×buy endpoint, so the real program may draw 20 points instead of 21. The loop's termination measure, 21 minus the step count, holds only with exact arithmetic. In doubles the source loop never ends for some finite buy prices, and its array grows without bound (derived from IEEE 754 double semantics, not executed). Examples: with a buy price of `1e308`, `buy * 2.5` and then `p` overflow to Infinity, and `Infinity <= Infinity` stays true. With a buy price of `1e-323`, `buy * 0.1` underflows to 0, so `p` never moves. The curve's `price` is a `toFixed(2)` string in the source and a rounded real here.
- Mining.MiningCalculator.CalculateMiningProfitability: the sign of an infinite profitability is not tracked. It depends on the sign of the zero energy cost, which would need signed zeros. Overflow of large inputs to Infinity is not modelled in any calculator.

# MockStock signal engine in Dafny

A model of the buy/sell/hold signal engine of MockStock's server
(`server/index.js`). Given the daily price bars that the data provider returns
for a security, the engine

- keeps the bars' closing prices, dropping missing ones (`calculateSignals`);
- computes a 5-period and a 20-period simple moving average series (`calculateMA`);
- computes a single-point 14-period Relative Strength Index at the end of the
  series (`calculateRSI`);
- applies its rules in priority order: golden cross gives BUY, dead cross gives
  SELL, an index below 30 gives BUY, an index above 70 gives SELL, and anything
  else gives HOLD. The first rule that matches wins;
- returns the signal, a reason and the indicator snapshot. The snapshot is absent
  when there are too few bars.

Beside the engine, `getInterval` maps the requested period code to the sampling
interval the data provider is asked for.

Modules, one per component:

- `Wrappers` (`wrappers.dfy`) holds `Option`.
- `JsValues` (`js_values.dfy`) models what the engine gets from JavaScript. An
  array slot is a number, `null`, or `undefined` when the index is out of range.
  The relational operators convert `null` to 0 and `undefined` to NaN, so every
  comparison involving `undefined` is false.
- `MovingAverage` (`moving_average.dfy`) models `calculateMA`.
- `RelativeStrength` (`rsi.dfy`) models `calculateRSI`.
- `SignalEngine` (`signals.dfy`) models `calculateSignals`.
- `Interval` (`interval.dfy`) models `getInterval`.

`CalculateMA`, `CalculateRSI` and `CalculateSignals` are methods with the
source's loops and its chain of assignments to the locals `signal` and `reason`.
Each is proved against a specification function: `Series`, `Rsi` and
`Signals`. `Signals` states the decision as an ordered list of tagged rules read
first-match-wins (`Rules`, `FirstMatch`). The method's `ensures` proves that the
source's if/else-if chain computes the same thing.

Prices are `real`. The reason is a datatype
(`InsufficientData | GoldenCross | DeadCross | Oversold(rsi) | Overbought(rsi) | NoSignal`)
rather than the source's Korean sentences.

Where a description of the engine and the code disagree, the model follows the
code:

- The `< 20` guard counts bars before null closes are filtered out
  (server/index.js:105 against :107), not the clean closes. So 19 closes plus
  one null bar pass the guard (`NullBarPassesGuard`). Stripping null bars
  beforehand changes the answer exactly when it takes 20 or more bars down to
  fewer than 20 closes (`StripNullsIff`).
- Once past the guard, the series can still be short. Then `null` slots are
  compared as 0 and missing slots as NaN:
  - with exactly 20 positive closes, a golden cross can never fire, and a dead
    cross fires whenever the short average is below the long one
    (`TwentyClosesCompareWithZero`);
  - with exactly 5 positive closes, a golden cross always fires
    (`FiveClosesGoldenCross`).
- The index is 100 whenever no price in the window falls. This includes a
  completely flat window, not only windows with some gain (`RsiHundredIff`).

## Model

| member | source | states |
|---|---|---|
| `MovingAverage.CalculateMA` | server/index.js:163-174 | the output has one slot per input value; slot i is null exactly when i < period - 1; otherwise it is the sum of the trailing `period` values divided by `period` |
| `MovingAverage.SeriesSlide` | server/index.js:166-170 | two neighbouring defined slots differ by (entering value - leaving value) / period |
| `MovingAverage.SlotBounds` | server/index.js:169-170 | a defined slot lies between any lower and upper bound of the values in its window |
| `MovingAverage.ConstantSeries` | server/index.js:166-170 | a constant series has that constant in every defined slot |
| `MovingAverage.SlotPositive` | server/index.js:169-170 | a defined slot over positive prices is positive |
| `RelativeStrength.Gains` | server/index.js:180-187 | the accumulated gains are never negative |
| `RelativeStrength.Losses` | server/index.js:180-187 | the accumulated losses are never negative |
| `RelativeStrength.CalculateRSI` | server/index.js:177-195 | the loop computes `Rsi` over the last `period` changes; the result lies in [0, 100]; it is 50 when there are fewer than period + 1 closes |
| `RelativeStrength.FromTotalsClosedForm` | server/index.js:189-194 | no losses gives 100; otherwise the index equals 100 * gains / (gains + losses) and lies in [0, 100) |
| `RelativeStrength.RsiBounds` | server/index.js:177-194 | the index always lies in [0, 100] |
| `RelativeStrength.LossesZero` | server/index.js:183-187 | the loss total is 0 exactly when no price in the window falls (zero changes add nothing) |
| `RelativeStrength.RsiHundredIff` | server/index.js:183-192 | with enough history the index is 100 exactly when no price of the last `period` steps falls |
| `RelativeStrength.NetMove` | server/index.js:183-187 | gains minus losses equals the net price move across the window |
| `RelativeStrength.RsiLastWindowOnly` | server/index.js:178-187 | only the last period + 1 closes affect the index |
| `JsValues.ToNumber` | server/index.js:127-132 | null converts to 0, a number to itself, undefined to NaN |
| `JsValues.SlotAt` | server/index.js:115-118 | an array lookup gives undefined out of range, null for a null slot, else the number |
| `JsValues.NumberAt` | server/index.js:114 | a lookup in the close array gives the close, or undefined out of range |
| `JsValues.GtLtExclusive` | server/index.js:127-132 | `a > b` and `a < b` never hold together |
| `JsValues.UndefinedComparesFalse` | server/index.js:127-132 | every comparison involving undefined is false |
| `JsValues.NullComparesAsZero` | server/index.js:127-132 | null compares exactly as 0 |
| `SignalEngine.CalculateSignals` | server/index.js:104-160 | the guard, the two averages, the index and the if/else-if chain compute `Signals`, the first-match reading of the ordered rule list |
| `SignalEngine.FirstMatchUnrolled` | server/index.js:126-148 | the ordered rule list decides like the if/else-if chain |
| `SignalEngine.FirstMatchFirstFiring` | server/index.js:126-148 | the verdict is that of the first rule that fires, whatever later rules say |
| `SignalEngine.FirstMatchNoneFires` | server/index.js:146-148 | when no rule fires, the answer is HOLD with no signal |
| `SignalEngine.CrossesExclusive` | server/index.js:127-135 | the golden-cross and dead-cross conditions never hold together |
| `SignalEngine.InsufficientDataIff` | server/index.js:105 | fewer than 20 bars gives HOLD with the insufficient-data reason and no indicators; indicators are absent only then |
| `SignalEngine.CrossoverDecides` | server/index.js:126-135 | the golden-cross reason occurs exactly when its condition holds, and then with BUY, whatever the index; likewise the dead-cross reason, with SELL |
| `SignalEngine.IndexRulesWithoutCross` | server/index.js:136-148 | the oversold, overbought and no-signal reasons each occur exactly when neither crossover holds and the index is below 30, above 70, or in [30, 70] |
| `SignalEngine.SignalMatchesReason` | server/index.js:127-148 | BUY comes only with golden cross or oversold, SELL only with dead cross or overbought, and HOLD only with insufficient data or no signal; an index reason carries the reported index |
| `SignalEngine.SnapshotOfLongSeries` | server/index.js:114-121 | with at least 21 closes, the four looked-up averages are the trailing means and the index lies in [0, 100] |
| `SignalEngine.CrossoverOnAverages` | server/index.js:127-132 | with at least 21 closes, both crossover tests compare real trailing means only |
| `SignalEngine.IndicatorsAtEnd` | server/index.js:150-158 | with at least 20 closes, the indicators are the last 5-mean, the last 20-mean, the index and the last close |
| `SignalEngine.AllClosesMissing` | server/index.js:107-158 | 20 or more bars without a single close give HOLD with no signal, all-undefined indicators and index 50 |
| `SignalEngine.TwentyClosesCompareWithZero` | server/index.js:117-132 | with exactly 20 positive closes, the previous long average is null, a golden cross never fires, and a dead cross fires exactly when the short mean is below the long one |
| `SignalEngine.FiveClosesGoldenCross` | server/index.js:115-129 | with exactly 5 positive closes past the guard, the answer is BUY by golden cross |
| `SignalEngine.ShortSeriesNoCross` | server/index.js:115-135 | with any other number (below 20) of positive closes past the guard, neither crossover fires |
| `SignalEngine.ClosesLength` | server/index.js:107 | filtering never lengthens the series |
| `SignalEngine.ClosesAppend` | server/index.js:107 | filtering distributes over concatenation |
| `SignalEngine.ClosesOfStripNulls` | server/index.js:107 | removing null bars beforehand keeps exactly the same closes |
| `SignalEngine.OnlyClosesMatter` | server/index.js:105-107 | the answer depends only on which side of the guard the bar count falls and on the closes |
| `SignalEngine.StripNullsIff` | server/index.js:105-107 | removing null bars first leaves the answer unchanged exactly when there are fewer than 20 bars or at least 20 closes |
| `SignalEngine.NullBarPassesGuard` | server/index.js:105-107 | some 20 bars with fewer than 20 closes report indicators, while their null-stripped version does not |
| `Interval.GetInterval` | server/index.js:91-101 | the interval is one of 1h, 1d, 1wk, 1mo. It is 1h exactly for 1w, 1wk exactly for 1y, and 1mo exactly for 5y. It is 1d exactly for 1mo, 3mo, 6mo and any code outside that list |

## Left out

- The Express routes, request parsing, `res.json` and status codes (server/index.js:1-74, 197-199): HTTP plumbing.
- `yahooFinance.search` and `yahooFinance.chart`: calls to an external service. The bars they return are the input of `SignalEngine.Signals`.
- `getStartDate` (server/index.js:77-88): depends on the wall clock.
- The whole client (client/src/App.jsx): rendering and UI state.
- IEEE-754 rounding: prices and averages are `real`. NaN and infinite closes are not modelled.
- The `toFixed(1)` formatting in the index reasons, and the exact Korean reason texts. `Reason` carries the unrounded index instead.
- The bar fields other than `close` are in `Quote` but never read, as in the source. Both `null` and `undefined` closes (`c != null`) are modelled as `None`.
- `MovingAverage.CalculateMA`, `RelativeStrength.CalculateRSI`: require `period >= 1`. The source's callers always pass 5, 20 and 14; in JavaScript a period of 0 would produce NaN.
- Purity and determinism of the engine hold by construction: Dafny functions have no hidden state, so no lemma states them.

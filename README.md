# Vagues Elliott trader — a Dafny model of its trading cycle

The trader (`VaguesElliottTrader`, src/index.ts) runs one cycle per hour on one market pair such as
BTC/USDT. Each cycle:

1. fetches the account balances, which replace the map it keeps;
2. reads the base and quote balances, where a missing currency counts as 0;
3. fetches OHLCV candles and computes the wave indicator from the close prices;
4. takes wave3 (third-from-last value), wave5 (last value) and the last close;
5. decides one of three actions, testing buy first:
   - **buy**: a market buy of the whole quote balance, then a protective stop sell;
   - **sell**: cancel the tracked order if one is held, then a market sell of the whole base balance;
   - **hold**: no order calls.

The trader keeps the id of the last order it placed in `orderId`. Every placement that settles
overwrites it. `cancelOrder` clears it, and talks to the exchange only when an id is held. An
awaited call that throws ends the cycle where it happens.

The model has these modules:

- `Wrappers` (option.dfy): `Option`, for `null` and `undefined`.
- `Symbols` (symbol.dfy): `symbol.split("/")`, with its inverse `Join` and round-trip lemmas, and the
  base and quote currencies.
- `Balances` (balance.dfy): the `balance[currency] || 0` lookup. JavaScript reads
  `balance[undefined]` as `balance["undefined"]`, and the model does the same.
- `Signal` (signal.dfy): JavaScript array reads that give `undefined` out of range, wave3, wave5,
  the last price, and the buy / sell / hold rule.
- `Exchange` (exchange.dfy): the calls the trader issues, a reply for each awaited call (a value or
  a rejection), and candles with their close prices.
- `Tracker` (tracker.dfy): what each order placement and the cancel step do to `orderId`.
- `TradingCycle` (cycle.dfy): one `run()` as a function `Cycle`. From the held id, the balance map
  and the exchange's replies it gives the new id, the new map, the calls issued in order, and how
  the cycle ended.
- `CycleProperties` (cycle_properties.dfy): the branch, call-order and failure properties of `Cycle`.
- `Trader` (trader.dfy): the class itself, with fields `balance` and `orderId` updated in place, a
  ghost `trace` of exchange calls, and one method per method of the source. `Run` is proved to
  have exactly the effect `Cycle` describes.

The exchange and the indicator are parameters:

- `Replies` holds what the exchange would answer to each call a cycle can make.
- `Indicator` is a total function from close prices and depth to wave values.

Prices and amounts are `real`.

## Behaviour of the source worth knowing

- A buy or sell decision needs at least three indicator values, because wave3 is the
  third-from-last value (src/index.ts:64).
- A rejected cancel rejects `run()` (the `await` at src/index.ts:80 throws), so no sell follows.
- A settled market buy sets `orderId` to the buy's id (src/index.ts:31). So after a rejected stop
  the buy's id is held.
- The buy branch never cancels a held order. An id held from an earlier cycle is overwritten, and
  that stop is no longer tracked (`BuyOverwritesHeldStop`).
- The stop is sized at the base balance read before the buy. On a first entry that is 0
  (`FirstEntryStopIsEmpty`).

## Model

| member | source | states |
|---|---|---|
| `Symbols.Split` | src/index.ts:54-55 | `split("/")` always gives at least one part, and no part contains the separator |
| `Symbols.JoinSplit` | src/index.ts:54-55 | joining the parts of a split with "/" gives back the original symbol |
| `Symbols.SplitJoin` | src/index.ts:54-55 | splitting separator-free parts joined with "/" gives back exactly those parts |
| `Symbols.BaseCurrency` | src/index.ts:54 | the base currency contains no separator |
| `Symbols.QuoteCurrency` | src/index.ts:55 | the quote currency, when defined, contains no separator |
| `Symbols.PairOf` | src/index.ts:54-55 | for "BASE/QUOTE", with or without further "/…" parts, base is BASE and quote is QUOTE |
| `Symbols.NoQuote` | src/index.ts:54-55 | a symbol without "/" is all base currency, and its quote currency is `undefined` |
| `Balances.BalanceOf` | src/index.ts:56-57 | a currency absent from the map reads as 0; a present one reads as its amount |
| `Balances.PairBalances` | src/index.ts:54-57 | for "BASE/QUOTE" the cycle reads `total[BASE]` and `total[QUOTE]`, each 0 when absent |
| `Balances.UnseparatedQuoteBalance` | src/index.ts:55-57 | with no "/" in the symbol, the quote balance is the entry under the key "undefined", or 0 |
| `Signal.At` | src/index.ts:64-66 | an array read is defined exactly at valid indices and gives that element; otherwise `undefined` |
| `Signal.Wave3` | src/index.ts:64 | wave3 is the third-from-last value, or `undefined` with fewer than three values |
| `Signal.Last` | src/index.ts:65-66 | wave5 and the last price are the last element of their sequence, or `undefined` when it is empty |
| `Signal.Decide` | src/index.ts:68-86 | a trade needs both wave values defined and of opposite signs; buy needs a positive quote balance and wave3 < 0; sell needs a positive base balance and wave3 > 0 |
| `Signal.SignalsExclusive` | src/index.ts:68-78 | the buy test and the sell test never both pass, so testing buy first never changes the decision |
| `Signal.DecideBuy` | src/index.ts:68 | buy if and only if wave3 < 0, wave5 > 0 and quote balance > 0, whatever the base balance |
| `Signal.DecideSell` | src/index.ts:78 | sell if and only if wave3 > 0, wave5 < 0 and base balance > 0 |
| `Signal.DecideHold` | src/index.ts:83-86 | hold if and only if neither the buy nor the sell test passes |
| `Signal.ShortWavesHold` | src/index.ts:64-68 | with fewer than three indicator values every sign test is false and the decision is hold |
| `Exchange.ClosePrices` | src/index.ts:60 | one close price per candle, in order, each the candle's close |
| `Tracker.Place` | src/index.ts:29-42 | a placement issues its one call; once it settles its id is held; when it is rejected the held id is unchanged |
| `Tracker.CancelHeld` | src/index.ts:44-49 | a cancel call is made only when a non-null, non-empty id is held; the step fails exactly when that call is rejected; once it settles nothing is held; when rejected the id stays; with nothing held, no call and no change |
| `Tracker.CancelTwice` | src/index.ts:44-49 | two cancels in a row, the first settling: at most one cancel reaches the exchange, the second is a no-op, and nothing is held |
| `Tracker.LastPlacementWins` | src/index.ts:29-42 | of two settled placements, the later one's id is held |
| `TradingCycle.BuyAmount` | src/index.ts:71 | the amount bought, at the last price, is worth exactly the quote balance, and is positive when that balance is |
| `TradingCycle.StopPrice` | src/index.ts:74 | the stop sits the stop-loss fraction of the last price below it, strictly between 0 and the last price for a fraction in (0, 1) |
| `CycleProperties.BalanceFetchFails` | src/index.ts:24-27 | a rejected balance fetch ends the cycle after one call, changing neither the map nor `orderId` |
| `CycleProperties.BalanceReplaced` | src/index.ts:26 | after a settled fetch the map is the fetched totals; the first two calls are the balance and OHLCV fetches; a rejected OHLCV fetch stops there |
| `CycleProperties.HoldBranch` | src/index.ts:83-86 | hold makes no order call and leaves `orderId` unchanged |
| `CycleProperties.ShortWavesCycleHolds` | src/index.ts:62-68 | with fewer than three indicator values the whole cycle is a hold |
| `CycleProperties.BuyBranch` | src/index.ts:68-77 | buy is a market buy of the quote balance over the last price, then a stop sell at the stop price for the base balance read before the buy; the stop's id is held |
| `CycleProperties.BuyFails` | src/index.ts:29-32 | a rejected market buy ends the cycle with no stop placed and `orderId` unchanged |
| `CycleProperties.StopFails` | src/index.ts:39-42 | a rejected stop after a settled buy ends the cycle with the buy's id held |
| `CycleProperties.SellBranch` | src/index.ts:78-82 | sell cancels the held order (if any) before a market sell of the whole base balance; the sell's id is held, not null |
| `CycleProperties.CancelFails` | src/index.ts:44-49 | a rejected cancel ends the cycle: no sell is issued and the held id is unchanged |
| `CycleProperties.SellFails` | src/index.ts:34-37 | a rejected sell after the cancel ends the cycle with nothing held (or the unheld id unchanged) |
| `CycleProperties.OneBranch` | src/index.ts:68-86 | a completed cycle took the decided action; no cycle both buys and sells or cancels; no call is issued twice |
| `CycleProperties.FailureStopsCycle` | src/index.ts:51-87 | a rejected call is the last call of its cycle |
| `CycleProperties.BuyOverwritesHeldStop` | src/index.ts:68-77 | the buy branch issues no cancel; afterwards the new stop's id, or the buy's, replaces any held id |
| `CycleProperties.FirstEntryStopIsEmpty` | src/index.ts:56-77 | with no base currency in the fetched map, the protective stop is for 0 |
| `CycleProperties.EntryArithmetic` | src/index.ts:71-74 | 1000 quote at 50000 buys 0.02; a 3% stop from 50000 is at 48500 |
| `CycleProperties.SellScenario` | src/index.ts:78-82 | holding 0.02 base and a stop id, a sell signal cancels that stop, then sells 0.02, and holds the sell's id |
| `Trader.VaguesElliottTrader.constructor` | src/index.ts:12-22 | a new trader keeps its settings, has an empty balance map, holds no order and has made no call |
| `Trader.VaguesElliottTrader.FetchBalance` | src/index.ts:24-27 | one fetch call; once it settles, its totals replace the whole map |
| `Trader.VaguesElliottTrader.PlaceOrder` | src/index.ts:29-42 | one order call, with the effect `Tracker.Place` describes on `orderId` |
| `Trader.VaguesElliottTrader.PlaceBuyOrder` | src/index.ts:29-32 | a market buy call; `orderId` is updated as `Tracker.Place` says |
| `Trader.VaguesElliottTrader.PlaceSellOrder` | src/index.ts:34-37 | a market sell call; `orderId` is updated as `Tracker.Place` says |
| `Trader.VaguesElliottTrader.PlaceStopLossOrder` | src/index.ts:39-42 | a stop sell call; `orderId` is updated as `Tracker.Place` says |
| `Trader.VaguesElliottTrader.CancelOrder` | src/index.ts:44-49 | calls and `orderId` exactly as `Tracker.CancelHeld` says |
| `Trader.VaguesElliottTrader.Run` | src/index.ts:51-87 | the new `orderId`, balance map, calls appended to the trace and outcome are exactly those of `TradingCycle.Cycle` |

## Left out

- Exchange client construction and credentials (src/index.ts:12-16) are not modelled. The
  exchange's answers come in as `Replies`, one per call a cycle can make.
- The `talib` wave indicator (src/index.ts:62) is a parameter of type `Indicator`, called with
  the close prices and depth 5.
- An indicator that throws is not modelled: `Indicator` is a total function. In the source such a
  throw rejects `run()` after the balance and OHLCV fetches, with the balance map already replaced
  and `orderId` unchanged.
- The start-up block and the hourly `setInterval` loop (src/index.ts:90-104) are timers and
  asynchronous plumbing. Overlapping cycles are not modelled; cycles are taken one at a time.
- `console.log` output (src/index.ts:69, 75, 79, 84) is not modelled.
- IEEE floating point is not modelled. Prices and amounts are exact reals: no rounding, no `NaN`,
  no `Infinity`.
- `Trader.VaguesElliottTrader.Run` requires a defined, positive last close whenever the buy branch
  is taken (`PricedBuy`). With no candles or a zero price the source divides by `undefined` or 0
  and sends `NaN` or `Infinity` to the exchange, which the model does not describe.
- `Balances.BalanceOf`: `|| 0` also turns `NaN`, `null` and `undefined` entries into 0. The model's
  map holds reals only, so only the absent-key and zero cases arise.
- Keys inherited from JavaScript's object prototype (such as "constructor") are not modelled in
  balance lookups.
- Order ids are strings. An exchange that returns no id (`undefined`) is not modelled.

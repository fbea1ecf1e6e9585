/**
 * What the trader sees of the exchange client: the calls it issues, in order, and
 * what each awaited call gives back (a value, or a thrown exception).
 */
module Exchange {

  /** One call the trader makes on the exchange client. */
  datatype Call =
    | BalanceRequest                                         // fetchBalance()
    | OhlcvRequest(symbol: string, timeframe: string)        // fetchOHLCV(symbol, interval)
    | MarketBuy(symbol: string, amount: real)                // createMarketBuyOrder(symbol, amount)
    | StopSell(symbol: string, stopPrice: real, amount: real) // createOrder(symbol, "stop", "sell", amount, price)
    | CancelRequest(id: string, symbol: string)              // cancelOrder(id, symbol)
    | MarketSell(symbol: string, amount: real)               // createMarketSellOrder(symbol, amount)

  /** The settled value of an awaited call: its result, or a rejection. */
  datatype Reply<+T> = Ok(value: T) | Threw

  /** One OHLCV row `[timestamp, open, high, low, close, volume]`. */
  datatype Candle = Candle(timestamp: int, open: real, high: real, low: real, close: real, volume: real)

  /** `ohlcv.map((x) => x[4])`: the closing price of every row, in order. */
  function ClosePrices(candles: seq<Candle>): (closes: seq<real>)
    ensures |closes| == |candles|
    ensures forall i :: 0 <= i < |candles| ==> closes[i] == candles[i].close
  {
    seq(|candles|, i requires 0 <= i < |candles| => candles[i].close)
  }
}

/**
 * The trader object: its fixed settings, the balance map and the id of the last order placed,
 * which its methods update in place, and a ghost record of the calls made on the exchange.
 * The exchange's answers are passed in as replies; `Run` is proved to do what `Cycle` describes.
 */
module Trader {
  import opened Wrappers
  import opened Symbols
  import opened Balances
  import opened Signal
  import opened Exchange
  import opened Tracker
  import opened TradingCycle

  class VaguesElliottTrader {
    const symbol: string
    const interval: string
    const stopLossPercentage: real
    var balance: Balances
    var orderId: Option<string>
    /** Every exchange call this trader has issued, oldest first. */
    ghost var trace: seq<Call>

    function Settings(): (cfg: Config)
      ensures cfg.symbol == symbol && cfg.interval == interval && cfg.stopLossPercentage == stopLossPercentage
    {
      Config(symbol, interval, stopLossPercentage)
    }

    /** A new trader has an empty balance map, holds no order, and has made no call. */
    constructor (symbol: string, interval: string, stopLossPercentage: real)
      ensures this.symbol == symbol && this.interval == interval && this.stopLossPercentage == stopLossPercentage
      ensures balance == map[] && orderId == None && trace == []
    {
      this.symbol := symbol;
      this.interval := interval;
      this.stopLossPercentage := stopLossPercentage;
      balance := map[];
      orderId := None;
      trace := [];
    }

    /** Fetch the balances; once the call settles, its totals replace the whole map. */
    method FetchBalance(reply: Reply<Balances>) returns (ok: bool)
      modifies this`balance, this`trace
      ensures trace == old(trace) + [BalanceRequest]
      ensures ok == reply.Ok?
      ensures balance == if ok then reply.value else old(balance)
    {
      trace := trace + [BalanceRequest];
      match reply {
        case Ok(total) =>
          balance := total;
          ok := true;
        case Threw =>
          ok := false;
      }
    }

    /** Issue one order call; once it settles, its id replaces the held one. */
    method PlaceOrder(call: Call, reply: Reply<string>) returns (ok: bool)
      modifies this`orderId, this`trace
      ensures var e := Place(old(orderId), call, reply);
              trace == old(trace) + e.calls && orderId == e.orderId && ok == e.ok
    {
      trace := trace + [call];
      match reply {
        case Ok(id) =>
          orderId := Some(id);
          ok := true;
        case Threw =>
          ok := false;
      }
    }

    /** A market buy of `amount` of the pair. */
    method PlaceBuyOrder(amount: real, reply: Reply<string>) returns (ok: bool)
      modifies this`orderId, this`trace
      ensures var e := Place(old(orderId), MarketBuy(symbol, amount), reply);
              trace == old(trace) + e.calls && orderId == e.orderId && ok == e.ok
    {
      ok := PlaceOrder(MarketBuy(symbol, amount), reply);
    }

    /** A market sell of `amount` of the pair. */
    method PlaceSellOrder(amount: real, reply: Reply<string>) returns (ok: bool)
      modifies this`orderId, this`trace
      ensures var e := Place(old(orderId), MarketSell(symbol, amount), reply);
              trace == old(trace) + e.calls && orderId == e.orderId && ok == e.ok
    {
      ok := PlaceOrder(MarketSell(symbol, amount), reply);
    }

    /** A stop sell of `amount` of the pair at `stopLossPrice`. */
    method PlaceStopLossOrder(stopLossPrice: real, amount: real, reply: Reply<string>) returns (ok: bool)
      modifies this`orderId, this`trace
      ensures var e := Place(old(orderId), StopSell(symbol, stopLossPrice, amount), reply);
              trace == old(trace) + e.calls && orderId == e.orderId && ok == e.ok
    {
      ok := PlaceOrder(StopSell(symbol, stopLossPrice, amount), reply);
    }

    /** Cancel the held order, if an id is held; once the cancel settles, hold nothing. */
    method CancelOrder(reply: Reply<()>) returns (ok: bool)
      modifies this`orderId, this`trace
      ensures var e := CancelHeld(old(orderId), symbol, reply);
              trace == old(trace) + e.calls && orderId == e.orderId && ok == e.ok
    {
      ok := true;
      if Held(orderId) {
        trace := trace + [CancelRequest(orderId.value, symbol)];
        if reply.Ok? {
          orderId := None;
        } else {
          ok := false;
        }
      }
    }

    /**
     * One trading cycle: fetch balances and candles, read the signal, then buy and protect,
     * cancel and sell, or hold. A rejected call ends the cycle where it happens.
     */
    method Run(ex: Replies, indicator: Indicator) returns (outcome: Outcome)
      requires PricedBuy(Settings(), ex, indicator)
      modifies this`balance, this`orderId, this`trace
      ensures var r := Cycle(Settings(), old(orderId), old(balance), ex, indicator);
              && orderId == r.orderId
              && balance == r.balance
              && trace == old(trace) + r.calls
              && outcome == r.outcome
    {
      var fetched := FetchBalance(ex.balance);
      if !fetched {
        return Failed(BalanceFailed);
      }

      var baseCurrency := BaseCurrency(symbol);
      var quoteCurrency := QuoteCurrency(symbol);
      var baseBalance := BalanceOf(balance, Some(baseCurrency));
      var quoteBalance := BalanceOf(balance, quoteCurrency);

      trace := trace + [OhlcvRequest(symbol, interval)];
      if ex.ohlcv.Threw? {
        return Failed(OhlcvFailed);
      }
      var closePrices := ClosePrices(ex.ohlcv.value);

      var waveCounts := indicator(closePrices, WaveDepth);

      var wave3 := Wave3(waveCounts);
      var wave5 := Last(waveCounts);
      var lastPrice := Last(closePrices);

      var action := Decide(wave3, wave5, baseBalance, quoteBalance);
      match action {
        case Buy =>
          var buyAmount := BuyAmount(quoteBalance, lastPrice.value);
          var bought := PlaceBuyOrder(buyAmount, ex.buy);
          if !bought {
            return Failed(BuyFailed);
          }
          var stopLossPrice := StopPrice(lastPrice.value, stopLossPercentage);
          var stopped := PlaceStopLossOrder(stopLossPrice, baseBalance, ex.stop);
          outcome := if stopped then Completed(Buy) else Failed(StopFailed);
        case Sell =>
          var cancelled := CancelOrder(ex.cancel);
          if !cancelled {
            return Failed(CancelFailed);
          }
          var sold := PlaceSellOrder(baseBalance, ex.sell);
          outcome := if sold then Completed(Sell) else Failed(SellFailed);
        case Hold =>
          outcome := Completed(Hold);
      }
    }
  }
}

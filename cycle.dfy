/**
 * One `run()` of the trader as a value: from the held order id, the balance map and the
 * exchange's replies, the new order id and balance map, the calls issued in order, and how
 * the cycle ended. The class in module Trader is proved to do exactly this.
 */
module TradingCycle {
  import opened Wrappers
  import opened Symbols
  import opened Balances
  import opened Signal
  import opened Exchange
  import opened Tracker

  /** The indicator: the wave values computed from the close prices with a given depth. */
  type Indicator = (seq<real>, int) -> seq<real>

  /** The depth the cycle passes to the wave indicator. */
  const WaveDepth: int := 5

  /** The trader's fixed settings. */
  datatype Config = Config(symbol: string, interval: string, stopLossPercentage: real)

  /** What the exchange would reply to each call a cycle can make; replies to calls not made are ignored. */
  datatype Replies = Replies(
    balance: Reply<Balances>,
    ohlcv: Reply<seq<Candle>>,
    buy: Reply<string>,
    stop: Reply<string>,
    cancel: Reply<()>,
    sell: Reply<string>)

  /** The awaited call whose rejection ended a cycle. */
  datatype Failure = BalanceFailed | OhlcvFailed | BuyFailed | StopFailed | CancelFailed | SellFailed

  /** How a cycle ended: it ran the decided branch to the end, or an awaited call threw. */
  datatype Outcome = Completed(action: Action) | Failed(failure: Failure)

  /** The values the cycle computes before it branches. */
  datatype Reading = Reading(baseBalance: real, quoteBalance: real, lastPrice: Option<real>, action: Action)

  /** The trader's state after a cycle, the calls it issued, and how it ended. */
  datatype CycleResult = CycleResult(orderId: Option<string>, balance: Balances, calls: seq<Call>, outcome: Outcome)

  /** The balances, last price and decision computed from the fetched data. */
  function Read(symbol: string, total: Balances, candles: seq<Candle>, indicator: Indicator): (r: Reading)
  {
    var baseBalance := BalanceOf(total, Some(BaseCurrency(symbol)));
    var quoteBalance := BalanceOf(total, QuoteCurrency(symbol));
    var closes := ClosePrices(candles);
    var waves := indicator(closes, WaveDepth);
    Reading(baseBalance, quoteBalance, Last(closes), Decide(Wave3(waves), Last(waves), baseBalance, quoteBalance))
  }

  /** `quoteBalance / lastPrice`: the amount of base currency the whole quote balance buys at the last price. */
  function BuyAmount(quoteBalance: real, lastPrice: real): (amount: real)
    requires lastPrice > 0.0
    ensures amount * lastPrice == quoteBalance
    ensures quoteBalance > 0.0 ==> amount > 0.0
  {
    quoteBalance / lastPrice
  }

  /** `lastPrice * (1 - stopLossPercentage)`: the price the stop sells at; it lies the given fraction below the last price. */
  function StopPrice(lastPrice: real, stopLossPercentage: real): (price: real)
    ensures lastPrice - price == lastPrice * stopLossPercentage
    ensures lastPrice > 0.0 && 0.0 < stopLossPercentage < 1.0 ==> 0.0 < price < lastPrice
  {
    var keep := 1.0 - stopLossPercentage;
    assert lastPrice > 0.0 && 0.0 < keep < 1.0 ==> 0.0 < lastPrice * keep < lastPrice * 1.0 by {
      if lastPrice > 0.0 && 0.0 < keep < 1.0 {
        assert lastPrice * keep < lastPrice * 1.0;
      }
    }
    lastPrice * keep
  }

  /** The reading a cycle makes once both data requests have settled. */
  function Observe(cfg: Config, ex: Replies, indicator: Indicator): (r: Reading)
    requires ex.balance.Ok? && ex.ohlcv.Ok?
  {
    Read(cfg.symbol, ex.balance.value, ex.ohlcv.value, indicator)
  }

  /** The source divides by the last close when it buys; the model asks that it then exists and is positive. */
  predicate PricedBuy(cfg: Config, ex: Replies, indicator: Indicator)
  {
    ex.balance.Ok? && ex.ohlcv.Ok? && Observe(cfg, ex, indicator).action == Buy
    ==> Observe(cfg, ex, indicator).lastPrice.Some? && Observe(cfg, ex, indicator).lastPrice.value > 0.0
  }

  /** The two data requests every cycle that gets past the balance fetch makes first. */
  function Fetches(cfg: Config): (calls: seq<Call>)
  {
    [BalanceRequest, OhlcvRequest(cfg.symbol, cfg.interval)]
  }

  /** One `run()`. */
  function Cycle(cfg: Config, orderId: Option<string>, balance: Balances, ex: Replies, indicator: Indicator): (r: CycleResult)
    requires PricedBuy(cfg, ex, indicator)
  {
    if ex.balance.Threw? then CycleResult(orderId, balance, [BalanceRequest], Failed(BalanceFailed))
    else
      var total := ex.balance.value;
      if ex.ohlcv.Threw? then CycleResult(orderId, total, Fetches(cfg), Failed(OhlcvFailed))
      else
        var rd := Observe(cfg, ex, indicator);
        match rd.action
        case Hold => CycleResult(orderId, total, Fetches(cfg), Completed(Hold))
        case Buy =>
          var price := rd.lastPrice.value;
          var buy := Place(orderId, MarketBuy(cfg.symbol, BuyAmount(rd.quoteBalance, price)), ex.buy);
          if !buy.ok then CycleResult(buy.orderId, total, Fetches(cfg) + buy.calls, Failed(BuyFailed))
          else
            var stop := Place(buy.orderId, StopSell(cfg.symbol, StopPrice(price, cfg.stopLossPercentage), rd.baseBalance), ex.stop);
            CycleResult(stop.orderId, total, Fetches(cfg) + buy.calls + stop.calls,
                        if stop.ok then Completed(Buy) else Failed(StopFailed))
        case Sell =>
          var cancel := CancelHeld(orderId, cfg.symbol, ex.cancel);
          if !cancel.ok then CycleResult(cancel.orderId, total, Fetches(cfg) + cancel.calls, Failed(CancelFailed))
          else
            var sell := Place(cancel.orderId, MarketSell(cfg.symbol, rd.baseBalance), ex.sell);
            CycleResult(sell.orderId, total, Fetches(cfg) + cancel.calls + sell.calls,
                        if sell.ok then Completed(Sell) else Failed(SellFailed))
  }
}

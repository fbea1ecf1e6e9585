/**
 * What one `run()` does, stated over the Cycle function: which branch runs, the calls it
 * issues and their order, what `orderId` and the balance map hold afterwards, and where a
 * rejected call stops the cycle.
 */
module CycleProperties {
  import opened Wrappers
  import opened Symbols
  import opened Balances
  import opened Signal
  import opened Exchange
  import opened Tracker
  import opened TradingCycle

  /** The call whose rejection is reported as `f`. */
  predicate RejectedCall(f: Failure, c: Call)
  {
    match f
    case BalanceFailed => c.BalanceRequest?
    case OhlcvFailed => c.OhlcvRequest?
    case BuyFailed => c.MarketBuy?
    case StopFailed => c.StopSell?
    case CancelFailed => c.CancelRequest?
    case SellFailed => c.MarketSell?
  }

  /** A rejected balance fetch ends the cycle after that one call and changes no state. */
  lemma BalanceFetchFails(cfg: Config, orderId: Option<string>, balance: Balances, ex: Replies, indicator: Indicator)
    requires PricedBuy(cfg, ex, indicator) && ex.balance.Threw?
    ensures Cycle(cfg, orderId, balance, ex, indicator) == CycleResult(orderId, balance, [BalanceRequest], Failed(BalanceFailed))
  {
  }

  /**
   * Once the balance fetch settles, the whole map is replaced by the fetched one, and the
   * cycle's first two calls are the balance fetch and the OHLCV fetch for the configured pair and interval.
   */
  lemma BalanceReplaced(cfg: Config, orderId: Option<string>, balance: Balances, ex: Replies, indicator: Indicator)
    requires PricedBuy(cfg, ex, indicator) && ex.balance.Ok?
    ensures var r := Cycle(cfg, orderId, balance, ex, indicator);
            r.balance == ex.balance.value && |r.calls| >= 2 && r.calls[..2] == Fetches(cfg)
    ensures ex.ohlcv.Threw? ==> Cycle(cfg, orderId, balance, ex, indicator)
                                == CycleResult(orderId, ex.balance.value, Fetches(cfg), Failed(OhlcvFailed))
  {
  }

  /** Hold: no order call at all, and `orderId` is left as it was. */
  lemma HoldBranch(cfg: Config, orderId: Option<string>, balance: Balances, ex: Replies, indicator: Indicator)
    requires PricedBuy(cfg, ex, indicator) && ex.balance.Ok? && ex.ohlcv.Ok?
    requires Observe(cfg, ex, indicator).action == Hold
    ensures Cycle(cfg, orderId, balance, ex, indicator) == CycleResult(orderId, ex.balance.value, Fetches(cfg), Completed(Hold))
  {
  }

  /** Fewer than three indicator values: the cycle holds. */
  lemma ShortWavesCycleHolds(cfg: Config, orderId: Option<string>, balance: Balances, ex: Replies, indicator: Indicator)
    requires PricedBuy(cfg, ex, indicator) && ex.balance.Ok? && ex.ohlcv.Ok?
    requires |indicator(ClosePrices(ex.ohlcv.value), WaveDepth)| < 3
    ensures Cycle(cfg, orderId, balance, ex, indicator) == CycleResult(orderId, ex.balance.value, Fetches(cfg), Completed(Hold))
  {
    var rd := Observe(cfg, ex, indicator);
    ShortWavesHold(indicator(ClosePrices(ex.ohlcv.value), WaveDepth), rd.baseBalance, rd.quoteBalance);
  }

  /**
   * Buy, both orders settling: a market buy of the whole quote balance at the last price
   * (BuyAmount), then a stop sell at the stop-loss fraction below the last price (StopPrice), sized
   * at the base balance read before the buy; the stop's id, not the buy's, is what is held afterwards.
   */
  lemma BuyBranch(cfg: Config, orderId: Option<string>, balance: Balances, ex: Replies, indicator: Indicator)
    requires PricedBuy(cfg, ex, indicator) && ex.balance.Ok? && ex.ohlcv.Ok?
    requires Observe(cfg, ex, indicator).action == Buy
    requires ex.buy.Ok? && ex.stop.Ok?
    ensures var rd := Observe(cfg, ex, indicator);
            var r := Cycle(cfg, orderId, balance, ex, indicator);
            && r.calls == Fetches(cfg) + [MarketBuy(cfg.symbol, BuyAmount(rd.quoteBalance, rd.lastPrice.value)),
                                          StopSell(cfg.symbol, StopPrice(rd.lastPrice.value, cfg.stopLossPercentage), rd.baseBalance)]
            && r.orderId == Some(ex.stop.value)
            && r.balance == ex.balance.value
            && r.outcome == Completed(Buy)
  {
  }

  /** Buy, the market buy rejected: no stop is placed and `orderId` is unchanged. */
  lemma BuyFails(cfg: Config, orderId: Option<string>, balance: Balances, ex: Replies, indicator: Indicator)
    requires PricedBuy(cfg, ex, indicator) && ex.balance.Ok? && ex.ohlcv.Ok?
    requires Observe(cfg, ex, indicator).action == Buy
    requires ex.buy.Threw?
    ensures var rd := Observe(cfg, ex, indicator);
            Cycle(cfg, orderId, balance, ex, indicator) == CycleResult(
              orderId, ex.balance.value,
              Fetches(cfg) + [MarketBuy(cfg.symbol, BuyAmount(rd.quoteBalance, rd.lastPrice.value))],
              Failed(BuyFailed))
  {
  }

  /** Buy, the buy settling and the stop rejected: the position is unprotected and the buy's id is what is held. */
  lemma StopFails(cfg: Config, orderId: Option<string>, balance: Balances, ex: Replies, indicator: Indicator)
    requires PricedBuy(cfg, ex, indicator) && ex.balance.Ok? && ex.ohlcv.Ok?
    requires Observe(cfg, ex, indicator).action == Buy
    requires ex.buy.Ok? && ex.stop.Threw?
    ensures var r := Cycle(cfg, orderId, balance, ex, indicator);
            r.orderId == Some(ex.buy.value) && r.outcome == Failed(StopFailed)
            && |r.calls| == 4 && r.calls[2].MarketBuy? && r.calls[3].StopSell?
  {
  }

  /**
   * Sell, every call settling: the held order (if any) is cancelled before a market sell of the
   * whole base balance read at the start of the cycle; the sell's id, not null, is held afterwards.
   */
  lemma SellBranch(cfg: Config, orderId: Option<string>, balance: Balances, ex: Replies, indicator: Indicator)
    requires PricedBuy(cfg, ex, indicator) && ex.balance.Ok? && ex.ohlcv.Ok?
    requires Observe(cfg, ex, indicator).action == Sell
    requires ex.cancel.Ok? && ex.sell.Ok?
    ensures var rd := Observe(cfg, ex, indicator);
            Cycle(cfg, orderId, balance, ex, indicator) == CycleResult(
              Some(ex.sell.value), ex.balance.value,
              Fetches(cfg) + (if Held(orderId) then [CancelRequest(orderId.value, cfg.symbol)] else [])
                           + [MarketSell(cfg.symbol, rd.baseBalance)],
              Completed(Sell))
  {
  }

  /** Sell with an id held and the cancel rejected: no sell is issued and the id is still held. */
  lemma CancelFails(cfg: Config, orderId: Option<string>, balance: Balances, ex: Replies, indicator: Indicator)
    requires PricedBuy(cfg, ex, indicator) && ex.balance.Ok? && ex.ohlcv.Ok?
    requires Observe(cfg, ex, indicator).action == Sell
    requires Held(orderId) && ex.cancel.Threw?
    ensures Cycle(cfg, orderId, balance, ex, indicator) == CycleResult(
              orderId, ex.balance.value, Fetches(cfg) + [CancelRequest(orderId.value, cfg.symbol)], Failed(CancelFailed))
  {
  }

  /** Sell with the cancel done and the sell rejected: the cancelled id is gone, so nothing is held. */
  lemma SellFails(cfg: Config, orderId: Option<string>, balance: Balances, ex: Replies, indicator: Indicator)
    requires PricedBuy(cfg, ex, indicator) && ex.balance.Ok? && ex.ohlcv.Ok?
    requires Observe(cfg, ex, indicator).action == Sell
    requires ex.cancel.Ok? && ex.sell.Threw?
    ensures var r := Cycle(cfg, orderId, balance, ex, indicator);
            r.outcome == Failed(SellFailed) && r.calls[|r.calls| - 1].MarketSell?
            && r.orderId == (if Held(orderId) then None else orderId)
  {
  }

  /**
   * Exactly one branch: a completed cycle took the decided action, and no cycle both buys and
   * sells (or cancels), nor issues any order call twice.
   */
  lemma OneBranch(cfg: Config, orderId: Option<string>, balance: Balances, ex: Replies, indicator: Indicator)
    requires PricedBuy(cfg, ex, indicator)
    ensures var r := Cycle(cfg, orderId, balance, ex, indicator);
            && (r.outcome.Completed? ==> ex.balance.Ok? && ex.ohlcv.Ok? && r.outcome.action == Observe(cfg, ex, indicator).action)
            && ((exists i :: 0 <= i < |r.calls| && r.calls[i].MarketBuy?)
                ==> forall i :: 0 <= i < |r.calls| ==> !r.calls[i].MarketSell? && !r.calls[i].CancelRequest?)
            && (forall i, j :: 0 <= i < j < |r.calls| ==> r.calls[i] != r.calls[j])
  {
  }

  /** A rejected call is the last call of its cycle: nothing after it reaches the exchange. */
  lemma FailureStopsCycle(cfg: Config, orderId: Option<string>, balance: Balances, ex: Replies, indicator: Indicator)
    requires PricedBuy(cfg, ex, indicator)
    ensures var r := Cycle(cfg, orderId, balance, ex, indicator);
            r.outcome.Failed? ==> |r.calls| >= 1 && RejectedCall(r.outcome.failure, r.calls[|r.calls| - 1])
  {
  }

  /**
   * The buy branch never cancels: an id held from an earlier cycle is overwritten by the new
   * buy's id (and then the new stop's), and the old stop is no longer tracked.
   */
  lemma BuyOverwritesHeldStop(cfg: Config, orderId: Option<string>, balance: Balances, ex: Replies, indicator: Indicator)
    requires PricedBuy(cfg, ex, indicator) && ex.balance.Ok? && ex.ohlcv.Ok?
    requires Observe(cfg, ex, indicator).action == Buy
    requires ex.buy.Ok?
    ensures var r := Cycle(cfg, orderId, balance, ex, indicator);
            && r.orderId == (if ex.stop.Ok? then Some(ex.stop.value) else Some(ex.buy.value))
            && forall i :: 0 <= i < |r.calls| ==> !r.calls[i].CancelRequest?
  {
  }

  /**
   * The stop is sized at the base balance read before the buy: on a first entry, with no base
   * currency in the fetched map, the protective stop is for an amount of 0.
   */
  lemma FirstEntryStopIsEmpty(cfg: Config, orderId: Option<string>, balance: Balances, ex: Replies, indicator: Indicator)
    requires PricedBuy(cfg, ex, indicator) && ex.balance.Ok? && ex.ohlcv.Ok?
    requires Observe(cfg, ex, indicator).action == Buy && ex.buy.Ok?
    requires BaseCurrency(cfg.symbol) !in ex.balance.value
    ensures var r := Cycle(cfg, orderId, balance, ex, indicator);
            r.calls[3].StopSell? && r.calls[3].amount == 0.0
  {
  }

  /** 1000 USDT at a last price of 50000 buys 0.02 BTC, and a 3% stop sits at 48500. */
  lemma EntryArithmetic()
    ensures BuyAmount(1000.0, 50000.0) == 0.02
    ensures StopPrice(50000.0, 0.03) == 48500.0
  {
  }

  /**
   * A sell signal on a pair BASE/QUOTE holding 0.02 BASE and a tracked stop: the stop is cancelled,
   * then the whole 0.02 BASE is sold, and the sell's id is what is held.
   */
  lemma SellScenario(base: string, quote: string, stopId: string, sellId: string)
    requires Separator !in base && Separator !in quote && base != quote && stopId != ""
    ensures var cfg := Config(base + [Separator] + quote, "1h", 0.03);
            var total := map[base := 0.02, quote := 0.0];
            var ex := Replies(Ok(total), Ok([Candle(0, 1.0, 1.0, 1.0, 50000.0, 1.0)]), Threw, Threw, Ok(()), Ok(sellId));
            var indicator: Indicator := (closes: seq<real>, depth: int) => [1.0, 0.5, -1.0];
            PricedBuy(cfg, ex, indicator) &&
            Cycle(cfg, Some(stopId), map[], ex, indicator) == CycleResult(
              Some(sellId), total,
              [BalanceRequest, OhlcvRequest(cfg.symbol, "1h"), CancelRequest(stopId, cfg.symbol), MarketSell(cfg.symbol, 0.02)],
              Completed(Sell))
  {
    var cfg := Config(base + [Separator] + quote, "1h", 0.03);
    var total := map[base := 0.02, quote := 0.0];
    var ex := Replies(Ok(total), Ok([Candle(0, 1.0, 1.0, 1.0, 50000.0, 1.0)]), Threw, Threw, Ok(()), Ok(sellId));
    var indicator: Indicator := (closes: seq<real>, depth: int) => [1.0, 0.5, -1.0];
    PairBalances(total, base, quote);
    var waves := indicator(ClosePrices(ex.ohlcv.value), WaveDepth);
    assert Wave3(waves) == Some(1.0) && Last(waves) == Some(-1.0);
    var rd := Observe(cfg, ex, indicator);
    assert rd.baseBalance == 0.02;
    assert rd.action == Sell;
    SellBranch(cfg, Some(stopId), map[], ex, indicator);
  }
}

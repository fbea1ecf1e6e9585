/**
 * The trading signal: reading wave3, wave5 and the last price out of the indicator
 * and price series with JavaScript's array indexing, and the buy / sell / hold rule.
 */
module Signal {
  import opened Wrappers

  /** The one action a cycle takes. */
  datatype Action = Buy | Sell | Hold

  /** `s[i]` in JavaScript: the element when `i` is a valid index, `undefined` otherwise (negative indices included). */
  function At(s: seq<real>, i: int): (r: Option<real>)
    ensures r.Some? <==> 0 <= i < |s|
    ensures r.Some? ==> r.value == s[i]
  {
    if 0 <= i < |s| then Some(s[i]) else None
  }

  /** `x < 0`, which is false when `x` is `undefined`. */
  predicate Negative(x: Option<real>)
  {
    x.Some? && x.value < 0.0
  }

  /** `x > 0`, which is false when `x` is `undefined`. */
  predicate Positive(x: Option<real>)
  {
    x.Some? && x.value > 0.0
  }

  /** `waveCounts[waveCounts.length - 3]`. */
  function Wave3(waves: seq<real>): (w: Option<real>)
    ensures |waves| >= 3 ==> w == Some(waves[|waves| - 3])
    ensures |waves| < 3 ==> w == None
  {
    At(waves, |waves| - 3)
  }

  /** `s[s.length - 1]`: wave5 of the indicator values, and the last price of the close prices. */
  function Last(s: seq<real>): (x: Option<real>)
    ensures |s| >= 1 ==> x == Some(s[|s| - 1])
    ensures |s| == 0 ==> x == None
  {
    At(s, |s| - 1)
  }

  /** The entry condition: wave3 below zero, wave5 above zero, and quote currency to spend. */
  predicate BuySignal(wave3: Option<real>, wave5: Option<real>, quoteBalance: real)
  {
    Negative(wave3) && Positive(wave5) && quoteBalance > 0.0
  }

  /** The exit condition: wave3 above zero, wave5 below zero, and base currency to sell. */
  predicate SellSignal(wave3: Option<real>, wave5: Option<real>, baseBalance: real)
  {
    Positive(wave3) && Negative(wave5) && baseBalance > 0.0
  }

  /**
   * The cycle's decision, the buy test first. A trade needs both wave values present and of
   * opposite signs, and a positive amount of the currency the trade spends.
   */
  function Decide(wave3: Option<real>, wave5: Option<real>, baseBalance: real, quoteBalance: real): (a: Action)
    ensures a != Hold ==> wave3.Some? && wave5.Some? && wave3.value * wave5.value < 0.0
    ensures a == Buy ==> quoteBalance > 0.0 && wave3.value < 0.0
    ensures a == Sell ==> baseBalance > 0.0 && wave3.value > 0.0
  {
    if BuySignal(wave3, wave5, quoteBalance) then Buy
    else if SellSignal(wave3, wave5, baseBalance) then Sell
    else Hold
  }

  /** The buy test and the sell test can never both pass, so the buy-first order never decides anything. */
  lemma SignalsExclusive(wave3: Option<real>, wave5: Option<real>, baseBalance: real, quoteBalance: real)
    ensures !(BuySignal(wave3, wave5, quoteBalance) && SellSignal(wave3, wave5, baseBalance))
  {
  }

  /** Buy exactly when the entry condition holds, whatever the base balance. */
  lemma DecideBuy(wave3: Option<real>, wave5: Option<real>, baseBalance: real, quoteBalance: real)
    ensures Decide(wave3, wave5, baseBalance, quoteBalance) == Buy <==> BuySignal(wave3, wave5, quoteBalance)
  {
  }

  /** Sell exactly when the exit condition holds. */
  lemma DecideSell(wave3: Option<real>, wave5: Option<real>, baseBalance: real, quoteBalance: real)
    ensures Decide(wave3, wave5, baseBalance, quoteBalance) == Sell <==> SellSignal(wave3, wave5, baseBalance)
  {
    SignalsExclusive(wave3, wave5, baseBalance, quoteBalance);
  }

  /** Hold exactly when neither condition holds. */
  lemma DecideHold(wave3: Option<real>, wave5: Option<real>, baseBalance: real, quoteBalance: real)
    ensures Decide(wave3, wave5, baseBalance, quoteBalance) == Hold
        <==> !BuySignal(wave3, wave5, quoteBalance) && !SellSignal(wave3, wave5, baseBalance)
  {
  }

  /** With fewer than three indicator values wave3 is `undefined`, both tests fail, and the cycle holds. */
  lemma ShortWavesHold(waves: seq<real>, baseBalance: real, quoteBalance: real)
    requires |waves| < 3
    ensures Decide(Wave3(waves), Last(waves), baseBalance, quoteBalance) == Hold
  {
  }
}

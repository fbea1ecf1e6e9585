/**
 * The balance map the trader keeps (`balanceData.total` of the last fetch) and the
 * `this.balance[currency] || 0` lookup of the cycle.
 */
module Balances {
  import opened Wrappers
  import opened Symbols

  /** Currency code to total amount held. */
  type Balances = map<string, real>

  /** The property name JavaScript uses to index an object with a key that may be `undefined`. */
  const UndefinedKey: string := "undefined"

  function PropertyKey(key: Option<string>): (name: string)
  {
    match key
    case Some(k) => k
    case None => UndefinedKey
  }

  /** `total[currency] || 0`: the amount held, and 0 when the map has no entry under that key. */
  function BalanceOf(total: Balances, currency: Option<string>): (amount: real)
    ensures PropertyKey(currency) !in total ==> amount == 0.0
    ensures PropertyKey(currency) in total ==> amount == total[PropertyKey(currency)]
  {
    var key := PropertyKey(currency);
    if key in total && total[key] != 0.0 then total[key] else 0.0
  }

  /**
   * For a symbol "BASE/QUOTE" the cycle reads the amounts held in BASE and in QUOTE, each 0 when absent.
   */
  lemma PairBalances(total: Balances, base: string, quote: string)
    requires Separator !in base && Separator !in quote
    ensures BalanceOf(total, Some(BaseCurrency(base + [Separator] + quote))) == (if base in total then total[base] else 0.0)
    ensures BalanceOf(total, QuoteCurrency(base + [Separator] + quote)) == (if quote in total then total[quote] else 0.0)
  {
    PairOf(base, quote, []);
    assert base + [Separator] + quote + [] == base + [Separator] + quote;
  }

  /**
   * A symbol without a separator has an `undefined` quote currency, so the quote amount is
   * whatever the map holds under the key "undefined" (0 for any real exchange).
   */
  lemma UnseparatedQuoteBalance(total: Balances, symbol: string)
    requires Separator !in symbol
    ensures BalanceOf(total, QuoteCurrency(symbol)) == (if UndefinedKey in total then total[UndefinedKey] else 0.0)
  {
    NoQuote(symbol);
  }
}

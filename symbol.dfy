/**
 * Market symbols such as "BTC/USDT": JavaScript's `symbol.split("/")` and the
 * base and quote currencies read from its first and second parts.
 */
module Symbols {
  import opened Wrappers

  /** The character that separates the base currency from the quote currency. */
  const Separator: char := '/'

  /** `s.split("/")`: the separator-free runs of `s`, in order; there is always at least one. */
  function Split(s: string): (parts: seq<string>)
    ensures |parts| >= 1
    ensures forall i :: 0 <= i < |parts| ==> Separator !in parts[i]
  {
    if s == [] then [[]]
    else
      var rest := Split(s[1..]);
      if s[0] == Separator then [[]] + rest
      else [[s[0]] + rest[0]] + rest[1..]
  }

  /** The inverse of Split: the parts glued back together with the separator between them. */
  function Join(parts: seq<string>): (s: string)
    requires |parts| >= 1
  {
    if |parts| == 1 then parts[0] else parts[0] + [Separator] + Join(parts[1..])
  }

  /** Joining is unaffected by moving a leading character out of the first part. */
  lemma JoinConsChar(c: char, p: string, ps: seq<string>)
    ensures Join([[c] + p] + ps) == [c] + Join([p] + ps)
  {
  }

  /** Splitting and then joining gives back the original string. */
  lemma {:induction false} JoinSplit(s: string)
    ensures Join(Split(s)) == s
  {
    if s != [] {
      var rest := Split(s[1..]);
      JoinSplit(s[1..]);
      if s[0] == Separator {
        assert ([[]] + rest)[1..] == rest;
      } else {
        JoinConsChar(s[0], rest[0], rest[1..]);
        assert [rest[0]] + rest[1..] == rest;
      }
    }
  }

  /** A string without a separator splits into itself. */
  lemma {:induction false} SplitNoSeparator(a: string)
    requires Separator !in a
    ensures Split(a) == [a]
  {
    if a != [] {
      assert Separator !in a[1..];
      SplitNoSeparator(a[1..]);
      assert [a[0]] + a[1..] == a;
    }
  }

  /** A separator-free first part followed by a separator is split off as one part. */
  lemma {:induction false} SplitAfterSeparator(a: string, b: string)
    requires Separator !in a
    ensures Split(a + [Separator] + b) == [a] + Split(b)
  {
    var s := a + [Separator] + b;
    if a == [] {
      assert s[1..] == b;
    } else {
      assert s[1..] == a[1..] + [Separator] + b;
      assert Separator !in a[1..];
      SplitAfterSeparator(a[1..], b);
      assert [a[0]] + a[1..] == a;
    }
  }

  /** Joining separator-free parts and splitting again gives back the parts. */
  lemma {:induction false} SplitJoin(parts: seq<string>)
    requires |parts| >= 1
    requires forall i :: 0 <= i < |parts| ==> Separator !in parts[i]
    ensures Split(Join(parts)) == parts
  {
    if |parts| == 1 {
      SplitNoSeparator(parts[0]);
    } else {
      SplitJoin(parts[1..]);
      SplitAfterSeparator(parts[0], Join(parts[1..]));
      assert [parts[0]] + parts[1..] == parts;
    }
  }

  /** `symbol.split("/")[0]`: the currency before the first separator. */
  function BaseCurrency(symbol: string): (base: string)
    ensures Separator !in base
  {
    Split(symbol)[0]
  }

  /** `symbol.split("/")[1]`: the currency between the first and second separators, `undefined` when there is no separator. */
  function QuoteCurrency(symbol: string): (quote: Option<string>)
    ensures quote.Some? ==> Separator !in quote.value
  {
    var parts := Split(symbol);
    if |parts| >= 2 then Some(parts[1]) else None
  }

  /**
   * A symbol "BASE/QUOTE", possibly followed by further "/..." parts, yields BASE and QUOTE.
   */
  lemma PairOf(base: string, quote: string, rest: string)
    requires Separator !in base && Separator !in quote
    requires rest == [] || rest[0] == Separator
    ensures BaseCurrency(base + [Separator] + quote + rest) == base
    ensures QuoteCurrency(base + [Separator] + quote + rest) == Some(quote)
  {
    var symbol := base + [Separator] + quote + rest;
    assert symbol == base + [Separator] + (quote + rest);
    SplitAfterSeparator(base, quote + rest);
    if rest == [] {
      assert quote + rest == quote;
      SplitNoSeparator(quote);
    } else {
      assert quote + rest == quote + [Separator] + rest[1..];
      SplitAfterSeparator(quote, rest[1..]);
    }
  }

  /** A symbol without a separator is all base currency, and its quote currency is `undefined`. */
  lemma NoQuote(symbol: string)
    requires Separator !in symbol
    ensures BaseCurrency(symbol) == symbol
    ensures QuoteCurrency(symbol) == None
  {
    SplitNoSeparator(symbol);
  }
}

/**
 * The price oracle as the trading handlers see it (application.py, quotePrice).
 *
 * The external `lookup` service is a parameter: `Some(p)` when it resolves the
 * symbol to a dictionary whose "price" is `p`, `None` when it returns nothing.
 * Symbols are compared and stored as plain strings; case conversion is ASCII only.
 */
module Quotes {
  import opened Optional

  /** The external quote service: a symbol to a price, or nothing. */
  type Lookup = string -> Option<real>

  /** The price `quotePrice` reports when there is no quote. */
  const Sentinel: real := -1.0

  /**
   * quotePrice as it is evidently meant to behave: an empty symbol or a failed
   * lookup collapses to the sentinel -1, otherwise the oracle's price.
   */
  function QuotePrice(lookup: Lookup, stock: string): (r: real)
    ensures stock == "" ==> r == Sentinel
    ensures stock != "" && lookup(stock).None? ==> r == Sentinel
    ensures stock != "" && lookup(stock).Some? ==> r == lookup(stock).value
  {
    if stock == "" then Sentinel
    else match lookup(stock)
      case Some(p) => p
      case None => Sentinel
  }

  /**
   * quotePrice as written: for the empty symbol the `else` branch that binds
   * the lookup result is skipped, so reading it raises (modelled as `None`);
   * every other symbol gets the oracle's price or the sentinel.
   */
  function QuotePriceAsWritten(lookup: Lookup, stock: string): (r: Option<real>)
    ensures r.None? <==> stock == ""
    ensures stock != "" && lookup(stock).None? ==> r == Some(Sentinel)
    ensures stock != "" && lookup(stock).Some? ==> r == lookup(stock)
  {
    if stock == "" then None
    else
      var found := lookup(stock);
      if found.Some? then Some(found.value) else Some(Sentinel)
  }

  /** The as-written quote raises exactly where the intended one reports the sentinel. */
  lemma QuoteAsWrittenRaisesOnEmpty(lookup: Lookup, stock: string)
    ensures stock == "" ==> QuotePriceAsWritten(lookup, stock).None? && QuotePrice(lookup, stock) == Sentinel
    ensures stock != "" ==> QuotePriceAsWritten(lookup, stock) == Some(QuotePrice(lookup, stock))
  {
  }

  /** A sentinel price is either a failed quote or an oracle that itself said -1. */
  lemma SentinelMeansFailureOrMinusOne(lookup: Lookup, stock: string)
    requires QuotePrice(lookup, stock) == Sentinel
    ensures stock == "" || lookup(stock) == None || lookup(stock) == Some(Sentinel)
  {
  }

  function LowerChar(c: char): char {
    if 'A' <= c <= 'Z' then (c as int + 32) as char else c
  }

  function UpperChar(c: char): char {
    if 'a' <= c <= 'z' then (c as int - 32) as char else c
  }

  /** Python's `str.lower()` restricted to ASCII letters. */
  function Lower(s: string): (r: string)
    ensures |r| == |s|
    ensures forall i :: 0 <= i < |s| ==> r[i] == LowerChar(s[i])
    ensures forall i :: 0 <= i < |r| ==> !('A' <= r[i] <= 'Z')
  {
    seq(|s|, i requires 0 <= i < |s| => LowerChar(s[i]))
  }

  /** Python's `str.upper()` restricted to ASCII letters. */
  function Upper(s: string): (r: string)
    ensures |r| == |s|
    ensures forall i :: 0 <= i < |s| ==> r[i] == UpperChar(s[i])
    ensures forall i :: 0 <= i < |r| ==> !('a' <= r[i] <= 'z')
  {
    seq(|s|, i requires 0 <= i < |s| => UpperChar(s[i]))
  }
}

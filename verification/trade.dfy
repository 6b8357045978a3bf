/**
 * The two trading requests of application.py: the `buy` POST branch (lines
 * 83-102) and the `sell` POST branches (lines 282-316). Each is a guarded
 * append: it either yields the store with exactly one new row, or an apology
 * and no change. The quote oracle is a parameter; form fields arrive already
 * parsed (`shares` is `None` when the field is missing or empty).
 */
module Trade {
  import opened Optional
  import opened Quotes
  import opened Ledger

  /** Why a request appended nothing. */
  datatype Rejection =
    | CheckInput       // "Sorry, Check your input again!"
    | NotEnoughFunds   // "Not enough funds"
    | MissingValues    // "Missing Values - try again"
    | ServerError      // an exception in the handler, answered by the error handler

  datatype Outcome = Accepted(store: Store) | Rejected(reason: Rejection)

  /**
   * Buy `shares` of `symbol` for user `u`. The symbol is lower-cased and
   * quoted; a missing user id, symbol or share count, and a zero or negative
   * (failed) quote are refused. The share count itself is never checked for
   * sign. The purchase goes through only when the funds left would be
   * strictly positive, and is stored with the negated price and type -1.
   */
  function Buy(lookup: Lookup, s: Store, u: UserId, symbol: string, shares: Option<real>): (r: Outcome)
    ensures r.Accepted? <==>
      && u != 0 && symbol != "" && shares.Some?
      && QuotePrice(lookup, Lower(symbol)) > 0.0
      && u in s.cash
      && Funds(s, u).value - shares.value * QuotePrice(lookup, Lower(symbol)) > 0.0
    ensures r.Accepted? ==>
      && r.store.cash == s.cash
      && r.store.log == s.log + [Tx(u, Lower(symbol), shares.value, -QuotePrice(lookup, Lower(symbol)), Purchase)]
    ensures lookup(Lower(symbol)).None? ==> r == Rejected(CheckInput)
    ensures u == 0 || symbol == "" || shares.None? ==> r == Rejected(CheckInput)
    ensures QuotePrice(lookup, Lower(symbol)) <= 0.0 ==> r == Rejected(CheckInput)
    ensures u != 0 && symbol != "" && shares.Some? && QuotePrice(lookup, Lower(symbol)) > 0.0 && u !in s.cash
      ==> r == Rejected(ServerError)
    ensures r.Rejected? && u in s.cash && r.reason != CheckInput ==> r.reason == NotEnoughFunds
    ensures u != 0 && symbol != "" && shares.Some? && QuotePrice(lookup, Lower(symbol)) > 0.0 && u in s.cash && r.Rejected?
      ==> r == Rejected(NotEnoughFunds)
  {
    var asked := Lower(symbol);
    var price := QuotePrice(lookup, asked);
    if u == 0 || asked == "" || shares.None? || price == 0.0 || price < 0.0 then
      Rejected(CheckInput)
    else if u !in s.cash then
      // the funds query yields NULL and `None - cost` raises
      Rejected(ServerError)
    else
      var funds := Funds(s, u).value;
      var row := Tx(u, asked, shares.value, -price, Purchase);
      if funds - shares.value * price > 0.0 then
        Accepted(s.(log := s.log + [row]))
      else
        Rejected(NotEnoughFunds)
  }

  /**
   * Sell `shares` of `stockSold` for user `u`. A missing share count makes
   * the `float` conversion raise. An empty symbol, a zero share count or a
   * zero quote are refused, but a failed quote (-1) is not. The available
   * quantity is the unsigned SUM(quantity) over the user's rows for the
   * symbol (NULL, and a raising comparison, when there are none); the sale
   * goes through when 0 < shares <= that sum and is stored with the quoted
   * price as is and type 1.
   */
  function Sell(lookup: Lookup, s: Store, u: UserId, stockSold: string, shares: Option<real>): (r: Outcome)
    ensures r.Accepted? <==>
      && shares.Some? && stockSold != "" && shares.value != 0.0
      && QuotePrice(lookup, stockSold) != 0.0
      && QuantitySum(s.log, u, stockSold).Some?
      && 0.0 < shares.value <= QuantitySum(s.log, u, stockSold).value
    ensures r.Accepted? ==>
      && r.store.cash == s.cash
      && r.store.log == s.log + [Tx(u, stockSold, shares.value, QuotePrice(lookup, stockSold), Sale)]
      && Held(r.store.log, u, stockSold) == Held(s.log, u, stockSold) - shares.value
      && QuantitySum(r.store.log, u, stockSold) == Some(QuantitySum(s.log, u, stockSold).value + shares.value)
    ensures r.Accepted? && lookup(stockSold).None? ==> r.store.log[|s.log|].price == Sentinel
    ensures shares.None? ==> r == Rejected(ServerError)
    ensures shares.Some? && r.Rejected? ==> r.reason in {MissingValues, ServerError}
    ensures shares.Some? && (stockSold == "" || shares.value == 0.0 || QuotePrice(lookup, stockSold) == 0.0)
      ==> r == Rejected(MissingValues)
    ensures shares.Some? && stockSold != "" && shares.value != 0.0 && QuotePrice(lookup, stockSold) != 0.0
      && QuantitySum(s.log, u, stockSold).None?
      ==> r == Rejected(ServerError)
    ensures shares.Some? && stockSold != "" && shares.value != 0.0 && QuotePrice(lookup, stockSold) != 0.0
      && QuantitySum(s.log, u, stockSold).Some?
      && (shares.value > QuantitySum(s.log, u, stockSold).value || shares.value <= 0.0)
      ==> r == Rejected(MissingValues)
  {
    if shares.None? then
      Rejected(ServerError)
    else
      var qty := shares.value;
      var price := QuotePrice(lookup, stockSold);
      if stockSold == "" || qty == 0.0 || price == 0.0 then
        Rejected(MissingValues)
      else match QuantitySum(s.log, u, stockSold)
        case None =>
          // `sellQty > None` raises
          Rejected(ServerError)
        case Some(available) =>
          if qty > available || qty <= 0.0 then
            Rejected(MissingValues)
          else
            var row := Tx(u, stockSold, qty, price, Sale);
            HeldAfterAppend(s.log, row, u, stockSold);
            QuantitySumAfterAppend(s.log, row, u, stockSold);
            Accepted(s.(log := s.log + [row]))
  }

  /** The JSON the sell page fetches for a symbol: quote, shares, average purchase price. */
  datatype SaleQuote = SaleQuote(price: real, quantity: Option<real>, buyPrice: Option<real>)

  /**
   * The `type == "sale"` branch of the sell POST (lines 282-291): quote the
   * lower-cased symbol and report SUM(quantity) and the average purchase price.
   */
  function SaleInfo(lookup: Lookup, s: Store, u: UserId, stock: string): (r: SaleQuote)
    ensures r.quantity.None? <==> forall i :: 0 <= i < |s.log| ==> !(s.log[i].user == u && s.log[i].symbol == Lower(stock))
    ensures r.buyPrice.None? <==>
      forall i :: 0 <= i < |s.log| ==> !(s.log[i].user == u && s.log[i].symbol == Lower(stock) && s.log[i].price < 0.0)
    ensures r.price == QuotePrice(lookup, Lower(stock))
    ensures r.quantity == QuantitySum(s.log, u, Lower(stock))
    ensures r.buyPrice == AvgPurchasePrice(s.log, u, Lower(stock))
    ensures lookup(Lower(stock)).None? ==> r.price == Sentinel
  {
    var asked := Lower(stock);
    SaleQuote(QuotePrice(lookup, asked), QuantitySum(s.log, u, asked), AvgPurchasePrice(s.log, u, asked))
  }

  /**
   * What the sell page shows for a symbol before and after an accepted sale of
   * it at a non-negative quote: the shown quantity rises by the shares sold
   * (the sum counts sales too), and the average purchase price is unchanged.
   */
  lemma SaleInfoAfterSell(lookup: Lookup, s: Store, u: UserId, sym: string, shares: Option<real>)
    requires Sell(lookup, s, u, sym, shares).Accepted?
    requires Lower(sym) == sym && QuotePrice(lookup, sym) >= 0.0
    ensures var before := SaleInfo(lookup, s, u, sym);
      var after := SaleInfo(lookup, Sell(lookup, s, u, sym, shares).store, u, sym);
      && after.price == before.price
      && before.quantity.Some?
      && after.quantity == Some(before.quantity.value + shares.value)
      && after.buyPrice == before.buyPrice
  {
    SaleKeepsAvgPurchasePrice(lookup, s, u, sym, shares, u, sym);
  }

  /**
   * An accepted sale changes the holding and SUM(quantity) of the sold
   * symbol of the seller only: every other user's and every other symbol's
   * stay as they were.
   */
  lemma SellLeavesOthersAlone(lookup: Lookup, s: Store, u: UserId, sym: string, shares: Option<real>, v: UserId, other: string)
    requires Sell(lookup, s, u, sym, shares).Accepted?
    requires v != u || other != sym
    ensures Held(Sell(lookup, s, u, sym, shares).store.log, v, other) == Held(s.log, v, other)
    ensures QuantitySum(Sell(lookup, s, u, sym, shares).store.log, v, other) == QuantitySum(s.log, v, other)
  {
    var row := Tx(u, sym, shares.value, QuotePrice(lookup, sym), Sale);
    HeldAfterAppend(s.log, row, v, other);
    QuantitySumAfterAppend(s.log, row, v, other);
  }

  /**
   * An accepted purchase lowers the buyer's funds by its cost and leaves them
   * strictly positive; every other user's funds are unchanged.
   */
  lemma BuyFunds(lookup: Lookup, s: Store, u: UserId, symbol: string, shares: Option<real>, v: UserId)
    requires Buy(lookup, s, u, symbol, shares).Accepted?
    requires v in s.cash
    ensures var after := Buy(lookup, s, u, symbol, shares).store;
      && (v == u ==> Funds(after, v).value == Funds(s, v).value - shares.value * QuotePrice(lookup, Lower(symbol)))
      && (v == u ==> Funds(after, v).value > 0.0)
      && (v != u ==> Funds(after, v) == Funds(s, v))
  {
    var price := QuotePrice(lookup, Lower(symbol));
    var row := Tx(u, Lower(symbol), shares.value, -price, Purchase);
    FundsAfterAppend(s, row, v);
    assert row.price * row.quantity == -(shares.value * price);
  }

  /**
   * A sale quoted at a non-negative price leaves every average purchase price
   * as it was: the average only looks at rows with a negative stored price.
   */
  lemma SaleKeepsAvgPurchasePrice(lookup: Lookup, s: Store, u: UserId, sym: string, shares: Option<real>, v: UserId, other: string)
    requires Sell(lookup, s, u, sym, shares).Accepted?
    requires QuotePrice(lookup, sym) >= 0.0
    ensures AvgPurchasePrice(Sell(lookup, s, u, sym, shares).store.log, v, other) == AvgPurchasePrice(s.log, v, other)
  {
    AvgUnchangedByNonNegativePrice(s.log, Tx(u, sym, shares.value, QuotePrice(lookup, sym), Sale), v, other);
  }

  /** A purchase costing exactly the funds available is refused: 100 of funds, 10 shares at 10. */
  lemma BuyExactFundsRejected(lookup: Lookup, s: Store, u: UserId, symbol: string)
    requires u != 0 && symbol != "" && lookup(Lower(symbol)) == Some(10.0)
    requires Funds(s, u) == Some(100.0)
    ensures Buy(lookup, s, u, symbol, Some(10.0)) == Rejected(NotEnoughFunds)
  {
  }

  /** A purchase is refused when the quote fails or is zero, whatever the funds. */
  lemma BuyNeedsPositiveQuote(lookup: Lookup, s: Store, u: UserId, symbol: string, shares: Option<real>)
    requires lookup(Lower(symbol)).None? || lookup(Lower(symbol)) == Some(0.0)
    ensures Buy(lookup, s, u, symbol, shares) == Rejected(CheckInput)
  {
  }

  /** A purchase of a negative number of shares passes the funds check and raises the funds. */
  lemma BuyNegativeSharesRaisesFunds(lookup: Lookup, s: Store, u: UserId, symbol: string, q: real)
    requires u != 0 && symbol != "" && u in s.cash && Funds(s, u).value > 0.0
    requires lookup(Lower(symbol)).Some? && lookup(Lower(symbol)).value > 0.0
    requires q < 0.0
    ensures Buy(lookup, s, u, symbol, Some(q)).Accepted?
    ensures Funds(Buy(lookup, s, u, symbol, Some(q)).store, u).value > Funds(s, u).value
  {
    var p := lookup(Lower(symbol)).value;
    assert q * p < 0.0;
    BuyFunds(lookup, s, u, symbol, Some(q), u);
  }

  /** With 5 shares on the books, selling 6 is refused and selling 5 goes through. */
  lemma SellUpToAvailable(lookup: Lookup, s: Store, u: UserId, sym: string)
    requires sym != "" && lookup(sym) == Some(12.0)
    requires QuantitySum(s.log, u, sym) == Some(5.0)
    ensures Sell(lookup, s, u, sym, Some(6.0)) == Rejected(MissingValues)
    ensures Sell(lookup, s, u, sym, Some(5.0)).Accepted?
  {
  }

  /** A sale whose quote failed is still recorded, at the sentinel price -1. */
  lemma SellWithFailedQuote(lookup: Lookup, s: Store, u: UserId, sym: string, q: real)
    requires sym != "" && lookup(sym).None?
    requires QuantitySum(s.log, u, sym).Some? && 0.0 < q <= QuantitySum(s.log, u, sym).value
    ensures Sell(lookup, s, u, sym, Some(q)).Accepted?
    ensures Sell(lookup, s, u, sym, Some(q)).store.log == s.log + [Tx(u, sym, q, Sentinel, Sale)]
  {
  }
}

/**
 * Sequences of trading requests replayed against the store. Each request
 * carries the quotes the oracle gives while it is handled, since prices move
 * between requests. Rejected requests leave the store as it was.
 */
module Replay {
  import opened Optional
  import opened Quotes
  import opened Ledger
  import opened Trade
  import opened Portfolio

  datatype Request =
    | BuyRequest(quotes: Lookup, user: UserId, symbol: string, shares: Option<real>)
    | SellRequest(quotes: Lookup, user: UserId, symbol: string, shares: Option<real>)

  /** Handle one request: the accepted store, or the unchanged one. */
  function Step(s: Store, req: Request): (r: Store)
    ensures r.cash == s.cash
    ensures s.log <= r.log && |r.log| <= |s.log| + 1
  {
    var outcome := match req
      case BuyRequest(q, u, sym, n) => Buy(q, s, u, sym, n)
      case SellRequest(q, u, sym, n) => Sell(q, s, u, sym, n);
    match outcome
    case Accepted(next) => next
    case Rejected(_) => s
  }

  /** Handle the requests in order. The log only ever grows, one row per accepted request at most. */
  function Run(s: Store, reqs: seq<Request>): (r: Store)
    ensures r.cash == s.cash
    ensures s.log <= r.log && |r.log| <= |s.log| + |reqs|
    decreases |reqs|
  {
    if |reqs| == 0 then s else Run(Step(s, reqs[0]), reqs[1..])
  }

  /** Every registered user has strictly positive funds. */
  ghost predicate FundsPositive(s: Store) {
    forall v :: v in s.cash ==> Funds(s, v).value > 0.0
  }

  /** The oracle answers every symbol with a strictly positive price. */
  ghost predicate QuotesPositive(quotes: Lookup) {
    forall sym :: quotes(sym).Some? && quotes(sym).value > 0.0
  }

  lemma StepKeepsFundsPositive(s: Store, req: Request)
    requires FundsPositive(s)
    requires QuotesPositive(req.quotes)
    ensures FundsPositive(Step(s, req))
  {
    var next := Step(s, req);
    forall v | v in next.cash
      ensures Funds(next, v).value > 0.0
    {
      match req
      case BuyRequest(q, u, sym, n) =>
        if Buy(q, s, u, sym, n).Accepted? {
          BuyFunds(q, s, u, sym, n, v);
        }
      case SellRequest(q, u, sym, n) =>
        if Sell(q, s, u, sym, n).Accepted? {
          var price := QuotePrice(q, sym);
          var row := Tx(u, sym, n.value, price, Sale);
          FundsAfterAppend(s, row, v);
          assert price > 0.0 && n.value > 0.0;
          assert row.price * row.quantity > 0.0;
        }
    }
  }

  /**
   * While every quote is a positive price, no sequence of requests can leave a user
   * with zero or negative funds: purchases keep them strictly positive and
   * sales only add.
   */
  lemma {:induction false} RunKeepsFundsPositive(s: Store, reqs: seq<Request>)
    requires FundsPositive(s)
    requires forall i :: 0 <= i < |reqs| ==> QuotesPositive(reqs[i].quotes)
    ensures FundsPositive(Run(s, reqs))
    decreases |reqs|
  {
    if |reqs| > 0 {
      StepKeepsFundsPositive(s, reqs[0]);
      assert forall i :: 0 <= i < |reqs[1..]| ==> reqs[1..][i] == reqs[i + 1];
      RunKeepsFundsPositive(Step(s, reqs[0]), reqs[1..]);
    }
  }

  /** An oracle quoting every symbol at `p`. */
  function Flat(p: real): Lookup {
    sym => Some(p)
  }

  /** An oracle that is down. */
  function Down(): Lookup {
    sym => None
  }

  /** Replaying three requests is three steps. */
  lemma RunThree(s: Store, r0: Request, r1: Request, r2: Request)
    ensures Run(s, [r0, r1, r2]) == Step(Step(Step(s, r0), r1), r2)
  {
    var reqs := [r0, r1, r2];
    assert reqs[1..] == [r1, r2];
    assert [r1, r2][1..] == [r2];
    assert [r2][1..] == [];
    var s1 := Step(s, r0);
    var s2 := Step(s1, r1);
    assert Run(s, reqs) == Run(s1, [r1, r2]);
    assert Run(s1, [r1, r2]) == Run(s2, [r2]);
    assert Run(s2, [r2]) == Run(Step(s2, r2), []);
  }

  /** The rows of a purchase of 5 "x" at 1, and of a sale of 5 "x" at 1, by user 1. */
  const OverBuy: Tx := Tx(1, "x", 5.0, -1.0, Purchase)
  const OverSale: Tx := Tx(1, "x", 5.0, 1.0, Sale)

  lemma OversellSteps()
    ensures Step(Store(map[1 := 10.0], []), BuyRequest(Flat(1.0), 1, "x", Some(5.0))) == Store(map[1 := 10.0], [OverBuy])
    ensures Step(Store(map[1 := 10.0], [OverBuy]), SellRequest(Flat(1.0), 1, "x", Some(5.0)))
         == Store(map[1 := 10.0], [OverBuy, OverSale])
    ensures Step(Store(map[1 := 10.0], [OverBuy, OverSale]), SellRequest(Flat(1.0), 1, "x", Some(5.0)))
         == Store(map[1 := 10.0], [OverBuy, OverSale, OverSale])
  {
    assert Lower("x") == "x";
    assert [] + [OverBuy] == [OverBuy];
    QuantitySumAfterAppend([], OverBuy, 1, "x");
    assert [OverBuy] + [OverSale] == [OverBuy, OverSale];
    QuantitySumAfterAppend([OverBuy], OverSale, 1, "x");
  }

  /**
   * The sale guard compares against SUM(quantity), which counts sold shares
   * as well as bought ones. Buying 5 and selling 5 twice, all at a good price,
   * is accepted throughout and leaves a holding of -5, while the funds stay
   * positive.
   */
  lemma OversellLeavesNegativeHolding()
    ensures var s := Run(Store(map[1 := 10.0], []),
                         [BuyRequest(Flat(1.0), 1, "x", Some(5.0)),
                          SellRequest(Flat(1.0), 1, "x", Some(5.0)),
                          SellRequest(Flat(1.0), 1, "x", Some(5.0))]);
      && |s.log| == 3
      && Held(s.log, 1, "x") == -5.0
      && Funds(s, 1) == Some(15.0)
      && "x" !in Sellable(s.log, 1)
  {
    var s0 := Store(map[1 := 10.0], []);
    RunThree(s0, BuyRequest(Flat(1.0), 1, "x", Some(5.0)),
                 SellRequest(Flat(1.0), 1, "x", Some(5.0)),
                 SellRequest(Flat(1.0), 1, "x", Some(5.0)));
    OversellSteps();
    var log := [OverBuy, OverSale, OverSale];
    assert log == [] + [OverBuy] + [OverSale] + [OverSale];
    HeldAfterAppend([], OverBuy, 1, "x");
    HeldAfterAppend([OverBuy], OverSale, 1, "x");
    HeldAfterAppend([OverBuy, OverSale], OverSale, 1, "x");
    assert [OverBuy] + [OverSale] == [OverBuy, OverSale];
    assert [OverBuy, OverSale] + [OverSale] == log;
    FundsAfterAppend(s0, OverBuy, 1);
    FundsAfterAppend(s0.(log := [OverBuy]), OverSale, 1);
    FundsAfterAppend(s0.(log := [OverBuy, OverSale]), OverSale, 1);
    FundsWithoutRows(s0, 1);
    SellableIffHeld(log, 1, "x");
  }

  const DownBuy: Tx := Tx(1, "x", 5.0, -2.0, Purchase)
  const DownSale1: Tx := Tx(1, "x", 5.0, -1.0, Sale)
  const DownSale2: Tx := Tx(1, "x", 10.0, -1.0, Sale)

  lemma FailedQuoteSteps()
    ensures Step(Store(map[1 := 20.0], []), BuyRequest(Flat(2.0), 1, "x", Some(5.0))) == Store(map[1 := 20.0], [DownBuy])
    ensures Step(Store(map[1 := 20.0], [DownBuy]), SellRequest(Down(), 1, "x", Some(5.0)))
         == Store(map[1 := 20.0], [DownBuy, DownSale1])
    ensures Step(Store(map[1 := 20.0], [DownBuy, DownSale1]), SellRequest(Down(), 1, "x", Some(10.0)))
         == Store(map[1 := 20.0], [DownBuy, DownSale1, DownSale2])
  {
    assert Lower("x") == "x";
    assert [] + [DownBuy] == [DownBuy];
    QuantitySumAfterAppend([], DownBuy, 1, "x");
    assert [DownBuy] + [DownSale1] == [DownBuy, DownSale1];
    QuantitySumAfterAppend([DownBuy], DownSale1, 1, "x");
    FundsWithoutRows(Store(map[1 := 20.0], []), 1);
  }

  /**
   * A sale whose quote failed is recorded at -1: it takes money away, and
   * its negative price is counted as a purchase at 1. Buying 5 at 2 from a
   * cash of 20 and then selling 5 and 10 while the oracle is down ends with
   * funds of -5 and an average purchase price of 4/3 instead of 2.
   */
  lemma FailedQuoteSalesDrainFunds()
    ensures var s := Run(Store(map[1 := 20.0], []),
                         [BuyRequest(Flat(2.0), 1, "x", Some(5.0)),
                          SellRequest(Down(), 1, "x", Some(5.0)),
                          SellRequest(Down(), 1, "x", Some(10.0))]);
      && |s.log| == 3
      && Funds(s, 1) == Some(-5.0)
      && AvgPurchasePrice(s.log, 1, "x") == Some(4.0 / 3.0)
  {
    var s0 := Store(map[1 := 20.0], []);
    RunThree(s0, BuyRequest(Flat(2.0), 1, "x", Some(5.0)),
                 SellRequest(Down(), 1, "x", Some(5.0)),
                 SellRequest(Down(), 1, "x", Some(10.0)));
    FailedQuoteSteps();
    var log := [DownBuy, DownSale1, DownSale2];
    assert [] + [DownBuy] == [DownBuy];
    assert [DownBuy] + [DownSale1] == [DownBuy, DownSale1];
    assert [DownBuy, DownSale1] + [DownSale2] == log;
    FundsWithoutRows(s0, 1);
    FundsAfterAppend(s0, DownBuy, 1);
    FundsAfterAppend(s0.(log := [DownBuy]), DownSale1, 1);
    FundsAfterAppend(s0.(log := [DownBuy, DownSale1]), DownSale2, 1);
    var rows := PurchasesOf(1, "x");
    SumAppend([], DownBuy, rows, Price);
    SumAppend([DownBuy], DownSale1, rows, Price);
    SumAppend([DownBuy, DownSale1], DownSale2, rows, Price);
    CountAppend([], DownBuy, rows);
    CountAppend([DownBuy], DownSale1, rows);
    CountAppend([DownBuy, DownSale1], DownSale2, rows);
  }
}

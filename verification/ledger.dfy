/**
 * The append-only `transactionHistory` table and the aggregate queries the
 * handlers in application.py run over it.
 *
 * A purchase of `q` shares at price `p` is stored as quantity `q`, price `-p`,
 * type -1; a sale as quantity `q`, price `+p`, type 1. Every derived value
 * (funds, holdings, average purchase price) is recomputed from the log.
 */
module Ledger {
  import opened Optional

  type UserId = nat

  /** The `transactionType` column: -1 for a purchase, 1 for a sale. */
  datatype TxType = Purchase | Sale {
    function Code(): int {
      match this
      case Purchase => -1
      case Sale => 1
    }
  }

  /** One row of `transactionHistory` (the date column is not modelled). */
  datatype Tx = Tx(user: UserId, symbol: string, quantity: real, price: real, txType: TxType)

  /** The database: each user's starting `cash`, and the log of all users' trades. */
  datatype Store = Store(cash: map<UserId, real>, log: seq<Tx>)

  /** The WHERE clauses the queries use. */
  datatype Rows =
    | OfUser(u: UserId)                        // userID = u
    | OfUserSymbol(u: UserId, sym: string)     // userID = u AND stockSymbol = sym
    | PurchasesOf(u: UserId, sym: string)      // ... AND transactionPriceUSD < 0

  predicate Selects(rows: Rows, t: Tx) {
    match rows
    case OfUser(u) => t.user == u
    case OfUserSymbol(u, sym) => t.user == u && t.symbol == sym
    case PurchasesOf(u, sym) => t.user == u && t.symbol == sym && t.price < 0.0
  }

  /** The column expressions the queries aggregate. */
  datatype Column =
    | Flow        // transactionPriceUSD * quantity
    | Quantity    // quantity
    | Holding     // quantity * -transactionType
    | Price       // transactionPriceUSD

  function Term(c: Column, t: Tx): real {
    match c
    case Flow => t.price * t.quantity
    case Quantity => t.quantity
    case Holding => t.quantity * (-t.txType.Code()) as real
    case Price => t.price
  }

  /** SQL `sum(column)` over the selected rows, with an empty sum of 0. */
  function Sum(log: seq<Tx>, rows: Rows, c: Column): real
    decreases |log|
  {
    if |log| == 0 then 0.0
    else (if Selects(rows, log[0]) then Term(c, log[0]) else 0.0) + Sum(log[1..], rows, c)
  }

  /** SQL `count(*)` over the selected rows. */
  function Count(log: seq<Tx>, rows: Rows): nat
    decreases |log|
  {
    if |log| == 0 then 0
    else (if Selects(rows, log[0]) then 1 else 0) + Count(log[1..], rows)
  }

  /** Sums split over a concatenation of logs, so they do not depend on row order. */
  lemma {:induction false} SumConcat(a: seq<Tx>, b: seq<Tx>, rows: Rows, c: Column)
    ensures Sum(a + b, rows, c) == Sum(a, rows, c) + Sum(b, rows, c)
    decreases |a|
  {
    if |a| == 0 {
      assert a + b == b;
    } else {
      assert (a + b)[1..] == a[1..] + b;
      SumConcat(a[1..], b, rows, c);
    }
  }

  lemma {:induction false} CountConcat(a: seq<Tx>, b: seq<Tx>, rows: Rows)
    ensures Count(a + b, rows) == Count(a, rows) + Count(b, rows)
    decreases |a|
  {
    if |a| == 0 {
      assert a + b == b;
    } else {
      assert (a + b)[1..] == a[1..] + b;
      CountConcat(a[1..], b, rows);
    }
  }

  /** Appending one row changes a sum by that row's term exactly when the row is selected. */
  lemma SumAppend(log: seq<Tx>, t: Tx, rows: Rows, c: Column)
    ensures Sum(log + [t], rows, c) == Sum(log, rows, c) + (if Selects(rows, t) then Term(c, t) else 0.0)
  {
    SumConcat(log, [t], rows, c);
    assert Sum([t], rows, c) == (if Selects(rows, t) then Term(c, t) else 0.0) + Sum([t][1..], rows, c);
  }

  lemma CountAppend(log: seq<Tx>, t: Tx, rows: Rows)
    ensures Count(log + [t], rows) == Count(log, rows) + (if Selects(rows, t) then 1 else 0)
  {
    CountConcat(log, [t], rows);
    assert Count([t], rows) == (if Selects(rows, t) then 1 else 0) + Count([t][1..], rows);
  }

  /** A sum over no selected rows is 0. */
  lemma {:induction false} SumNoRows(log: seq<Tx>, rows: Rows, c: Column)
    ensures (forall i :: 0 <= i < |log| ==> !Selects(rows, log[i])) ==> Sum(log, rows, c) == 0.0
    decreases |log|
  {
    if |log| > 0 && forall i :: 0 <= i < |log| ==> !Selects(rows, log[i]) {
      assert !Selects(rows, log[0]);
      assert forall i :: 0 <= i < |log[1..]| ==> log[1..][i] == log[i + 1];
      SumNoRows(log[1..], rows, c);
    }
  }

  /** The count is zero exactly when no row is selected. */
  lemma {:induction false} CountZeroIffNoRows(log: seq<Tx>, rows: Rows)
    ensures Count(log, rows) == 0 <==> forall i :: 0 <= i < |log| ==> !Selects(rows, log[i])
    decreases |log|
  {
    if |log| > 0 {
      CountZeroIffNoRows(log[1..], rows);
      assert forall i :: 1 <= i < |log| ==> log[i] == log[1..][i - 1];
    }
  }

  /** If every purchase price of `sym` is at least `lo`, their negated sum is at least count * lo. */
  lemma {:induction false} PurchaseSumAtLeast(log: seq<Tx>, u: UserId, sym: string, lo: real)
    requires forall i :: 0 <= i < |log| && Selects(PurchasesOf(u, sym), log[i]) ==> lo <= -log[i].price
    ensures Count(log, PurchasesOf(u, sym)) as real * lo <= -Sum(log, PurchasesOf(u, sym), Price)
    decreases |log|
  {
    if |log| > 0 {
      var rows := PurchasesOf(u, sym);
      assert forall i :: 0 <= i < |log[1..]| && Selects(rows, log[1..][i]) ==> lo <= -log[1..][i].price by {
        forall i | 0 <= i < |log[1..]| && Selects(rows, log[1..][i])
          ensures lo <= -log[1..][i].price
        {
          assert log[1..][i] == log[i + 1];
        }
      }
      PurchaseSumAtLeast(log[1..], u, sym, lo);
      var m := Count(log[1..], rows) as real;
      if Selects(rows, log[0]) {
        assert (m + 1.0) * lo == m * lo + lo;
      }
    }
  }

  /** If every purchase price of `sym` is at most `hi`, their negated sum is at most count * hi. */
  lemma {:induction false} PurchaseSumAtMost(log: seq<Tx>, u: UserId, sym: string, hi: real)
    requires forall i :: 0 <= i < |log| && Selects(PurchasesOf(u, sym), log[i]) ==> -log[i].price <= hi
    ensures -Sum(log, PurchasesOf(u, sym), Price) <= Count(log, PurchasesOf(u, sym)) as real * hi
    decreases |log|
  {
    if |log| > 0 {
      var rows := PurchasesOf(u, sym);
      assert forall i :: 0 <= i < |log[1..]| && Selects(rows, log[1..][i]) ==> -log[1..][i].price <= hi by {
        forall i | 0 <= i < |log[1..]| && Selects(rows, log[1..][i])
          ensures -log[1..][i].price <= hi
        {
          assert log[1..][i] == log[i + 1];
        }
      }
      PurchaseSumAtMost(log[1..], u, sym, hi);
      var m := Count(log[1..], rows) as real;
      if Selects(rows, log[0]) {
        assert (m + 1.0) * hi == m * hi + hi;
      }
    }
  }

  /** Dividing both sides of an inequality by a positive factor. */
  lemma CancelPositive(a: real, b: real, n: real)
    requires n > 0.0 && a * n <= b * n
    ensures a <= b
  {
  }

  /**
   * Funds available (application.py lines 92 and 350): the user's starting
   * cash plus the signed sum of price * quantity over that user's rows; with no
   * rows the `coalesce` makes it exactly the starting cash. An id with no
   * `users` row yields NULL.
   */
  function Funds(s: Store, u: UserId): (r: Option<real>)
    ensures r.Some? <==> u in s.cash
  {
    if u in s.cash then Some(s.cash[u] + Sum(s.log, OfUser(u), Flow)) else None
  }

  /** With no rows of the user the funds are exactly the starting cash. */
  lemma FundsWithoutRows(s: Store, u: UserId)
    requires u in s.cash
    requires forall i :: 0 <= i < |s.log| ==> s.log[i].user != u
    ensures Funds(s, u) == Some(s.cash[u])
  {
    SumNoRows(s.log, OfUser(u), Flow);
  }

  /** Appending a row moves its owner's funds by price * quantity and leaves everyone else's alone. */
  lemma FundsAfterAppend(s: Store, t: Tx, v: UserId)
    requires v in s.cash
    ensures Funds(s.(log := s.log + [t]), v).value
         == Funds(s, v).value + (if t.user == v then t.price * t.quantity else 0.0)
  {
    SumAppend(s.log, t, OfUser(v), Flow);
  }

  /**
   * Shares held of `sym` (lines 272, 349): the sum of quantity * -transactionType
   * over the user's rows for the symbol; a symbol never traded is not held.
   */
  function Held(log: seq<Tx>, u: UserId, sym: string): (r: real)
    ensures (forall i :: 0 <= i < |log| ==> !(log[i].user == u && log[i].symbol == sym)) ==> r == 0.0
  {
    SumNoRows(log, OfUserSymbol(u, sym), Holding);
    Sum(log, OfUserSymbol(u, sym), Holding)
  }

  /** A purchase row adds its quantity to the holding, a sale row subtracts it, other rows do nothing. */
  lemma HeldAfterAppend(log: seq<Tx>, t: Tx, u: UserId, sym: string)
    ensures t.user == u && t.symbol == sym && t.txType == Purchase ==> Held(log + [t], u, sym) == Held(log, u, sym) + t.quantity
    ensures t.user == u && t.symbol == sym && t.txType == Sale ==> Held(log + [t], u, sym) == Held(log, u, sym) - t.quantity
    ensures t.user != u || t.symbol != sym ==> Held(log + [t], u, sym) == Held(log, u, sym)
  {
    SumAppend(log, t, OfUserSymbol(u, sym), Holding);
  }

  /**
   * `SUM(quantity)` over the user's rows for `sym` (lines 286, 302): the
   * unsigned total of bought AND sold shares, NULL when there are no rows.
   */
  function QuantitySum(log: seq<Tx>, u: UserId, sym: string): (r: Option<real>)
    ensures r.None? <==> forall i :: 0 <= i < |log| ==> !(log[i].user == u && log[i].symbol == sym)
  {
    CountZeroIffNoRows(log, OfUserSymbol(u, sym));
    if Count(log, OfUserSymbol(u, sym)) == 0 then None
    else Some(Sum(log, OfUserSymbol(u, sym), Quantity))
  }

  /**
   * Every row for the symbol, sale or purchase, adds its quantity to
   * `SUM(quantity)`; the sums of other users and symbols are unchanged.
   */
  lemma QuantitySumAfterAppend(log: seq<Tx>, t: Tx, v: UserId, sym: string)
    ensures QuantitySum(log + [t], t.user, t.symbol)
         == Some(QuantitySum(log, t.user, t.symbol).Coalesce(0.0) + t.quantity)
    ensures v != t.user || sym != t.symbol ==> QuantitySum(log + [t], v, sym) == QuantitySum(log, v, sym)
  {
    var rows := OfUserSymbol(t.user, t.symbol);
    SumAppend(log, t, rows, Quantity);
    CountAppend(log, t, rows);
    if Count(log, rows) == 0 {
      CountZeroIffNoRows(log, rows);
      SumNoRows(log, rows, Quantity);
    }
    SumAppend(log, t, OfUserSymbol(v, sym), Quantity);
    CountAppend(log, t, OfUserSymbol(v, sym));
  }

  /**
   * While no row for the symbol has a negative quantity, the signed holding
   * never exceeds the unsigned SUM(quantity) that guards a sale: the guard
   * admits every sale the holding would, and more.
   */
  lemma {:induction false} HeldAtMostQuantitySum(log: seq<Tx>, u: UserId, sym: string)
    requires forall i :: 0 <= i < |log| && log[i].user == u && log[i].symbol == sym ==> log[i].quantity >= 0.0
    ensures Held(log, u, sym) <= Sum(log, OfUserSymbol(u, sym), Quantity)
    decreases |log|
  {
    if |log| > 0 {
      assert forall i :: 0 <= i < |log[1..]| ==> log[1..][i] == log[i + 1];
      HeldAtMostQuantitySum(log[1..], u, sym);
      var t := log[0];
      if t.user == u && t.symbol == sym {
        assert Term(Holding, t) <= Term(Quantity, t) by {
          if t.txType == Sale {
            assert Term(Holding, t) == -t.quantity;
          }
        }
      }
    }
  }

  /**
   * Average purchase price (lines 286, 302): the mean of -price over the
   * user's rows for `sym` whose stored price is negative; NULL when there is
   * no such row. The filter is on the price sign, not on the transaction type.
   */
  function AvgPurchasePrice(log: seq<Tx>, u: UserId, sym: string): (r: Option<real>)
    ensures r.None? <==> forall i :: 0 <= i < |log| ==> !(log[i].user == u && log[i].symbol == sym && log[i].price < 0.0)
    ensures r.Some? ==> r.value * Count(log, PurchasesOf(u, sym)) as real == -Sum(log, PurchasesOf(u, sym), Price)
  {
    var n := Count(log, PurchasesOf(u, sym));
    CountZeroIffNoRows(log, PurchasesOf(u, sym));
    if n == 0 then None
    else Some(-Sum(log, PurchasesOf(u, sym), Price) / n as real)
  }

  /** A row whose stored price is not negative leaves the average purchase price unchanged. */
  lemma AvgUnchangedByNonNegativePrice(log: seq<Tx>, t: Tx, u: UserId, sym: string)
    requires t.price >= 0.0
    ensures AvgPurchasePrice(log + [t], u, sym) == AvgPurchasePrice(log, u, sym)
  {
    SumAppend(log, t, PurchasesOf(u, sym), Price);
    CountAppend(log, t, PurchasesOf(u, sym));
  }

  /** The average purchase price lies between the cheapest and dearest purchase. */
  lemma AvgBetween(log: seq<Tx>, u: UserId, sym: string, lo: real, hi: real)
    requires forall i :: 0 <= i < |log| && log[i].user == u && log[i].symbol == sym && log[i].price < 0.0
               ==> lo <= -log[i].price <= hi
    ensures AvgPurchasePrice(log, u, sym).Some? ==> lo <= AvgPurchasePrice(log, u, sym).value <= hi
  {
    var rows := PurchasesOf(u, sym);
    PurchaseSumAtLeast(log, u, sym, lo);
    PurchaseSumAtMost(log, u, sym, hi);
    var n := Count(log, rows) as real;
    var paid := -Sum(log, rows, Price);
    assert n * lo <= paid <= n * hi;
    if n > 0.0 {
      var avg := paid / n;
      assert avg * n == paid;
      assert lo * n == n * lo;
      assert hi * n == n * hi;
      CancelPositive(lo, avg, n);
      CancelPositive(avg, hi, n);
    }
  }

  /**
   * The average is over unit prices, not weighted by quantity, and ignores
   * sales: buying 1 share at 10 and 100 at 20, then selling 5 at 50, gives 15.
   */
  lemma AvgExample()
    ensures AvgPurchasePrice([Tx(1, "x", 1.0, -10.0, Purchase),
                              Tx(1, "x", 100.0, -20.0, Purchase),
                              Tx(1, "x", 5.0, 50.0, Sale)], 1, "x") == Some(15.0)
  {
    var a := Tx(1, "x", 1.0, -10.0, Purchase);
    var b := Tx(1, "x", 100.0, -20.0, Purchase);
    var c := Tx(1, "x", 5.0, 50.0, Sale);
    var rows := PurchasesOf(1, "x");
    assert [] + [a] == [a];
    assert [a] + [b] == [a, b];
    assert [a, b] + [c] == [a, b, c];
    SumAppend([], a, rows, Price);
    SumAppend([a], b, rows, Price);
    CountAppend([], a, rows);
    CountAppend([a], b, rows);
    AvgUnchangedByNonNegativePrice([a, b], c, 1, "x");
  }
}

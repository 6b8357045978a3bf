/**
 * The read side of application.py: the per-symbol grouping of a user's rows,
 * the list of symbols offered for sale (lines 272-274), the wallet view
 * `getWallet` (lines 348-373) and the net worth the index page shows (line 57).
 */
module Portfolio {
  import opened Optional
  import opened Quotes
  import opened Ledger

  /**
   * `GROUP BY stockSymbol` over the user's rows: each traded symbol once, in
   * order of first appearance.
   */
  function Groups(log: seq<Tx>, u: UserId): (r: seq<string>)
    ensures forall i, j :: 0 <= i < j < |r| ==> r[i] != r[j]
    ensures forall sym :: sym in r <==> exists i :: 0 <= i < |log| && log[i].user == u && log[i].symbol == sym
    decreases |log|
  {
    if |log| == 0 then []
    else
      var front := log[..|log| - 1];
      var t := log[|log| - 1];
      var r := Groups(front, u);
      assert forall i :: 0 <= i < |front| ==> front[i] == log[i];
      if t.user == u && t.symbol !in r then r + [t.symbol] else r
  }

  /** Keep the symbols of `gs` the user holds a strictly positive amount of. */
  function PositiveOnly(log: seq<Tx>, u: UserId, gs: seq<string>): (r: seq<string>)
    ensures forall sym :: sym in r <==> sym in gs && Held(log, u, sym) > 0.0
    ensures (forall i, j :: 0 <= i < j < |gs| ==> gs[i] != gs[j]) ==> forall i, j :: 0 <= i < j < |r| ==> r[i] != r[j]
  {
    if |gs| == 0 then []
    else
      var rest := PositiveOnly(log, u, gs[1..]);
      assert forall sym :: sym in gs[1..] ==> sym in gs;
      if Held(log, u, gs[0]) > 0.0 then [gs[0]] + rest else rest
  }

  /** Filtering a list extended by one symbol extends the filtered list by that symbol when it is held. */
  lemma {:induction false} PositiveOnlyAppend(log: seq<Tx>, u: UserId, gs: seq<string>, x: string)
    ensures PositiveOnly(log, u, gs + [x]) == PositiveOnly(log, u, gs) + (if Held(log, u, x) > 0.0 then [x] else [])
    decreases |gs|
  {
    if |gs| == 0 {
      assert gs + [x] == [x];
      assert [x][1..] == [];
    } else {
      assert (gs + [x])[1..] == gs[1..] + [x];
      PositiveOnlyAppend(log, u, gs[1..], x);
    }
  }

  /** The symbols the sell page offers (lines 272-274): grouped symbols with a positive holding. */
  function Sellable(log: seq<Tx>, u: UserId): (r: seq<string>)
    ensures forall i, j :: 0 <= i < j < |r| ==> r[i] != r[j]
    ensures forall sym :: sym in r ==> sym in Groups(log, u) && Held(log, u, sym) > 0.0
  {
    PositiveOnly(log, u, Groups(log, u))
  }

  /** A symbol is offered for sale exactly when the user's holding of it is positive. */
  lemma SellableIffHeld(log: seq<Tx>, u: UserId, sym: string)
    ensures sym in Sellable(log, u) <==> Held(log, u, sym) > 0.0
  {
  }

  /** One line of the wallet table. The last line is the CASH line holding the funds. */
  datatype WalletRow =
    | StockRow(symbol: string, held: real, latestPrice: real, value: real)
    | CashRow(funds: Option<real>)

  /** The line `getWallet` builds for a grouped symbol: upper-cased name, holding, quote, value. */
  function RowFor(lookup: Lookup, log: seq<Tx>, u: UserId, sym: string): (r: WalletRow)
    ensures r.StockRow? && r.symbol == Upper(sym) && r.held == Held(log, u, sym)
    ensures r.latestPrice == QuotePrice(lookup, sym)
    ensures r.value == r.latestPrice * r.held
    ensures lookup(sym).None? ==> r.value == -r.held
  {
    var held := Held(log, u, sym);
    var price := QuotePrice(lookup, sym);
    StockRow(Upper(sym), held, price, price * held)
  }

  /** The wallet lines of the given symbols, in order. */
  function Lines(lookup: Lookup, log: seq<Tx>, u: UserId, gs: seq<string>): seq<WalletRow> {
    seq(|gs|, i requires 0 <= i < |gs| => RowFor(lookup, log, u, gs[i]))
  }

  /**
   * Sum of latest price times holding over the given symbols, positive or
   * not. Symbols with no holding add nothing.
   */
  function PortfolioValue(lookup: Lookup, log: seq<Tx>, u: UserId, gs: seq<string>): (r: real)
    ensures (forall i :: 0 <= i < |gs| ==> Held(log, u, gs[i]) == 0.0) ==> r == 0.0
    decreases |gs|
  {
    if |gs| == 0 then 0.0
    else
      var front := gs[..|gs| - 1];
      assert forall i :: 0 <= i < |front| ==> front[i] == gs[i];
      PortfolioValue(lookup, log, u, front) + RowFor(lookup, log, u, gs[|gs| - 1]).value
  }

  /** The value splits over a concatenation of symbol lists. */
  lemma {:induction false} PortfolioValueConcat(lookup: Lookup, log: seq<Tx>, u: UserId, a: seq<string>, b: seq<string>)
    ensures PortfolioValue(lookup, log, u, a + b) == PortfolioValue(lookup, log, u, a) + PortfolioValue(lookup, log, u, b)
    decreases |b|
  {
    if |b| == 0 {
      assert a + b == a;
    } else {
      assert (a + b)[..|a + b| - 1] == a + b[..|b| - 1];
      PortfolioValueConcat(lookup, log, u, a, b[..|b| - 1]);
    }
  }

  /** Swapping two blocks of symbols leaves the value unchanged. */
  lemma PortfolioValueSwap(lookup: Lookup, log: seq<Tx>, u: UserId, a: seq<string>, b: seq<string>)
    ensures PortfolioValue(lookup, log, u, a + b) == PortfolioValue(lookup, log, u, b + a)
  {
    PortfolioValueConcat(lookup, log, u, a, b);
    PortfolioValueConcat(lookup, log, u, b, a);
  }

  /** Taking one symbol out of the middle of a list takes its line's value out of the total. */
  lemma PortfolioValueRemove(lookup: Lookup, log: seq<Tx>, u: UserId, left: seq<string>, x: string, right: seq<string>)
    ensures PortfolioValue(lookup, log, u, left + [x] + right)
         == PortfolioValue(lookup, log, u, left + right) + RowFor(lookup, log, u, x).value
  {
    PortfolioValueConcat(lookup, log, u, left + [x], right);
    PortfolioValueConcat(lookup, log, u, left, right);
    assert (left + [x])[..|left + [x]| - 1] == left;
  }

  /** Removing one occurrence of an element from two lists with the same elements leaves lists with the same elements. */
  lemma MultisetRemove(front: seq<string>, x: string, left: seq<string>, right: seq<string>)
    requires multiset(front + [x]) == multiset(left + [x] + right)
    ensures multiset(front) == multiset(left + right)
  {
    assert multiset(front + [x]) == multiset(front) + multiset{x};
    assert multiset(left + [x] + right) == multiset(left) + multiset{x} + multiset(right);
    assert multiset(left + right) == multiset(left) + multiset(right);
    assert multiset(front) == multiset(front + [x]) - multiset{x};
    assert multiset(left + right) == multiset(left + [x] + right) - multiset{x};
  }

  /**
   * Any reordering of the symbols gives the same value, so the order in which
   * GROUP BY returns them does not matter.
   */
  lemma {:induction false} PortfolioValuePermutation(lookup: Lookup, log: seq<Tx>, u: UserId, a: seq<string>, b: seq<string>)
    requires multiset(a) == multiset(b)
    ensures PortfolioValue(lookup, log, u, a) == PortfolioValue(lookup, log, u, b)
    decreases |a|
  {
    if |a| == 0 {
      assert |b| == |multiset(b)| == 0;
    } else {
      var x := a[|a| - 1];
      var front := a[..|a| - 1];
      assert a == front + [x];
      assert x in multiset(b);
      var j :| 0 <= j < |b| && b[j] == x;
      var left, right := b[..j], b[j + 1..];
      assert b == left + [x] + right;
      MultisetRemove(front, x, left, right);
      PortfolioValuePermutation(lookup, log, u, front, left + right);
      PortfolioValueRemove(lookup, log, u, left, x, right);
    }
  }

  /** The wallet lines of a list extended by one symbol: one more line exactly when that symbol is held. */
  lemma ListedAppend(lookup: Lookup, log: seq<Tx>, u: UserId, gs: seq<string>, x: string)
    ensures Lines(lookup, log, u, PositiveOnly(log, u, gs + [x]))
         == Lines(lookup, log, u, PositiveOnly(log, u, gs)) + (if Held(log, u, x) > 0.0 then [RowFor(lookup, log, u, x)] else [])
  {
    PositiveOnlyAppend(log, u, gs, x);
    var p := PositiveOnly(log, u, gs);
    if Held(log, u, x) > 0.0 {
      assert Lines(lookup, log, u, p + [x]) == Lines(lookup, log, u, p) + [RowFor(lookup, log, u, x)];
    } else {
      assert PositiveOnly(log, u, gs + [x]) == p;
    }
  }

  /**
   * The wallet rows built from the sellable symbols and a CASH line: every
   * positive holding has its line, and each stock line is a grouped symbol's
   * with a positive holding.
   */
  lemma WalletRows(lookup: Lookup, log: seq<Tx>, u: UserId, funds: Option<real>, rows: seq<WalletRow>)
    requires rows == Lines(lookup, log, u, Sellable(log, u)) + [CashRow(funds)]
    ensures forall i :: 0 <= i < |rows| - 1 ==> rows[i].StockRow? && rows[i].held > 0.0
    ensures forall i :: 0 <= i < |rows| - 1 ==> exists sym :: sym in Groups(log, u) && rows[i] == RowFor(lookup, log, u, sym)
    ensures forall sym :: Held(log, u, sym) > 0.0 ==> RowFor(lookup, log, u, sym) in rows
  {
    var sellable := Sellable(log, u);
    forall sym | Held(log, u, sym) > 0.0
      ensures RowFor(lookup, log, u, sym) in rows
    {
      SellableIffHeld(log, u, sym);
      var j :| 0 <= j < |sellable| && sellable[j] == sym;
      assert rows[j] == RowFor(lookup, log, u, sym);
    }
    forall i | 0 <= i < |rows| - 1
      ensures rows[i].StockRow? && rows[i].held > 0.0
      ensures exists sym :: sym in Groups(log, u) && rows[i] == RowFor(lookup, log, u, sym)
    {
      assert sellable[i] in sellable;
      assert rows[i] == RowFor(lookup, log, u, sellable[i]);
    }
  }

  /**
   * getWallet (lines 348-373): for every grouped symbol quote it, value the
   * holding and add the value to the total (whatever the holding's sign);
   * list only lines with a positive holding, in group order, then the CASH line.
   */
  method GetWallet(lookup: Lookup, s: Store, u: UserId) returns (rows: seq<WalletRow>, funds: Option<real>, total: real)
    ensures funds == Funds(s, u)
    ensures total == PortfolioValue(lookup, s.log, u, Groups(s.log, u))
    ensures |rows| >= 1 && rows[|rows| - 1] == CashRow(funds)
    ensures rows[..|rows| - 1] == Lines(lookup, s.log, u, Sellable(s.log, u))
    ensures forall i :: 0 <= i < |rows| - 1 ==> rows[i].StockRow? && rows[i].held > 0.0
    ensures forall i :: 0 <= i < |rows| - 1 ==> exists sym :: sym in Groups(s.log, u) && rows[i] == RowFor(lookup, s.log, u, sym)
    ensures forall sym :: Held(s.log, u, sym) > 0.0 ==> RowFor(lookup, s.log, u, sym) in rows
  {
    var groups := Groups(s.log, u);
    funds := Funds(s, u);
    total := 0.0;
    var listed: seq<WalletRow> := [];
    var k := 0;
    while k < |groups|
      invariant 0 <= k <= |groups|
      invariant total == PortfolioValue(lookup, s.log, u, groups[..k])
      invariant listed == Lines(lookup, s.log, u, PositiveOnly(s.log, u, groups[..k]))
    {
      var row := RowFor(lookup, s.log, u, groups[k]);
      assert groups[..k + 1][..k] == groups[..k];
      assert groups[..k + 1] == groups[..k] + [groups[k]];
      ListedAppend(lookup, s.log, u, groups[..k], groups[k]);
      total := total + row.value;
      if row.held > 0.0 {
        listed := listed + [row];
      }
      k := k + 1;
    }
    assert groups[..k] == groups;
    rows := listed + [CashRow(funds)];
    assert rows[..|rows| - 1] == listed;
    WalletRows(lookup, s.log, u, funds, rows);
  }

  /**
   * The index page (lines 53-57): the wallet lines, the funds, and the net
   * worth `wallet + funds`, which raises (here `None`) when the funds are NULL.
   */
  method Index(lookup: Lookup, s: Store, u: UserId) returns (rows: seq<WalletRow>, funds: Option<real>, worth: Option<real>)
    ensures funds == Funds(s, u)
    ensures |rows| >= 1 && rows[|rows| - 1] == CashRow(funds)
    ensures rows[..|rows| - 1] == Lines(lookup, s.log, u, Sellable(s.log, u))
    ensures worth.Some? <==> u in s.cash
    ensures worth.Some? ==> worth.value == PortfolioValue(lookup, s.log, u, Groups(s.log, u)) + funds.value
  {
    var total;
    rows, funds, total := GetWallet(lookup, s, u);
    worth := if funds.Some? then Some(total + funds.value) else None;
  }
}

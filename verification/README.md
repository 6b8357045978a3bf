# Portfolio ledger of the Finance trading simulator

This project models the ledger at the heart of the Finance web application
(`application.py`): an append-only `transactionHistory` table from which every
balance is recomputed, and the `buy` and `sell` requests that append to it.

- A purchase of `q` shares at quote `p` is stored as quantity `q`, price `-p`,
  type -1. A sale is stored as quantity `q`, price `+p`, type 1.
- Funds available are the user's starting cash plus the sum of
  price × quantity over that user's rows.
- The holding of a symbol is the sum of quantity × −type.
- The average purchase price is the plain mean of −price over the rows whose
  stored price is negative.
- The wallet quotes every traded symbol and sums latest price × holding. It
  lists only the symbols with a positive holding, followed by a CASH line.

Money is exact `real` arithmetic. The quote service is a parameter
(`Quotes.Lookup`): it either yields a price or nothing. A request's form
fields arrive already parsed; a missing or empty share count is `None`.
Outcomes of a request are `Trade.Outcome`: the new store, or one of the
handler's apologies (`CheckInput`, `NotEnoughFunds`, `MissingValues`), or
`ServerError` where the handler raises an exception.

The model keeps the source's behaviour where it departs from what its
design describes:

- The sale guard compares the requested shares with `SUM(quantity)`. That sum
  counts sold shares as well as bought ones. Holdings can therefore go
  negative: `Replay.OversellLeavesNegativeHolding` shows it.
- A failed quote is the sentinel -1, and -1 is truthy in Python. A sale with
  a failed quote is therefore accepted and stored at price -1. That row drains
  funds and, having a negative price, counts as a purchase in the average:
  `Replay.FailedQuoteSalesDrainFunds` shows both.
- A purchase never checks the sign of the share count. A negative count passes
  the funds check and raises the funds: `Trade.BuyNegativeSharesRaisesFunds`.
- Starting from positive funds, the funds stay strictly positive across any
  sequence of requests while every quote is a positive price:
  `Replay.RunKeepsFundsPositive`.

Modules: `Optional` (the `Option` type), `Quotes` (the quote sentinel and
ASCII case conversion), `Ledger` (rows, the SQL aggregates, and their append
lemmas), `Trade` (buy, sell and the sale quote), `Portfolio` (grouping, the
symbols offered for sale, the wallet and the index page), and `Replay`
(sequences of requests).

## Model

| member | source | states |
|---|---|---|
| `Quotes.QuotePrice` | application.py:380-396 | An empty symbol or a failed lookup gives the sentinel -1; otherwise the result is the oracle's price (intended behaviour, see Findings) |
| `Quotes.QuotePriceAsWritten` | application.py:380-396 | As written, the quote raises exactly for the empty symbol; otherwise it gives the oracle's price or -1 |
| `Quotes.QuoteAsWrittenRaisesOnEmpty` | application.py:384-390 | The as-written and intended quotes differ only on the empty symbol: the first raises where the second gives -1 |
| `Quotes.SentinelMeansFailureOrMinusOne` | application.py:390-394 | A -1 quote means an empty symbol, a failed lookup, or an oracle price of exactly -1; the caller cannot tell these apart |
| `Quotes.Lower` | application.py:84 | The symbol keeps its length, each ASCII letter is lower-cased, and no upper-case letter remains |
| `Quotes.Upper` | application.py:361 | The wallet's display symbol keeps its length, and no lower-case ASCII letter remains |
| `Ledger.Funds` | application.py:92 | The funds query returns a value exactly when the user has a `users` row; otherwise it is NULL |
| `Ledger.FundsWithoutRows` | application.py:350 | With no transaction rows, the funds equal the starting cash (the `coalesce(…,0)`) |
| `Ledger.FundsAfterAppend` | application.py:350 | Appending a row changes its owner's funds by price × quantity and leaves every other user's funds unchanged |
| `Ledger.HeldAfterAppend` | application.py:349 | A purchase row adds its quantity to the holding of its symbol and a sale row subtracts it; rows of other users or symbols change nothing |
| `Ledger.Held` | application.py:349 | The holding `sum(quantity*-transactionType)` of a symbol the user has no row for is 0; how each row moves it is `Ledger.HeldAfterAppend` |
| `Ledger.QuantitySum` | application.py:302 | `SUM(quantity)` is NULL exactly when the user has no row for the symbol |
| `Ledger.QuantitySumAfterAppend` | application.py:302-307 | Every row for the symbol adds its quantity to `SUM(quantity)`, whether it is a sale or a purchase. A row of another user or symbol leaves that user's and symbol's sum unchanged |
| `Ledger.HeldAtMostQuantitySum` | application.py:302-307 | When no row for the symbol has a negative quantity, the holding is at most `SUM(quantity)`: the sale guard's bound over-counts, never under-counts |
| `Ledger.AvgPurchasePrice` | application.py:302 | The average is NULL exactly when there is no row with a negative price. Otherwise, average × count equals minus the sum of those prices |
| `Ledger.AvgUnchangedByNonNegativePrice` | application.py:286 | A row whose stored price is not negative leaves the average purchase price unchanged |
| `Ledger.AvgBetween` | application.py:302 | The average purchase price lies between the lowest and highest purchase price |
| `Ledger.AvgExample` | application.py:286 | The average is not weighted by quantity and ignores sales: buying 1 at 10 and 100 at 20, then selling at 50, gives 15 |
| `Trade.Buy` | application.py:83-102 | A purchase is accepted iff the user id, symbol and share count are present, the quote is positive, and funds − cost > 0 (strict). When accepted, the only change is one appended row holding the lower-cased symbol, the negated quote and type -1. A missing field or a quote ≤ 0 (a failed one included) gives "Check your input"; a well-formed request by an id with no `users` row raises; otherwise a refusal is "Not enough funds" |
| `Trade.BuyFunds` | application.py:92-96 | After an accepted purchase, the buyer's funds have fallen by shares × quote and are still strictly positive. Other users' funds are unchanged |
| `Trade.BuyExactFundsRejected` | application.py:95 | Funds of 100 and a cost of exactly 10 × 10 give "Not enough funds" |
| `Trade.BuyNeedsPositiveQuote` | application.py:87 | A failed quote or a zero quote is refused with "Check your input", whatever the funds |
| `Trade.BuyNegativeSharesRaisesFunds` | application.py:87-96 | A purchase of a negative share count is accepted whenever the funds are positive, and it increases the funds |
| `Trade.Sell` | application.py:294-316 | A sale is accepted iff the share count is present and non-zero, the symbol is non-empty, the quote is not 0, and 0 < shares ≤ `SUM(quantity)`. When accepted, the only change is one appended row at the quote as is, with type 1. The holding falls by the share count while `SUM(quantity)` rises by it. A failed quote is stored as -1. A missing share count raises. An empty symbol, a zero count or a zero quote gives "Missing Values"; past those checks, a NULL `SUM(quantity)` raises, and a count above it or ≤ 0 gives "Missing Values" |
| `Trade.SaleKeepsAvgPurchasePrice` | application.py:302-312 | An accepted sale at a non-negative quote leaves every average purchase price unchanged |
| `Trade.SellUpToAvailable` | application.py:307 | With `SUM(quantity)` = 5, selling 6 is refused and selling 5 is accepted |
| `Trade.SellWithFailedQuote` | application.py:297-312 | A sale within the available quantity is accepted while the oracle is down. It is recorded at price -1 |
| `Trade.SaleInfo` | application.py:282-291 | The sale quote reports the quote, `SUM(quantity)` and the average purchase price of the lower-cased symbol. Its quantity is NULL iff the user has no row for that symbol; its buy price is NULL iff no such row has a negative price. A failed quote gives -1 |
| `Trade.SaleInfoAfterSell` | application.py:282-312 | After an accepted sale of a lower-case symbol at a non-negative quote, the sale quote of that symbol shows the quantity raised by the shares sold, and the same price and average purchase price |
| `Trade.SellLeavesOthersAlone` | application.py:302-312 | An accepted sale leaves the holding and `SUM(quantity)` of every other user and every other symbol unchanged |
| `Portfolio.PositiveOnly` | application.py:274 | Filtering keeps exactly the listed symbols with a strictly positive holding, and keeps a list without duplicates free of them |
| `Portfolio.Groups` | application.py:349 | `GROUP BY stockSymbol` lists each symbol the user traded exactly once and no other symbol |
| `Portfolio.Sellable` | application.py:272-274 | The symbols offered for sale have no duplicates, and each has a positive holding |
| `Portfolio.SellableIffHeld` | application.py:274 | A symbol is offered for sale iff the user's holding of it is strictly positive |
| `Portfolio.RowFor` | application.py:355-361 | A wallet line shows the upper-cased symbol, its holding, the symbol's quote as latest price, and value = latest price × holding. With a failed quote the value is −holding |
| `Portfolio.PortfolioValue` | application.py:353-359 | The wallet total over symbols none of which is held is 0 |
| `Portfolio.PortfolioValueConcat` | application.py:353-359 | The wallet total splits over any split of the grouped symbols |
| `Portfolio.PortfolioValueSwap` | application.py:353-359 | Exchanging two blocks of grouped symbols leaves the wallet total unchanged |
| `Portfolio.PortfolioValuePermutation` | application.py:353-359 | Any two orderings of the same symbols give the same wallet total, so the total does not depend on the order in which the symbols are grouped |
| `Portfolio.GetWallet` | application.py:348-373 | The total is latest price × holding summed over every grouped symbol, before the filter. The listed lines are exactly the lines of the symbols offered for sale, in group order: every positive holding has its line and no other holding does. The CASH line with the funds comes last |
| `Portfolio.Index` | application.py:53-57 | The page gets the wallet lines: the lines of the symbols offered for sale, in group order, then the CASH line. The net worth is the wallet total plus the funds. It is absent (the addition raises) when the funds are NULL |
| `Replay.Step` | application.py:95-102 | Handling one request never changes the starting cash. It either leaves the log as it was or appends exactly one row |
| `Replay.Run` | application.py:83-102 | A replay of buy and sell requests through their two handlers (lines 83-102 and 294-316): over any sequence of requests the log only grows, by at most one row per request |
| `Replay.StepKeepsFundsPositive` | application.py:95-96 | If all users' funds are positive and every quote is a positive price, they stay positive after one request |
| `Replay.RunKeepsFundsPositive` | application.py:95 | Starting from positive funds, if every quote is a positive price, all users' funds stay strictly positive over any sequence of requests |
| `Replay.OversellLeavesNegativeHolding` | application.py:302-307 | Buying 5 and then selling 5 twice, all at good quotes, is accepted throughout. It leaves a holding of -5 that is no longer offered for sale, while the funds stay positive |
| `Replay.FailedQuoteSalesDrainFunds` | application.py:297-312 | With the oracle down, two sales after a purchase drive the funds to -5 and pull the average purchase price from 2 to 4/3 |

## Left out

- The Flask routing, templates, `flash`, `jsonify`, redirects, sessions and `login_required` are left out. They are request plumbing; the user id is a parameter.
- `login`, `logout`, `register`, `check` and password hashing are left out. They are authentication and hold no ledger arithmetic.
- `lookup` and `usd` live in helpers.py, which is not part of this model. `lookup` is the `Quotes.Lookup` parameter; currency formatting is dropped.
- Python floats and the SQL `round(…,2)` on holdings (line 349) are left out. Money is exact `real`.
- `float()` on share-count text that is not a number is left out. Form fields arrive parsed.
- `Quotes.Lower`, `Quotes.Upper`: only ASCII letters change case. Python's Unicode case mapping is not modelled.
- The `quote` type of the buy POST (lines 74-80) is left out. It only forwards `quotePrice`.
- The `/quote` page (lines 205-223) is left out. It only formats a lookup.
- `getHistory` (lines 344-347) is left out. It computes its rows and funds but returns nothing, so `history` fails when it unpacks the result.
- The sell page's GET branch is left out as a handler. It unpacks the three values of `getWallet` into two names (line 270), which raises before the symbol list is built. `Portfolio.Sellable` models the query of lines 272-274 on its own.
- `Portfolio.Groups`: SQL leaves the order of `GROUP BY` unspecified; the model lists symbols in order of first appearance. `Portfolio.PortfolioValuePermutation` shows that the total does not depend on it.
- The date column and the newest-first ordering of the history are left out, because no aggregate depends on them.
- `Trade.Buy`, `Trade.Sell`, `Trade.SaleInfo` quote through the intended `Quotes.QuotePrice`. As written, an empty symbol makes `quotePrice` raise (see Findings), so these requests answer with a server error instead of "Check your input", "Missing Values" or a -1 price.
- The race between two concurrent sales is left out, because it is concurrency. Requests are handled one at a time.
- `updateAllStocks`, `after_request` and the error handler are left out. They are trivial redirects or error plumbing; a raised exception is `Trade.ServerError`.

## Findings

| source | as written | input that shows it | evidently intended | confidence | as-written member | corrected member |
|---|---|---|---|---|---|---|
| application.py:384-390 | For the empty symbol, `quotePrice` sets the price to -1. It then skips the branch that binds `jStockPrice`, so reading `jStockPrice` raises `UnboundLocalError`. As a result, the empty-symbol checks at lines 87 and 299 are never reached | `quotePrice("")`, e.g. a sale posted with an empty `sell-select` | return the sentinel -1, so that the handlers answer with their apology | high; not executed | `Quotes.QuotePriceAsWritten` (with `Quotes.QuoteAsWrittenRaisesOnEmpty`) | `Quotes.QuotePrice` |

/**
 * The ledger engine of the investment controller: one user's cash balance,
 * holdings and append-only log of BUY/SELL records, and the operations that
 * keep the three consistent (buy, sell, deposit, delete).
 *
 * Each operation is first given as a transition function on a `Book` (a value
 * holding the whole state); the class `Account` below implements the same
 * operations by updating its fields step by step, and each of its methods is
 * proved to move the fields exactly as the function moves the book.
 * Money is exact (`real`); the two-decimal rounding of the database columns is
 * not modelled.
 */
module Ledger {
  import opened Outcomes
  import opened Text

  /** A row of the `investments` table: one open position of the user in one symbol. */
  datatype Investment = Investment(
    userId: nat,
    symbol: string,
    companyName: string,
    quantity: int,
    purchasePrice: real,        // average cost per share
    currentPrice: Option<real>,
    totalInvested: real)

  datatype TransactionType = BUY | SELL

  /** A row of the `transactions` table. The creation time is not modelled. */
  datatype Transaction = Transaction(
    userId: nat,
    symbol: string,
    transactionType: TransactionType,
    quantity: int,
    price: real,
    totalAmount: real)

  /** What the quote source returns for a symbol. */
  datatype Quote = Quote(price: real, shortName: string)

  /** The reasons an operation is rejected; a rejected operation changes nothing. */
  datatype LedgerError =
    | InvalidOrder          // "Symbol and valid quantity are required" / "Valid quantity is required"
    | InsufficientFunds
    | InvestmentNotFound
    | InsufficientShares
    | InvalidAmount         // "Valid amount is required"
    | StorageError          // the insert is refused; the transaction rolls back and the server answers 500

  /**
   * The width of the `symbol` column of `investments` and `transactions`
   * (`STRING(10)`); a longer value makes the insert fail under MySQL's strict mode.
   */
  const SymbolWidth := 10

  /** What a successful sale reports back. */
  datatype SaleReport = SaleReport(
    saleAmount: real,
    profitLoss: real,
    profitLossPercent: real,
    newCashBalance: real)

  /** The state of one user's ledger: the user row's balance, the user's holdings by id, the log. */
  datatype Book = Book(
    userId: nat,
    cash: real,
    holdings: map<nat, Investment>,
    log: seq<Transaction>,
    nextId: nat)               // the next auto-increment id of the investments table

  /** An empty book for a user who starts with `cash`. */
  function Opening(userId: nat, cash: real): Book
  {
    Book(userId, cash, map[], [], 0)
  }

  // ---------------------------------------------------------------------------
  // Invariants
  // ---------------------------------------------------------------------------

  /** A holding belongs to the user, holds shares and its cost basis is consistent. */
  ghost predicate HoldingValid(userId: nat, h: Investment)
  {
    && h.userId == userId
    && h.symbol != []
    && h.quantity > 0
    && h.purchasePrice > 0.0
    && h.totalInvested == h.quantity as real * h.purchasePrice
  }

  /** A log record belongs to the user and its total is quantity times price. */
  ghost predicate RecordValid(userId: nat, t: Transaction)
  {
    && t.userId == userId
    && t.quantity > 0
    && t.price > 0.0
    && t.totalAmount == t.quantity as real * t.price
  }

  /** The consistency the engine keeps between balance, holdings and log. */
  ghost predicate BookValid(b: Book)
  {
    && b.cash >= 0.0
    && (forall id :: id in b.holdings ==> id < b.nextId && HoldingValid(b.userId, b.holdings[id]))
    && (forall id1, id2 :: id1 in b.holdings && id2 in b.holdings && b.holdings[id1].symbol == b.holdings[id2].symbol ==> id1 == id2)
    && (forall i :: 0 <= i < |b.log| ==> RecordValid(b.userId, b.log[i]))
  }

  /** The sum of `totalAmount` over the records of one type. */
  function Total(log: seq<Transaction>, kind: TransactionType): real
  {
    if log == [] then 0.0
    else Total(log[..|log| - 1], kind) + (if log[|log| - 1].transactionType == kind then log[|log| - 1].totalAmount else 0.0)
  }

  /** Cash that left the account through trading: BUY totals minus SELL totals. */
  function NetSpent(log: seq<Transaction>): real
  {
    Total(log, BUY) - Total(log, SELL)
  }

  /** Appending a record moves the net amount spent by that record's signed total. */
  lemma {:induction false} NetSpentAppend(log: seq<Transaction>, t: Transaction)
    ensures NetSpent(log + [t]) == NetSpent(log) + (if t.transactionType == BUY then t.totalAmount else -t.totalAmount)
  {
    assert (log + [t])[..|log|] == log;
  }

  // ---------------------------------------------------------------------------
  // Arithmetic facts the cost-basis proofs need
  // ---------------------------------------------------------------------------

  lemma PositiveProduct(x: real, y: real)
    requires x > 0.0 && y > 0.0
    ensures x * y > 0.0
  {
  }

  lemma AverageTimesCount(total: real, count: real)
    requires count != 0.0
    ensures count * (total / count) == total
  {
  }

  lemma CountTimesAverage(count: real, average: real)
    requires count != 0.0
    ensures (count * average) / count == average
  {
  }

  /** Scaling a basis of `n` shares at `p` by `1 - k/n` leaves the basis of `n - k` shares at `p`. */
  lemma ScaledBasis(n: real, k: real, p: real)
    requires n > 0.0
    ensures (n * p) * (1.0 - k / n) == (n - k) * p
  {
    calc {
      (n * p) * (1.0 - k / n);
      n * p - p * (n * (k / n));
      { AverageTimesCount(k, n); }
      n * p - p * k;
    }
  }

  // ---------------------------------------------------------------------------
  // Lookups
  // ---------------------------------------------------------------------------

  /** The id of the holding with the given symbol, if the user has one (`Investment.findOne({ userId, symbol })`). */
  ghost function HoldingFor(holdings: map<nat, Investment>, symbol: string): (r: Option<nat>)
    ensures r.Some? ==> r.value in holdings && holdings[r.value].symbol == symbol
    ensures r.None? ==> forall id :: id in holdings ==> holdings[id].symbol != symbol
  {
    if exists id :: id in holdings && holdings[id].symbol == symbol
    then Some(var id :| id in holdings && holdings[id].symbol == symbol; id)
    else None
  }

  /** In a consistent book the holding with a symbol is unique, so the lookup finds that one. */
  lemma HoldingForUnique(b: Book, symbol: string, id: nat)
    requires BookValid(b)
    requires id in b.holdings && b.holdings[id].symbol == symbol
    ensures HoldingFor(b.holdings, symbol) == Some(id)
  {
  }

  // ---------------------------------------------------------------------------
  // Operations
  // ---------------------------------------------------------------------------

  /** The holding a buy of `quantity` shares at the quoted price leaves, given the holding the user had. */
  function Upsert(userId: nat, existing: Option<Investment>, symbol: string, quantity: int, quote: Quote): Investment
    requires existing.Some? ==> existing.value.quantity + quantity != 0
  {
    var cost := quote.price * quantity as real;
    match existing
    case Some(h) =>
      var newQuantity := h.quantity + quantity;
      var newTotalInvested := h.totalInvested + cost;
      h.(quantity := newQuantity,
         totalInvested := newTotalInvested,
         purchasePrice := newTotalInvested / newQuantity as real,
         currentPrice := Some(quote.price))
    case None =>
      Investment(userId, symbol, quote.shortName, quantity, quote.price, Some(quote.price), cost)
  }

  /** The book after a buy that passed its checks; `found` is the id of the user's holding of `sym`, if any. */
  function Bought(b: Book, sym: string, found: Option<nat>, quantity: int, quote: Quote): Book
    requires found.Some? ==> found.value in b.holdings && b.holdings[found.value].quantity + quantity != 0
  {
    var existing := if found.Some? then Some(b.holdings[found.value]) else None;
    var id := if found.Some? then found.value else b.nextId;
    var totalCost := quote.price * quantity as real;
    Book(b.userId, b.cash - totalCost,
         b.holdings[id := Upsert(b.userId, existing, sym, quantity, quote)],
         b.log + [Transaction(b.userId, sym, BUY, quantity, quote.price, totalCost)],
         if found.Some? then b.nextId else b.nextId + 1)
  }

  /**
   * `createInvestment`: validate the order, check funds, upsert the holding of
   * the upper-cased symbol with a weighted-average cost, debit the cash and
   * append a BUY record. A symbol wider than the column fails at the insert,
   * and the rollback leaves everything as it was.
   */
  ghost function Buy(b: Book, symbol: string, quantity: int, quote: Quote): (r: Result<Book, LedgerError>)
    requires BookValid(b) && quote.price > 0.0
    ensures r.Ok? <==> symbol != "" && quantity > 0 && quote.price * quantity as real <= b.cash && |symbol| <= SymbolWidth
    ensures r.Err? && (symbol == "" || quantity <= 0) ==> r.error == InvalidOrder
    ensures r.Err? && symbol != "" && quantity > 0 && quote.price * quantity as real > b.cash ==> r.error == InsufficientFunds
    ensures r.Err? && symbol != "" && quantity > 0 && quote.price * quantity as real <= b.cash ==> r.error == StorageError
    ensures r.Ok? ==> BookValid(r.value) && r.value.userId == b.userId
    ensures r.Ok? ==> r.value.cash == b.cash - quote.price * quantity as real
    ensures r.Ok? ==> r.value.log == b.log + [Transaction(b.userId, ToUpper(symbol), BUY, quantity, quote.price, quote.price * quantity as real)]
    ensures r.Ok? ==> NetSpent(r.value.log) == NetSpent(b.log) + quote.price * quantity as real
  {
    if symbol == "" || quantity <= 0 then Err(InvalidOrder)
    else if b.cash < quote.price * quantity as real then Err(InsufficientFunds)
    else if |symbol| > SymbolWidth then Err(StorageError)
    else
      var sym := ToUpper(symbol);
      var found := HoldingFor(b.holdings, sym);
      BuyKeepsValid(b, symbol, quantity, quote);
      NetSpentAppend(b.log, Transaction(b.userId, sym, BUY, quantity, quote.price, quote.price * quantity as real));
      Ok(Bought(b, sym, found, quantity, quote))
  }

  /** The holdings after a buy: the upserted holding at `id`, every other one as it was. */
  lemma UpsertKeepsHoldings(b: Book, sym: string, id: nat, nextId: nat, h': Investment)
    requires BookValid(b) && HoldingValid(b.userId, h') && h'.symbol == sym
    requires b.nextId <= nextId && id < nextId
    requires id in b.holdings ==> b.holdings[id].symbol == sym
    requires id !in b.holdings ==> forall k :: k in b.holdings ==> b.holdings[k].symbol != sym
    ensures var holdings' := b.holdings[id := h'];
            && (forall k :: k in holdings' ==> k < nextId && HoldingValid(b.userId, holdings'[k]))
            && (forall k1, k2 :: k1 in holdings' && k2 in holdings' && holdings'[k1].symbol == holdings'[k2].symbol ==> k1 == k2)
  {
  }

  /** The holding a buy leaves satisfies the holding invariant. */
  lemma UpsertValid(userId: nat, existing: Option<Investment>, sym: string, quantity: int, quote: Quote)
    requires quote.price > 0.0 && quantity > 0 && sym != []
    requires existing.Some? ==> HoldingValid(userId, existing.value) && existing.value.symbol == sym
    ensures HoldingValid(userId, Upsert(userId, existing, sym, quantity, quote))
    ensures Upsert(userId, existing, sym, quantity, quote).symbol == sym
  {
    var cost := quote.price * quantity as real;
    PositiveProduct(quote.price, quantity as real);
    if existing.Some? {
      var h := existing.value;
      PositiveProduct(h.quantity as real, h.purchasePrice);
      var q := (h.quantity + quantity) as real;
      AverageTimesCount(h.totalInvested + cost, q);
      assert (h.totalInvested + cost) / q > 0.0;
    }
  }

  lemma BuyKeepsValid(b: Book, symbol: string, quantity: int, quote: Quote)
    requires BookValid(b) && quote.price > 0.0 && quantity > 0 && symbol != []
    requires quote.price * quantity as real <= b.cash
    ensures var sym := ToUpper(symbol);
            var found := HoldingFor(b.holdings, sym);
            (found.Some? ==> b.holdings[found.value].quantity + quantity != 0)
            && BookValid(Bought(b, sym, found, quantity, quote))
  {
    var sym := ToUpper(symbol);
    match HoldingFor(b.holdings, sym)
    case Some(id) => BoughtExistingValid(b, sym, id, quantity, quote);
    case None => BoughtNewValid(b, sym, quantity, quote);
  }

  /** Buying more of a held symbol keeps the book consistent. */
  lemma BoughtExistingValid(b: Book, sym: string, id: nat, quantity: int, quote: Quote)
    requires BookValid(b) && quote.price > 0.0 && quantity > 0
    requires quote.price * quantity as real <= b.cash
    requires id in b.holdings && b.holdings[id].symbol == sym
    ensures b.holdings[id].quantity + quantity != 0
    ensures BookValid(Bought(b, sym, Some(id), quantity, quote))
  {
    var h' := Upsert(b.userId, Some(b.holdings[id]), sym, quantity, quote);
    UpsertValid(b.userId, Some(b.holdings[id]), sym, quantity, quote);
    UpsertKeepsHoldings(b, sym, id, b.nextId, h');
    LogAppendValid(b.userId, b.log, Transaction(b.userId, sym, BUY, quantity, quote.price, quote.price * quantity as real));
  }

  /** Buying a symbol not yet held keeps the book consistent. */
  lemma BoughtNewValid(b: Book, sym: string, quantity: int, quote: Quote)
    requires BookValid(b) && quote.price > 0.0 && quantity > 0 && sym != []
    requires quote.price * quantity as real <= b.cash
    requires forall k :: k in b.holdings ==> b.holdings[k].symbol != sym
    ensures BookValid(Bought(b, sym, None, quantity, quote))
  {
    var h' := Upsert(b.userId, None, sym, quantity, quote);
    UpsertValid(b.userId, None, sym, quantity, quote);
    UpsertKeepsHoldings(b, sym, b.nextId, b.nextId + 1, h');
    LogAppendValid(b.userId, b.log, Transaction(b.userId, sym, BUY, quantity, quote.price, quote.price * quantity as real));
  }

  /** Appending a valid record to a valid log leaves a valid log. */
  lemma LogAppendValid(userId: nat, log: seq<Transaction>, t: Transaction)
    requires forall i :: 0 <= i < |log| ==> RecordValid(userId, log[i])
    requires t.userId == userId && t.quantity > 0 && t.price > 0.0 && t.totalAmount == t.price * t.quantity as real
    ensures forall i :: 0 <= i < |log + [t]| ==> RecordValid(userId, (log + [t])[i])
  {
    assert RecordValid(userId, t);
  }

  /** A holding after a partial sale: fewer shares, the cost basis scaled by the share kept, the sale price as current price. */
  function Reduced(h: Investment, quantity: int, price: real): Investment
    requires h.quantity != 0
  {
    h.(quantity := h.quantity - quantity,
       totalInvested := h.totalInvested * (1.0 - quantity as real / h.quantity as real),
       currentPrice := Some(price))
  }

  /** The book after selling `quantity` of the shares of holding `id`; the holding goes when all are sold. */
  function Sold(b: Book, id: nat, quantity: int, price: real): Book
    requires id in b.holdings && b.holdings[id].quantity != 0
  {
    var h := b.holdings[id];
    var saleAmount := price * quantity as real;
    var holdings' :=
      if quantity == h.quantity then b.holdings - {id}
      else b.holdings[id := Reduced(h, quantity, price)];
    b.(cash := b.cash + saleAmount,
       holdings := holdings',
       log := b.log + [Transaction(b.userId, h.symbol, SELL, quantity, price, saleAmount)])
  }

  /** What `sellInvestment` reports, computed against the holding before it changes. */
  function Report(b: Book, id: nat, quantity: int, price: real): SaleReport
    requires id in b.holdings && b.holdings[id].quantity != 0 && b.holdings[id].totalInvested != 0.0
  {
    var h := b.holdings[id];
    var saleAmount := price * quantity as real;
    var avgPurchasePrice := h.totalInvested / h.quantity as real;
    SaleReport(saleAmount,
               (price - avgPurchasePrice) * quantity as real,
               (price - avgPurchasePrice) / avgPurchasePrice * 100.0,
               b.cash + saleAmount)
  }

  /**
   * `sellInvestment`: validate the quantity, find the user's holding, check the
   * share count, report profit or loss against the average cost, delete or
   * scale down the holding, credit the cash and append a SELL record.
   */
  function Sell(b: Book, id: nat, quantity: int, price: real): (r: Result<(Book, SaleReport), LedgerError>)
    requires BookValid(b) && price > 0.0
    ensures r.Ok? <==> quantity > 0 && id in b.holdings && quantity <= b.holdings[id].quantity
    ensures r.Err? && quantity <= 0 ==> r.error == InvalidOrder
    ensures r.Err? && quantity > 0 && id !in b.holdings ==> r.error == InvestmentNotFound
    ensures r.Err? && quantity > 0 && id in b.holdings ==> r.error == InsufficientShares
    ensures r.Ok? ==> BookValid(r.value.0) && r.value.0.userId == b.userId
    ensures r.Ok? ==> r.value.0.cash == b.cash + price * quantity as real == r.value.1.newCashBalance
    ensures r.Ok? ==> r.value.0.log == b.log + [Transaction(b.userId, b.holdings[id].symbol, SELL, quantity, price, price * quantity as real)]
    ensures r.Ok? ==> NetSpent(r.value.0.log) == NetSpent(b.log) - price * quantity as real
  {
    if quantity <= 0 then Err(InvalidOrder)
    else if id !in b.holdings then Err(InvestmentNotFound)
    else if quantity > b.holdings[id].quantity then Err(InsufficientShares)
    else
      SellKeepsValid(b, id, quantity, price);
      NetSpentAppend(b.log, Transaction(b.userId, b.holdings[id].symbol, SELL, quantity, price, price * quantity as real));
      Ok((Sold(b, id, quantity, price), Report(b, id, quantity, price)))
  }

  lemma SellKeepsValid(b: Book, id: nat, quantity: int, price: real)
    requires BookValid(b) && price > 0.0 && id in b.holdings && 0 < quantity <= b.holdings[id].quantity
    ensures b.holdings[id].totalInvested > 0.0
    ensures BookValid(Sold(b, id, quantity, price))
  {
    var h := b.holdings[id];
    PositiveProduct(h.quantity as real, h.purchasePrice);
    PositiveProduct(price, quantity as real);
    if quantity < h.quantity {
      ReducedValid(b.userId, h, quantity, price);
      ReplaceKeepsHoldings(b, id, Reduced(h, quantity, price));
    }
    LogAppendValid(b.userId, b.log, Transaction(b.userId, h.symbol, SELL, quantity, price, price * quantity as real));
  }

  /** The holding a partial sale leaves satisfies the holding invariant. */
  lemma ReducedValid(userId: nat, h: Investment, quantity: int, price: real)
    requires HoldingValid(userId, h) && 0 < quantity < h.quantity
    ensures HoldingValid(userId, Reduced(h, quantity, price)) && Reduced(h, quantity, price).symbol == h.symbol
  {
    ScaledBasis(h.quantity as real, quantity as real, h.purchasePrice);
  }

  /** Replacing a holding by a valid one with the same symbol keeps the holdings consistent. */
  lemma ReplaceKeepsHoldings(b: Book, id: nat, h': Investment)
    requires BookValid(b) && id in b.holdings
    requires HoldingValid(b.userId, h') && h'.symbol == b.holdings[id].symbol
    ensures var holdings' := b.holdings[id := h'];
            && (forall k :: k in holdings' ==> k < b.nextId && HoldingValid(b.userId, holdings'[k]))
            && (forall k1, k2 :: k1 in holdings' && k2 in holdings' && holdings'[k1].symbol == holdings'[k2].symbol ==> k1 == k2)
  {
  }

  /** `addCash`: a positive deposit raises the balance; nothing is logged. */
  function Deposit(b: Book, amount: real): (r: Result<Book, LedgerError>)
    ensures r.Ok? <==> amount > 0.0
    ensures r.Err? ==> r.error == InvalidAmount
    ensures r.Ok? ==> r.value == b.(cash := b.cash + amount)
    ensures BookValid(b) && r.Ok? ==> BookValid(r.value)
  {
    if amount <= 0.0 then Err(InvalidAmount) else Ok(b.(cash := b.cash + amount))
  }

  /** `deleteInvestment`: removes the user's holding with that id, with no refund and no log entry. */
  function Delete(b: Book, id: nat): (r: Result<Book, LedgerError>)
    ensures r.Ok? <==> id in b.holdings
    ensures r.Err? ==> r.error == InvestmentNotFound
    ensures r.Ok? ==> r.value.holdings.Keys == b.holdings.Keys - {id}
    ensures r.Ok? ==> forall k :: k in r.value.holdings ==> r.value.holdings[k] == b.holdings[k]
    ensures r.Ok? ==> r.value.cash == b.cash && r.value.log == b.log
    ensures BookValid(b) && r.Ok? ==> BookValid(r.value)
  {
    if id !in b.holdings then Err(InvestmentNotFound) else Ok(b.(holdings := b.holdings - {id}))
  }

  /** `getTransactionHistory`: the 50 most recent records, newest first. */
  function History(log: seq<Transaction>): (r: seq<Transaction>)
    ensures |r| == if |log| < 50 then |log| else 50
    ensures forall i :: 0 <= i < |r| ==> r[i] == log[|log| - 1 - i]
  {
    NewestFirst(log, if |log| < 50 then |log| else 50)
  }

  /** The last `n` records of the log, newest first. */
  function NewestFirst(log: seq<Transaction>, n: nat): (r: seq<Transaction>)
    requires n <= |log|
    ensures |r| == n
    ensures forall i :: 0 <= i < n ==> r[i] == log[|log| - 1 - i]
  {
    if n == 0 then [] else [log[|log| - 1]] + NewestFirst(log[..|log| - 1], n - 1)
  }

  // ---------------------------------------------------------------------------
  // Properties of the operations
  // ---------------------------------------------------------------------------

  /**
   * A successful buy leaves exactly one holding of the upper-cased symbol: the
   * existing one with quantity, total invested and average cost moved, or a
   * fresh one priced at the quote. No other holding changes.
   */
  lemma BuyUpsertsHolding(b: Book, symbol: string, quantity: int, quote: Quote)
    requires BookValid(b) && quote.price > 0.0
    requires Buy(b, symbol, quantity, quote).Ok?
    ensures var b' := Buy(b, symbol, quantity, quote).value;
            var sym := ToUpper(symbol);
            var cost := quote.price * quantity as real;
            && (forall id :: id in b.holdings && b.holdings[id].symbol != sym ==> id in b'.holdings && b'.holdings[id] == b.holdings[id])
            && match HoldingFor(b.holdings, sym)
               case Some(id) =>
                 && b'.holdings.Keys == b.holdings.Keys
                 && b'.holdings[id].quantity == b.holdings[id].quantity + quantity
                 && b'.holdings[id].totalInvested == b.holdings[id].totalInvested + cost
                 && b'.holdings[id].purchasePrice == b'.holdings[id].totalInvested / b'.holdings[id].quantity as real
               case None =>
                 && b.nextId !in b.holdings
                 && b'.holdings == b.holdings[b.nextId := Investment(b.userId, sym, quote.shortName, quantity, quote.price, Some(quote.price), cost)]
  {
    var sym := ToUpper(symbol);
    BuyPassed(b, symbol, quantity, quote);
    match HoldingFor(b.holdings, sym)
    case Some(id) => BoughtIntoExisting(b, sym, id, quantity, quote);
    case None =>
      assert b.nextId !in b.holdings;
      BoughtIntoNew(b, sym, quantity, quote);
  }

  /** A buy into the held position `id` rewrites that holding and only that one. */
  lemma BoughtIntoExisting(b: Book, sym: string, id: nat, quantity: int, quote: Quote)
    requires id in b.holdings && b.holdings[id].symbol == sym && b.holdings[id].quantity > 0 && quantity > 0
    ensures var b' := Bought(b, sym, Some(id), quantity, quote);
            && (forall k :: k in b.holdings && b.holdings[k].symbol != sym ==> k in b'.holdings && b'.holdings[k] == b.holdings[k])
            && b'.holdings.Keys == b.holdings.Keys
            && b'.holdings[id].quantity == b.holdings[id].quantity + quantity
            && b'.holdings[id].totalInvested == b.holdings[id].totalInvested + quote.price * quantity as real
            && b'.holdings[id].purchasePrice == b'.holdings[id].totalInvested / b'.holdings[id].quantity as real
  {
    assert Bought(b, sym, Some(id), quantity, quote).holdings == b.holdings[id := Upsert(b.userId, Some(b.holdings[id]), sym, quantity, quote)];
  }

  /** A buy of a symbol not held adds one holding under the next id. */
  lemma BoughtIntoNew(b: Book, sym: string, quantity: int, quote: Quote)
    requires b.nextId !in b.holdings
    ensures var b' := Bought(b, sym, None, quantity, quote);
            && (forall k :: k in b.holdings ==> k in b'.holdings && b'.holdings[k] == b.holdings[k])
            && b'.holdings == b.holdings[b.nextId := Investment(b.userId, sym, quote.shortName, quantity, quote.price, Some(quote.price), quote.price * quantity as real)]
  {
    assert Upsert(b.userId, None, sym, quantity, quote)
        == Investment(b.userId, sym, quote.shortName, quantity, quote.price, Some(quote.price), quote.price * quantity as real);
  }

  /** Buying more of a held symbol sets the average cost to the quantity-weighted mean of the old average and the quote. */
  lemma BuyWeightedAverage(b: Book, symbol: string, quantity: int, quote: Quote, id: nat)
    requires BookValid(b) && quote.price > 0.0
    requires Buy(b, symbol, quantity, quote).Ok?
    requires id in b.holdings && b.holdings[id].symbol == ToUpper(symbol)
    ensures var h := b.holdings[id];
            var h' := Buy(b, symbol, quantity, quote).value.holdings[id];
            h'.purchasePrice
              == (h.quantity as real * h.purchasePrice + quantity as real * quote.price) / (h.quantity + quantity) as real
  {
    var sym := ToUpper(symbol);
    HoldingForUnique(b, sym, id);
    BuyPassed(b, symbol, quantity, quote);
    BoughtWeightedAverage(b, sym, id, quantity, quote);
  }

  lemma BoughtWeightedAverage(b: Book, sym: string, id: nat, quantity: int, quote: Quote)
    requires id in b.holdings && HoldingValid(b.userId, b.holdings[id]) && quantity > 0
    ensures var h := b.holdings[id];
            Bought(b, sym, Some(id), quantity, quote).holdings[id].purchasePrice
              == (h.quantity as real * h.purchasePrice + quantity as real * quote.price) / (h.quantity + quantity) as real
  {
    var h := b.holdings[id];
    assert Bought(b, sym, Some(id), quantity, quote).holdings[id] == Upsert(b.userId, Some(h), sym, quantity, quote);
    UpsertWeightedAverage(b.userId, h, sym, quantity, quote);
  }

  lemma UpsertWeightedAverage(userId: nat, h: Investment, sym: string, quantity: int, quote: Quote)
    requires HoldingValid(userId, h) && quantity > 0
    ensures Upsert(userId, Some(h), sym, quantity, quote).purchasePrice
            == (h.quantity as real * h.purchasePrice + quantity as real * quote.price) / (h.quantity + quantity) as real
  {
    assert h.totalInvested + quote.price * quantity as real == h.quantity as real * h.purchasePrice + quantity as real * quote.price;
  }

  /**
   * Selling every share deletes the holding; a partial sale lowers the share
   * count, scales the total invested by the fraction kept and leaves the
   * average cost per share where it was.
   */
  lemma SellAdjustsHolding(b: Book, id: nat, quantity: int, price: real)
    requires BookValid(b) && price > 0.0
    requires Sell(b, id, quantity, price).Ok?
    ensures var h := b.holdings[id];
            var b' := Sell(b, id, quantity, price).value.0;
            && (forall k :: k in b.holdings && k != id ==> k in b'.holdings && b'.holdings[k] == b.holdings[k])
            && (quantity == h.quantity ==> b'.holdings.Keys == b.holdings.Keys - {id})
            && (quantity < h.quantity ==>
                  && b'.holdings.Keys == b.holdings.Keys
                  && b'.holdings[id].quantity == h.quantity - quantity
                  && b'.holdings[id].totalInvested == h.totalInvested * (1.0 - quantity as real / h.quantity as real)
                  && b'.holdings[id].purchasePrice == h.purchasePrice
                  && b'.holdings[id].totalInvested / b'.holdings[id].quantity as real
                     == h.totalInvested / h.quantity as real)
  {
    SellPassed(b, id, quantity, price);
    SoldAdjusts(b, id, quantity, price);
  }

  lemma SellPassed(b: Book, id: nat, quantity: int, price: real)
    requires BookValid(b) && price > 0.0
    requires 0 < quantity && id in b.holdings && quantity <= b.holdings[id].quantity
    ensures Sell(b, id, quantity, price).value.0 == Sold(b, id, quantity, price)
  {
  }

  /** The holdings after a sale: holding `id` scaled down or gone, every other one as it was. */
  lemma SoldAdjusts(b: Book, id: nat, quantity: int, price: real)
    requires id in b.holdings && HoldingValid(b.userId, b.holdings[id]) && 0 < quantity <= b.holdings[id].quantity
    ensures var h := b.holdings[id];
            var b' := Sold(b, id, quantity, price);
            && (forall k :: k in b.holdings && k != id ==> k in b'.holdings && b'.holdings[k] == b.holdings[k])
            && (quantity == h.quantity ==> b'.holdings.Keys == b.holdings.Keys - {id})
            && (quantity < h.quantity ==>
                  && b'.holdings.Keys == b.holdings.Keys
                  && b'.holdings[id].quantity == h.quantity - quantity
                  && b'.holdings[id].totalInvested == h.totalInvested * (1.0 - quantity as real / h.quantity as real)
                  && b'.holdings[id].purchasePrice == h.purchasePrice
                  && b'.holdings[id].totalInvested / b'.holdings[id].quantity as real
                     == h.totalInvested / h.quantity as real)
  {
    var h := b.holdings[id];
    var b' := Sold(b, id, quantity, price);
    if quantity == h.quantity {
      assert b'.holdings == b.holdings - {id};
    } else {
      assert b'.holdings == b.holdings[id := Reduced(h, quantity, price)];
      ReducedKeepsAverage(b.userId, h, quantity, price);
    }
  }

  /** A partial sale keeps the average cost per share. */
  lemma ReducedKeepsAverage(userId: nat, h: Investment, quantity: int, price: real)
    requires HoldingValid(userId, h) && 0 < quantity < h.quantity
    ensures Reduced(h, quantity, price).purchasePrice == h.purchasePrice
    ensures Reduced(h, quantity, price).totalInvested / Reduced(h, quantity, price).quantity as real
            == h.totalInvested / h.quantity as real
  {
    var h' := Reduced(h, quantity, price);
    ScaledBasis(h.quantity as real, quantity as real, h.purchasePrice);
    assert h'.totalInvested == h'.quantity as real * h.purchasePrice;
    CountTimesAverage(h'.quantity as real, h.purchasePrice);
    CountTimesAverage(h.quantity as real, h.purchasePrice);
  }

  /** The reported profit is the sale amount minus the average cost of the shares sold. */
  lemma SellReportsProfit(b: Book, id: nat, quantity: int, price: real)
    requires BookValid(b) && price > 0.0
    requires Sell(b, id, quantity, price).Ok?
    ensures var h := b.holdings[id];
            var report := Sell(b, id, quantity, price).value.1;
            && report.saleAmount == price * quantity as real
            && report.profitLoss == report.saleAmount - h.purchasePrice * quantity as real
  {
    var h := b.holdings[id];
    AverageTimesCount(h.totalInvested, h.quantity as real);
  }

  // ---------------------------------------------------------------------------
  // Fractional quantities
  // ---------------------------------------------------------------------------

  /**
   * An order quantity as the request body carries it: a JSON number, or a
   * numeric string from a form-encoded body, given with its numeric value and
   * the integer `parseInt` reads from the digits at its head ("1e3" has value
   * 1000 and reads as 1). Comparisons and arithmetic convert both forms to the
   * number; only `===` and `parseInt` tell them apart.
   */
  datatype OrderQuantity = Number(value: real) | NumericString(value: real, leadingInt: nat)

  /** `parseInt(quantity)` for a positive quantity. */
  function ParseInt(quantity: OrderQuantity): (n: nat)
    requires quantity.value > 0.0
    ensures quantity.Number? && PrintsAsDecimal(quantity.value) ==> n == quantity.value.Floor
    ensures quantity.NumericString? ==> n == quantity.leadingInt
  {
    match quantity
    case Number(x) => ParseIntOfNumber(x)
    case NumericString(_, n) => n
  }

  /**
   * The holding `createInvestment` as written leaves: `shares` is what it
   * credits and `cost` what it charged, which need not agree.
   */
  function UpsertAsWritten(userId: nat, existing: Option<Investment>, symbol: string, shares: nat, cost: real, quote: Quote): Investment
    requires existing.Some? ==> existing.value.quantity > 0
  {
    match existing
    case Some(h) =>
      var newTotalInvested := h.totalInvested + cost;
      h.(quantity := h.quantity + shares,
         totalInvested := newTotalInvested,
         purchasePrice := newTotalInvested / (h.quantity + shares) as real,
         currentPrice := Some(quote.price))
    case None =>
      Investment(userId, symbol, quote.shortName, shares, quote.price, Some(quote.price), cost)
  }

  /**
   * The book after a buy as written that passed its checks: `shares` are
   * credited and logged, `cost` is debited and logged.
   */
  function BoughtAsWritten(b: Book, sym: string, found: Option<nat>, shares: nat, cost: real, quote: Quote): Book
    requires found.Some? ==> found.value in b.holdings && b.holdings[found.value].quantity > 0
  {
    var existing := if found.Some? then Some(b.holdings[found.value]) else None;
    var id := if found.Some? then found.value else b.nextId;
    Book(b.userId, b.cash - cost,
         b.holdings[id := UpsertAsWritten(b.userId, existing, sym, shares, cost, quote)],
         b.log + [Transaction(b.userId, sym, BUY, shares, quote.price, cost)],
         if found.Some? then b.nextId else b.nextId + 1)
  }

  /**
   * `createInvestment` as written: the guard `quantity <= 0` lets any positive
   * quantity through, the cost and the debit use its numeric value, while the
   * holding and the BUY record get `parseInt(quantity)` shares.
   */
  ghost function BuyAsWritten(b: Book, symbol: string, quantity: OrderQuantity, quote: Quote): (r: Result<Book, LedgerError>)
    requires BookValid(b) && quote.price > 0.0
    ensures r.Ok? <==> symbol != "" && quantity.value > 0.0 && quote.price * quantity.value <= b.cash && |symbol| <= SymbolWidth
    ensures r.Err? && (symbol == "" || quantity.value <= 0.0) ==> r.error == InvalidOrder
    ensures r.Err? && symbol != "" && quantity.value > 0.0 && quote.price * quantity.value > b.cash ==> r.error == InsufficientFunds
    ensures r.Err? && symbol != "" && quantity.value > 0.0 && quote.price * quantity.value <= b.cash ==> r.error == StorageError
    ensures r.Ok? ==> r.value.cash == b.cash - quote.price * quantity.value
    ensures r.Ok? ==> r.value.log == b.log + [Transaction(b.userId, ToUpper(symbol), BUY, ParseInt(quantity), quote.price, quote.price * quantity.value)]
  {
    if symbol == "" || quantity.value <= 0.0 then Err(InvalidOrder)
    else if b.cash < quote.price * quantity.value then Err(InsufficientFunds)
    else if |symbol| > SymbolWidth then Err(StorageError)
    else
      var sym := ToUpper(symbol);
      Ok(BoughtAsWritten(b, sym, HoldingFor(b.holdings, sym), ParseInt(quantity), quote.price * quantity.value, quote))
  }

  /** When the shares credited are the shares paid for, the holding is the one `Upsert` computes. */
  lemma UpsertAsWrittenAgrees(userId: nat, existing: Option<Investment>, symbol: string, n: nat, quote: Quote)
    requires existing.Some? ==> existing.value.quantity > 0
    ensures UpsertAsWritten(userId, existing, symbol, n, quote.price * n as real, quote) == Upsert(userId, existing, symbol, n, quote)
  {
  }

  /** When the shares credited are the shares paid for, the book is the one `Bought` computes. */
  lemma BoughtAsWrittenAgrees(b: Book, sym: string, found: Option<nat>, n: nat, cost: real, quote: Quote)
    requires found.Some? ==> found.value in b.holdings && b.holdings[found.value].quantity > 0
    requires cost == quote.price * n as real
    ensures BoughtAsWritten(b, sym, found, n, cost, quote) == Bought(b, sym, found, n, quote)
  {
    var existing := if found.Some? then Some(b.holdings[found.value]) else None;
    var w := BoughtAsWritten(b, sym, found, n, cost, quote);
    var r := Bought(b, sym, found, n, quote);
    UpsertAsWrittenAgrees(b.userId, existing, sym, n, quote);
    assert w.holdings == r.holdings;
    assert w.log[|b.log|] == r.log[|b.log|];
    assert w.log == r.log;
  }

  lemma BuyAsWrittenPassed(b: Book, symbol: string, quantity: OrderQuantity, quote: Quote)
    requires BookValid(b) && quote.price > 0.0
    requires symbol != "" && quantity.value > 0.0 && quote.price * quantity.value <= b.cash && |symbol| <= SymbolWidth
    ensures var sym := ToUpper(symbol);
            BuyAsWritten(b, symbol, quantity, quote)
              == Ok(BoughtAsWritten(b, sym, HoldingFor(b.holdings, sym), ParseInt(quantity), quote.price * quantity.value, quote))
  {
  }

  lemma BuyPassed(b: Book, symbol: string, quantity: int, quote: Quote)
    requires BookValid(b) && quote.price > 0.0
    requires symbol != "" && quantity > 0 && quote.price * quantity as real <= b.cash && |symbol| <= SymbolWidth
    ensures var sym := ToUpper(symbol);
            Buy(b, symbol, quantity, quote) == Ok(Bought(b, sym, HoldingFor(b.holdings, sym), quantity, quote))
  {
  }

  /**
   * Whenever `parseInt` reads the quantity as its own value, the code as
   * written does what `Buy` does.
   */
  lemma AsWrittenAgreesOnWhole(b: Book, symbol: string, quantity: OrderQuantity, quote: Quote)
    requires BookValid(b) && quote.price > 0.0
    requires quantity.value > 0.0 ==> ParseInt(quantity) as real == quantity.value
    ensures BuyAsWritten(b, symbol, quantity, quote) == Buy(b, symbol, quantity.value.Floor, quote)
  {
    var n := quantity.value.Floor;
    if symbol != "" && quantity.value > 0.0 && quote.price * quantity.value <= b.cash && |symbol| <= SymbolWidth {
      AsWrittenAgreesPastChecks(b, symbol, quantity, ParseInt(quantity), quote);
    } else {
      AsWrittenRejectsAsBuy(b, symbol, quantity, n, quote);
    }
  }

  /** Past the checks, a buy as written that credits the `n` shares it charges for is `Buy`'s buy of `n`. */
  lemma AsWrittenAgreesPastChecks(b: Book, symbol: string, quantity: OrderQuantity, n: nat, quote: Quote)
    requires BookValid(b) && quote.price > 0.0
    requires symbol != "" && quantity.value > 0.0 && quote.price * quantity.value <= b.cash && |symbol| <= SymbolWidth
    requires ParseInt(quantity) == n && quantity.value == n as real
    ensures BuyAsWritten(b, symbol, quantity, quote) == Buy(b, symbol, n, quote)
  {
    var sym := ToUpper(symbol);
    BuyAsWrittenPassed(b, symbol, quantity, quote);
    BuyPassed(b, symbol, n, quote);
    BoughtAsWrittenAgrees(b, sym, HoldingFor(b.holdings, sym), n, quote.price * quantity.value, quote);
  }

  /** A quantity the checks turn away is turned away by `Buy` for the same reason. */
  lemma AsWrittenRejectsAsBuy(b: Book, symbol: string, quantity: OrderQuantity, n: int, quote: Quote)
    requires BookValid(b) && quote.price > 0.0
    requires quantity.value > 0.0 ==> quantity.value == n as real
    requires quantity.value <= 0.0 ==> n <= 0
    requires !(symbol != "" && quantity.value > 0.0 && quote.price * quantity.value <= b.cash && |symbol| <= SymbolWidth)
    ensures BuyAsWritten(b, symbol, quantity, quote) == Buy(b, symbol, n, quote)
  {
    if symbol == "" || quantity.value <= 0.0 {
      assert BuyAsWritten(b, symbol, quantity, quote) == Err(InvalidOrder);
      assert Buy(b, symbol, n, quote) == Err(InvalidOrder);
    } else if b.cash < quote.price * quantity.value {
      assert BuyAsWritten(b, symbol, quantity, quote) == Err(InsufficientFunds);
      assert Buy(b, symbol, n, quote) == Err(InsufficientFunds);
    } else {
      assert BuyAsWritten(b, symbol, quantity, quote) == Err(StorageError);
      assert Buy(b, symbol, n, quote) == Err(StorageError);
    }
  }

  /** A whole JSON number below 1e21 is read back by `parseInt` as itself, so the code as written buys it as `Buy` does. */
  lemma JsonWholeNumberAgrees(b: Book, symbol: string, n: int, quote: Quote)
    requires BookValid(b) && quote.price > 0.0
    requires n as real < 1000000000000000000000.0
    ensures BuyAsWritten(b, symbol, Number(n as real), quote) == Buy(b, symbol, n, quote)
  {
    assert (n as real).Floor == n;
    AsWrittenAgreesOnWhole(b, symbol, Number(n as real), quote);
  }

  /**
   * Half a share at 10.00 from a balance of 100.00 is accepted: the balance
   * drops by 5.00, the new holding has no shares, the BUY record says 0 shares
   * for 5.00, and the book is no longer consistent.
   */
  lemma FractionalBuyCreditsNoShares()
    ensures var r := BuyAsWritten(Opening(1, 100.0), "aapl", Number(0.5), Quote(10.0, "Apple Inc."));
            && r.Ok?
            && r.value.cash == 95.0
            && 0 in r.value.holdings && r.value.holdings[0].quantity == 0
            && r.value.log[0].quantity == 0 && r.value.log[0].totalAmount == 5.0
            && !BookValid(r.value)
  {
    var r := BuyAsWritten(Opening(1, 100.0), "aapl", Number(0.5), Quote(10.0, "Apple Inc."));
    assert ParseIntOfNumber(0.5) == 0;
    assert !HoldingValid(1, r.value.holdings[0]);
  }

  /**
   * 0.0000005 shares at 10.00 cost 0.000005, but `String(0.0000005)` is
   * "5e-7", which `parseInt` reads as 5: the new holding and the BUY record
   * get 5 shares worth 50.00 for a debit that `toFixed(2)` rounds away.
   */
  lemma TinyBuyCreditsFiveShares()
    ensures var r := BuyAsWritten(Opening(1, 100.0), "aapl", Number(0.0000005), Quote(10.0, "Apple Inc."));
            && r.Ok?
            && r.value.cash == 100.0 - 0.000005
            && 0 in r.value.holdings && r.value.holdings[0].quantity == 5
            && r.value.holdings[0].totalInvested == 0.000005
            && r.value.log[0].quantity == 5 && r.value.log[0].totalAmount == 0.000005
            && !BookValid(r.value)
  {
    var r := BuyAsWritten(Opening(1, 100.0), "aapl", Number(0.0000005), Quote(10.0, "Apple Inc."));
    assert LeadingDigitOfSmall(0.5) == 5;
    assert LeadingDigitOfSmall(0.05) == 5;
    assert LeadingDigitOfSmall(0.005) == 5;
    assert LeadingDigitOfSmall(0.0005) == 5;
    assert LeadingDigitOfSmall(0.00005) == 5;
    assert LeadingDigitOfSmall(0.000005) == 5;
    assert LeadingDigitOfSmall(0.0000005) == 5;
    assert ParseIntOfNumber(0.0000005) == 5;
    assert !HoldingValid(1, r.value.holdings[0]);
  }

  /**
   * The form field "1e3" is the number 1000 to the guard, the cost and the
   * debit, but `parseInt("1e3")` is 1: a balance of 100000.00 pays 10000.00
   * for 1000 shares at 10.00 and is credited with one.
   */
  lemma ExponentStringBuyCreditsOneShare()
    ensures var r := BuyAsWritten(Opening(1, 100000.0), "aapl", NumericString(1000.0, 1), Quote(10.0, "Apple Inc."));
            && r.Ok?
            && r.value.cash == 90000.0
            && 0 in r.value.holdings && r.value.holdings[0].quantity == 1
            && r.value.log[0].quantity == 1 && r.value.log[0].totalAmount == 10000.0
            && !BookValid(r.value)
  {
    var r := BuyAsWritten(Opening(1, 100000.0), "aapl", NumericString(1000.0, 1), Quote(10.0, "Apple Inc."));
    assert !HoldingValid(1, r.value.holdings[0]);
  }

  /**
   * `createInvestment` with the guard the share count needs: a quantity whose
   * value is not a whole number is rejected like a non-positive one, and the
   * share count is the value itself rather than what `parseInt` reads, so
   * every share paid for is credited and logged.
   */
  ghost function BuyWhole(b: Book, symbol: string, quantity: OrderQuantity, quote: Quote): (r: Result<Book, LedgerError>)
    requires BookValid(b) && quote.price > 0.0
    ensures quantity.value != quantity.value.Floor as real ==> r == Err(InvalidOrder)
    ensures r.Ok? <==> (symbol != "" && quantity.value > 0.0 && quantity.value == quantity.value.Floor as real
                        && quote.price * quantity.value <= b.cash && |symbol| <= SymbolWidth)
    ensures r.Ok? ==> BookValid(r.value)
    ensures r.Ok? ==> b.cash - r.value.cash == quote.price * quantity.value
                      && r.value.log == b.log + [Transaction(b.userId, ToUpper(symbol), BUY, quantity.value.Floor, quote.price, quote.price * quantity.value)]
                      && quantity.value.Floor as real == quantity.value
  {
    if quantity.value != quantity.value.Floor as real then Err(InvalidOrder)
    else Buy(b, symbol, quantity.value.Floor, quote)
  }

  /**
   * What `sellInvestment` as written leaves behind, in the code's own terms:
   * the new balance, whether the holding was destroyed, the share count and
   * cost basis written back to it otherwise, and the SELL record's shares and
   * amount. Share counts here need not be whole.
   */
  datatype SaleAsWritten = SaleAsWritten(
    cash: real,
    holdingDeleted: bool,
    sharesLeft: real,
    investedLeft: real,
    recordedShares: real,
    saleAmount: real)

  /**
   * `sellInvestment` as written: the guard only asks for a positive quantity,
   * and the full-sale test is the strict `quantity === investment.quantity`,
   * which a numeric string never passes.
   */
  function SellAsWritten(b: Book, id: nat, quantity: OrderQuantity, price: real): (r: Result<SaleAsWritten, LedgerError>)
    requires BookValid(b) && price > 0.0
    ensures r.Ok? <==> quantity.value > 0.0 && id in b.holdings && quantity.value <= b.holdings[id].quantity as real
    ensures r.Err? && quantity.value <= 0.0 ==> r.error == InvalidOrder
    ensures r.Err? && quantity.value > 0.0 && id !in b.holdings ==> r.error == InvestmentNotFound
    ensures r.Err? && quantity.value > 0.0 && id in b.holdings ==> r.error == InsufficientShares
    ensures r.Ok? ==> r.value.cash == b.cash + price * quantity.value == b.cash + r.value.saleAmount
    ensures r.Ok? ==> r.value.recordedShares == quantity.value
    ensures r.Ok? ==> (r.value.holdingDeleted <==> quantity.Number? && quantity.value == b.holdings[id].quantity as real)
    ensures r.Ok? && !r.value.holdingDeleted ==> r.value.sharesLeft == b.holdings[id].quantity as real - quantity.value
  {
    if quantity.value <= 0.0 then Err(InvalidOrder)
    else if id !in b.holdings then Err(InvestmentNotFound)
    else if quantity.value > b.holdings[id].quantity as real then Err(InsufficientShares)
    else
      var h := b.holdings[id];
      var held := h.quantity as real;
      var saleAmount := price * quantity.value;
      var deleted := quantity.Number? && quantity.value == held;
      Ok(SaleAsWritten(b.cash + saleAmount, deleted,
                       if deleted then 0.0 else held - quantity.value,
                       if deleted then 0.0 else h.totalInvested * (1.0 - quantity.value / held),
                       quantity.value, saleAmount))
  }

  /** On whole JSON numbers the code as written does what `Sell` does. */
  lemma SellAsWrittenAgreesOnWhole(b: Book, id: nat, quantity: int, price: real)
    requires BookValid(b) && price > 0.0
    ensures var w := SellAsWritten(b, id, Number(quantity as real), price);
            var r := Sell(b, id, quantity, price);
            && (w.Err? ==> r == Err(w.error))
            && (w.Ok? ==>
                  && r.Ok?
                  && w.value.cash == r.value.0.cash
                  && w.value.recordedShares == r.value.0.log[|b.log|].quantity as real
                  && (w.value.holdingDeleted <==> id !in r.value.0.holdings)
                  && (!w.value.holdingDeleted ==>
                        && w.value.sharesLeft == r.value.0.holdings[id].quantity as real
                        && w.value.investedLeft == r.value.0.holdings[id].totalInvested))
  {
    if 0 < quantity && id in b.holdings && quantity <= b.holdings[id].quantity {
      assert Sell(b, id, quantity, price) == Ok((Sold(b, id, quantity, price), Report(b, id, quantity, price)));
      SoldAsWritten(b, id, quantity, price);
    }
  }

  /** An accepted whole-number sale as written leaves what `Sold` leaves. */
  lemma SoldAsWritten(b: Book, id: nat, quantity: int, price: real)
    requires BookValid(b) && price > 0.0 && id in b.holdings && 0 < quantity <= b.holdings[id].quantity
    ensures var w := SellAsWritten(b, id, Number(quantity as real), price).value;
            var sold := Sold(b, id, quantity, price);
            && w.cash == sold.cash
            && w.recordedShares == sold.log[|b.log|].quantity as real
            && (w.holdingDeleted <==> id !in sold.holdings)
            && (!w.holdingDeleted ==>
                  && w.sharesLeft == sold.holdings[id].quantity as real
                  && w.investedLeft == sold.holdings[id].totalInvested)
  {
    var h := b.holdings[id];
    if quantity < h.quantity {
      assert Sold(b, id, quantity, price).holdings[id] == Reduced(h, quantity, price);
    }
  }

  /** One user holding two AAPL shares bought at 10.00, with no cash. */
  function TwoShares(): Book
  {
    Book(1, 0.0, map[0 := Investment(1, "AAPL", "Apple Inc.", 2, 10.0, None, 20.0)], [], 1)
  }

  /**
   * Selling half a share of two at 12.00 is accepted: 6.00 is credited, the
   * holding is written back with 1.5 shares and the SELL record says 0.5 shares,
   * share counts the integer columns cannot hold.
   */
  lemma FractionalSellLeavesFractionalShares()
    ensures BookValid(TwoShares())
    ensures var r := SellAsWritten(TwoShares(), 0, Number(0.5), 12.0);
            && r.Ok? && r.value.cash == 6.0 && !r.value.holdingDeleted
            && r.value.sharesLeft == 1.5 && r.value.recordedShares == 0.5
            && r.value.sharesLeft.Floor as real != r.value.sharesLeft
  {
    var b := TwoShares();
    assert HoldingValid(1, b.holdings[0]);
    assert (1.5).Floor == 1;
  }

  /**
   * Selling both shares with the quantity "2" from a form-encoded body is
   * accepted and credits 24.00, but `"2" === 2` is false: the holding is kept
   * with 0 shares and 0 invested instead of being destroyed.
   */
  lemma StringFullSaleKeepsEmptyHolding()
    ensures BookValid(TwoShares())
    ensures var r := SellAsWritten(TwoShares(), 0, NumericString(2.0, 2), 12.0);
            && r.Ok? && r.value.cash == 24.0 && r.value.recordedShares == 2.0
            && !r.value.holdingDeleted && r.value.sharesLeft == 0.0 && r.value.investedLeft == 0.0
  {
    var b := TwoShares();
    assert HoldingValid(1, b.holdings[0]);
  }

  /**
   * `sellInvestment` with the quantity taken by its numeric value and required
   * to be whole: a fraction is rejected like a non-positive quantity, and a
   * numeric string sells like the number it spells.
   */
  function SellWhole(b: Book, id: nat, quantity: OrderQuantity, price: real): (r: Result<(Book, SaleReport), LedgerError>)
    requires BookValid(b) && price > 0.0
    ensures quantity.value != quantity.value.Floor as real ==> r == Err(InvalidOrder)
    ensures r.Ok? <==> && quantity.value > 0.0 && quantity.value == quantity.value.Floor as real
                       && id in b.holdings && quantity.value <= b.holdings[id].quantity as real
    ensures r.Ok? ==> BookValid(r.value.0) && r.value.0.cash == b.cash + price * quantity.value
    ensures r.Ok? ==> r.value.0.log == b.log + [Transaction(b.userId, b.holdings[id].symbol, SELL, quantity.value.Floor, price, price * quantity.value)]
  {
    if quantity.value != quantity.value.Floor as real then Err(InvalidOrder)
    else Sell(b, id, quantity.value.Floor, price)
  }

  /** Under the corrected sale, selling every share closes the position, whichever form the quantity came in. */
  lemma SellWholeClosesPosition(b: Book, id: nat, quantity: OrderQuantity, price: real)
    requires BookValid(b) && price > 0.0
    requires id in b.holdings && quantity.value == b.holdings[id].quantity as real
    ensures var r := SellWhole(b, id, quantity, price);
            r.Ok? && id !in r.value.0.holdings && r.value.0.cash == b.cash + price * quantity.value
  {
    var n := b.holdings[id].quantity;
    assert quantity.value.Floor == n;
    SellAdjustsHolding(b, id, n, price);
  }

  // ---------------------------------------------------------------------------
  // Sequences of requests and cash conservation
  // ---------------------------------------------------------------------------

  /** One request to the engine, with the quote it was priced at. */
  datatype Request =
    | BuyOrder(symbol: string, quantity: int, quote: Quote)
    | SellOrder(id: nat, quantity: int, price: real)
    | CashDeposit(amount: real)
    | Deletion(id: nat)

  /** The quote source only returns positive prices. */
  predicate Priced(req: Request)
  {
    match req
    case BuyOrder(_, _, quote) => quote.price > 0.0
    case SellOrder(_, _, price) => price > 0.0
    case _ => true
  }

  /** The book after one request; a rejected request leaves it as it was. */
  ghost function Apply(b: Book, req: Request): (b': Book)
    requires BookValid(b) && Priced(req)
    ensures BookValid(b') && b'.userId == b.userId
  {
    match req
    case BuyOrder(symbol, quantity, quote) =>
      (match Buy(b, symbol, quantity, quote) case Ok(b') => b' case Err(_) => b)
    case SellOrder(id, quantity, price) =>
      (match Sell(b, id, quantity, price) case Ok(sold) => sold.0 case Err(_) => b)
    case CashDeposit(amount) =>
      (match Deposit(b, amount) case Ok(b') => b' case Err(_) => b)
    case Deletion(id) =>
      (match Delete(b, id) case Ok(b') => b' case Err(_) => b)
  }

  /** The book after a sequence of requests, applied in order. */
  ghost function Run(b: Book, reqs: seq<Request>): (b': Book)
    requires BookValid(b) && forall i :: 0 <= i < |reqs| ==> Priced(reqs[i])
    ensures BookValid(b')
    decreases |reqs|
  {
    if reqs == [] then b else Run(Apply(b, reqs[0]), reqs[1..])
  }

  /** The cash brought in by the accepted deposits of a request sequence. */
  function Deposited(reqs: seq<Request>): real
  {
    if reqs == [] then 0.0
    else (if reqs[0].CashDeposit? && reqs[0].amount > 0.0 then reqs[0].amount else 0.0) + Deposited(reqs[1..])
  }

  /** One request moves cash by the deposit it accepts minus the net it adds to the log. */
  lemma ApplyConservesCash(b: Book, req: Request)
    requires BookValid(b) && Priced(req)
    ensures var b' := Apply(b, req);
            && b.log <= b'.log
            && b'.cash == b.cash + Deposited([req]) - (NetSpent(b'.log) - NetSpent(b.log))
  {
    assert Deposited([req]) == (if req.CashDeposit? && req.amount > 0.0 then req.amount else 0.0);
  }

  /**
   * Cash conservation: across any sequence of buys, sells, deposits and
   * deletions, the cash the user started with plus what was deposited minus
   * the cash now held equals the BUY totals minus the SELL totals the
   * sequence added to the log; the log only grows.
   */
  lemma {:induction false} RunConservesCash(b: Book, reqs: seq<Request>)
    requires BookValid(b) && forall i :: 0 <= i < |reqs| ==> Priced(reqs[i])
    ensures var b' := Run(b, reqs);
            && b.log <= b'.log
            && b.cash + Deposited(reqs) - b'.cash == NetSpent(b'.log) - NetSpent(b.log)
    decreases |reqs|
  {
    if reqs != [] {
      var b1 := Apply(b, reqs[0]);
      ApplyConservesCash(b, reqs[0]);
      RunConservesCash(b1, reqs[1..]);
      assert Deposited(reqs) == Deposited([reqs[0]]) + Deposited(reqs[1..]);
    }
  }

  /** From an empty book: opening cash plus deposits minus current cash is BUY totals minus SELL totals. */
  lemma OpeningConservesCash(userId: nat, cash: real, reqs: seq<Request>)
    requires cash >= 0.0 && forall i :: 0 <= i < |reqs| ==> Priced(reqs[i])
    ensures BookValid(Opening(userId, cash))
    ensures var b' := Run(Opening(userId, cash), reqs);
            cash + Deposited(reqs) - b'.cash == Total(b'.log, BUY) - Total(b'.log, SELL)
  {
    RunConservesCash(Opening(userId, cash), reqs);
  }

  // ---------------------------------------------------------------------------
  // The imperative engine
  // ---------------------------------------------------------------------------

  /**
   * One user's account as the controller updates it: the user row's
   * `cashBalance`, the user's `Investment` rows by id and the `Transaction`
   * rows. Every method is one atomic database transaction; on a rejection
   * nothing is written.
   */
  class Account {
    const userId: nat
    var cashBalance: real
    var investments: map<nat, Investment>
    var transactions: seq<Transaction>
    var nextId: nat
    ghost var openingCash: real   // the balance the account was created with
    ghost var deposited: real     // the sum of accepted deposits so far

    ghost function State(): Book
      reads this
    {
      Book(userId, cashBalance, investments, transactions, nextId)
    }

    ghost predicate Valid()
      reads this
    {
      && BookValid(State())
      && openingCash + deposited - cashBalance == NetSpent(transactions)
    }

    constructor (userId: nat, cashBalance: real)
      requires cashBalance >= 0.0
      ensures Valid()
      ensures State() == Opening(userId, cashBalance)
      ensures openingCash == cashBalance && deposited == 0.0
    {
      this.userId := userId;
      this.cashBalance := cashBalance;
      investments := map[];
      transactions := [];
      nextId := 0;
      openingCash := cashBalance;
      deposited := 0.0;
    }

    /** `Investment.findOne({ where: { userId, symbol } })`: scans the user's rows. */
    method FindBySymbol(symbol: string) returns (found: Option<nat>)
      requires Valid()
      ensures found == HoldingFor(investments, symbol)
    {
      found := None;
      var unseen := investments.Keys;
      while unseen != {}
        invariant unseen <= investments.Keys
        invariant found.None? ==> forall id :: id in investments && id !in unseen ==> investments[id].symbol != symbol
        invariant found.Some? ==> found.value in investments && investments[found.value].symbol == symbol
        decreases unseen
      {
        var id :| id in unseen;
        if investments[id].symbol == symbol {
          found := Some(id);
        }
        unseen := unseen - {id};
      }
      if found.Some? {
        HoldingForUnique(State(), symbol, found.value);
      }
    }

    /** `createInvestment`; on success returns the remaining cash. */
    method CreateInvestment(symbol: string, quantity: int, quote: Quote) returns (r: Result<real, LedgerError>)
      requires Valid() && quote.price > 0.0
      modifies this
      ensures Valid() && openingCash == old(openingCash) && deposited == old(deposited)
      ensures match Buy(old(State()), symbol, quantity, quote)
              case Ok(b') => State() == b' && r == Ok(cashBalance)
              case Err(e) => State() == old(State()) && r == Err(e)
    {
      ghost var before := State();
      if symbol == "" || quantity <= 0 {
        return Err(InvalidOrder);
      }
      var totalCost := quote.price * quantity as real;
      if cashBalance < totalCost {
        return Err(InsufficientFunds);
      }
      if |symbol| > SymbolWidth {
        // the insert fails, and the rollback undoes every write before it
        return Err(StorageError);
      }
      var sym := ToUpper(symbol);
      var existing := FindBySymbol(sym);
      BuyPassed(before, symbol, quantity, quote);
      Credit(sym, existing, quantity, quote);
      r := Ok(cashBalance);
    }

    /** The writes of a buy that passed its checks: upsert the holding, debit the cash, append the BUY record. */
    method Credit(sym: string, existing: Option<nat>, quantity: int, quote: Quote)
      requires existing.Some? ==> existing.value in investments && investments[existing.value].quantity + quantity != 0
      modifies this
      ensures State() == Bought(old(State()), sym, existing, quantity, quote)
      ensures openingCash == old(openingCash) && deposited == old(deposited)
    {
      ghost var before := State();
      var totalCost := quote.price * quantity as real;
      match existing {
        case Some(id) =>
          var h := investments[id];
          var newQuantity := h.quantity + quantity;
          var newTotalInvested := h.totalInvested + totalCost;
          investments := investments[id := h.(quantity := newQuantity,
                                              totalInvested := newTotalInvested,
                                              purchasePrice := newTotalInvested / newQuantity as real,
                                              currentPrice := Some(quote.price))];
        case None =>
          investments := investments[nextId := Investment(userId, sym, quote.shortName, quantity,
                                                          quote.price, Some(quote.price), totalCost)];
          nextId := nextId + 1;
      }
      cashBalance := cashBalance - totalCost;
      transactions := transactions + [Transaction(userId, sym, BUY, quantity, quote.price, totalCost)];
      ghost var after := Bought(before, sym, existing, quantity, quote);
      assert after.log[|before.log|] == transactions[|before.log|];
      assert transactions == after.log;
    }

    /** `sellInvestment` on the holding with id `id`. */
    method SellInvestment(id: nat, quantity: int, price: real) returns (r: Result<SaleReport, LedgerError>)
      requires Valid() && price > 0.0
      modifies this
      ensures Valid() && openingCash == old(openingCash) && deposited == old(deposited)
      ensures match Sell(old(State()), id, quantity, price)
              case Ok(sold) => State() == sold.0 && r == Ok(sold.1)
              case Err(e) => State() == old(State()) && r == Err(e)
    {
      ghost var before := State();
      if quantity <= 0 {
        return Err(InvalidOrder);
      }
      if id !in investments {
        return Err(InvestmentNotFound);
      }
      var investment := investments[id];
      if quantity > investment.quantity {
        return Err(InsufficientShares);
      }
      var saleAmount := price * quantity as real;
      var avgPurchasePrice := investment.totalInvested / investment.quantity as real;
      var profitLoss := (price - avgPurchasePrice) * quantity as real;
      PositiveProduct(investment.quantity as real, investment.purchasePrice);
      var profitLossPercent := (price - avgPurchasePrice) / avgPurchasePrice * 100.0;
      if quantity == investment.quantity {
        investments := investments - {id};
      } else {
        var sellRatio := quantity as real / investment.quantity as real;
        var kept := investment.(quantity := investment.quantity - quantity,
                                totalInvested := investment.totalInvested * (1.0 - sellRatio),
                                currentPrice := Some(price));
        assert kept == Reduced(investment, quantity, price);
        investments := investments[id := kept];
      }
      ghost var after := Sold(before, id, quantity, price);
      assert investments == after.holdings;
      cashBalance := cashBalance + saleAmount;
      transactions := transactions + [Transaction(userId, investment.symbol, SELL, quantity, price, saleAmount)];
      r := Ok(SaleReport(saleAmount, profitLoss, profitLossPercent, cashBalance));
      assert cashBalance == after.cash && transactions == after.log;
      assert State() == after;
      assert r.value == Report(before, id, quantity, price);
      assert Sell(before, id, quantity, price) == Ok((State(), r.value));
    }

    /** `addCash`; on success returns the new balance. */
    method AddCash(amount: real) returns (r: Result<real, LedgerError>)
      requires Valid()
      modifies this
      ensures Valid() && openingCash == old(openingCash)
      ensures match Deposit(old(State()), amount)
              case Ok(b') => State() == b' && r == Ok(cashBalance) && deposited == old(deposited) + amount
              case Err(e) => State() == old(State()) && r == Err(e) && deposited == old(deposited)
    {
      if amount <= 0.0 {
        return Err(InvalidAmount);
      }
      cashBalance := cashBalance + amount;
      deposited := deposited + amount;
      r := Ok(cashBalance);
    }

    /** `deleteInvestment`. */
    method DeleteInvestment(id: nat) returns (r: Result<(), LedgerError>)
      requires Valid()
      modifies this
      ensures Valid() && openingCash == old(openingCash) && deposited == old(deposited)
      ensures match Delete(old(State()), id)
              case Ok(b') => State() == b' && r == Ok(())
              case Err(e) => State() == old(State()) && r == Err(e)
    {
      if id !in investments {
        return Err(InvestmentNotFound);
      }
      investments := investments - {id};
      r := Ok(());
    }
  }
}

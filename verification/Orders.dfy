/** The books of an order (revenue/order_created.go) and its cancelling (revenue/order_cancel.go). */
module Orders {
  import opened Accounts
  import opened Journal
  import opened Books
  import opened Rollback
  import opened Engine
  import opened Mutation
  import opened References

  datatype PaymentMethod = PayCash | PayShopeepay | PayOther

  datatype Additional =
    | NoAdditional
    | FakeOrder(payWith: PaymentMethod, amount: real)
    | Supplier(payWith: PaymentMethod, amount: real)

  /** Stock taken from another team: its cost, and the price agreed for it. */
  datatype Borrow = Borrow(team: TeamId, amount: real, sellAmount: real)

  datatype OrderPayload = OrderPayload(orderId: nat, shop: nat, tags: seq<string>, team: TeamId, warehouse: TeamId,
                                       warehouseFee: real, ownStock: real,
                                       borrows: seq<Borrow>, isCustom: bool, parentOrder: nat, orderAmount: real,
                                       additional: Additional)

  function WarehouseFeeBooks(chart: Chart, pay: OrderPayload): seq<Book> {
    if pay.warehouseFee == 0.0 then []
    else
      [PostBook(chart, pay.warehouse, [Post(AccountRef(ServiceRevenue, pay.team), pay.warehouseFee),
                                       Post(AccountRef(Receivable, pay.team), pay.warehouseFee)]),
       PostBook(chart, pay.team, [Post(AccountRef(WarehouseCost, pay.warehouse), pay.warehouseFee),
                                  Post(AccountRef(Payable, pay.warehouse), pay.warehouseFee)])]
  }

  /** The warehouse side is drafted and checked but never committed. */
  function OwnStockBooks(chart: Chart, pay: OrderPayload): seq<Book> {
    if pay.ownStock == 0.0 then []
    else
      [PostBook(chart, pay.team, [Post(AccountRef(StockReady, pay.warehouse), -pay.ownStock),
                                  Post(AccountRef(StockCost, pay.warehouse), pay.ownStock)]),
       PostBook(chart, pay.warehouse, [Post(AccountRef(StockReady, pay.team), -pay.ownStock),
                                       Post(AccountRef(StockCost, pay.team), pay.ownStock)]).(saves := false)]
  }

  function BorrowBooks(chart: Chart, pay: OrderPayload, bor: Borrow): seq<Book> {
    [PostBook(chart, pay.warehouse, [Post(AccountRef(StockReady, bor.team), -bor.amount),
                                     Post(AccountRef(StockToBorrowCost, bor.team), bor.amount)]),
     PostBook(chart, bor.team, LenderPosts(pay, bor)),
     PostBook(chart, pay.team, [Post(AccountRef(StockBorrowCost, bor.team), bor.sellAmount),
                                Post(AccountRef(Payable, bor.team), bor.sellAmount)])]
  }

  function CrossBooks(chart: Chart, pay: OrderPayload, borrows: seq<Borrow>): seq<Book> {
    if borrows == [] then []
    else CrossBooks(chart, pay, borrows[..|borrows| - 1]) + BorrowBooks(chart, pay, borrows[|borrows| - 1])
  }

  /** What the order adds to the selling receivable; None when it books no revenue. */
  function RevenueAmount(pay: OrderPayload): Option<real> {
    if !pay.isCustom then Some(pay.orderAmount)
    else if pay.parentOrder != 0 && pay.additional.FakeOrder? then Some(pay.additional.amount)
    else None
  }

  function RevenueBooks(chart: Chart, pay: OrderPayload): seq<Book> {
    match RevenueAmount(pay)
    case None => []
    case Some(x) => [PostBook(chart, pay.team, [Post(AccountRef(SalesRevenue, pay.team), x),
                                                Post(AccountRef(SellingReceivable, pay.team), x)])]
  }

  function PaidFrom(payWith: PaymentMethod): Option<AccountKey> {
    match payWith
    case PayCash => Some(Cash)
    case PayShopeepay => Some(Shopeepay)
    case PayOther => None
  }

  function AdditionalBooks(chart: Chart, pay: OrderPayload): seq<Book> {
    match pay.additional
    case NoAdditional => []
    case FakeOrder(payWith, amount) => PaidBook(chart, pay.team, payWith, FakeOrderExpense, amount)
    case Supplier(payWith, amount) => PaidBook(chart, pay.team, payWith, StockCost, amount)
  }

  function PaidBook(chart: Chart, team: TeamId, payWith: PaymentMethod, cost: AccountKey, amount: real): seq<Book> {
    match PaidFrom(payWith)
    case None => []
    case Some(key) => [PostBook(chart, team, [Post(AccountRef(key, team), -amount),
                                              Post(AccountRef(cost, team), amount)])]
  }

  function AdditionalError(pay: OrderPayload): Option<Error> {
    if !pay.additional.NoAdditional? && PaidFrom(pay.additional.payWith).None? then Some(NotSupported) else None
  }

  function OrderBooks(chart: Chart, pay: OrderPayload): seq<Book> {
    WarehouseFeeBooks(chart, pay) + (OwnStockBooks(chart, pay) + (CrossBooks(chart, pay, pay.borrows)
      + (RevenueBooks(chart, pay) + AdditionalBooks(chart, pay))))
  }

  function OrderRef(orderId: nat): RefId { NewRefID(Order, orderId) }

  /** An order is labelled with its shop and its tags. */
  function OrderCreation(pay: OrderPayload): Creation { Creation(OrderRef(pay.orderId), Some(pay.shop), pay.tags) }

  /** A created order: all its books in one transaction; an order already booked is skipped. */
  ghost function OnOrderSpec(l: Ledger, pay: OrderPayload, day: Day): (Ledger, Option<Error>) {
    if OrderRef(pay.orderId) in l.txs then (l, None)
    else PostSpec(l, OrderCreation(pay), OrderBooks(l.chart, pay), AdditionalError(pay), day)
  }

  method CreateWarehouseFee(books: BookManager, pay: OrderPayload, tx: TxId, day: Day) returns (err: Option<Error>)
    modifies books, books.db
    ensures (books.State(), err) ==
      RunBooks(old(books.State()), WarehouseFeeBooks(old(books.db.ledger.chart), pay), tx, day)
    ensures books.db.ledger.chart == old(books.db.ledger.chart)
  {
    hide RunBooks, RunBook;
    RunNoBooks(books.State(), tx, day);
    if pay.warehouseFee == 0.0 {
      return None;
    }
    ghost var bs := WarehouseFeeBooks(books.db.ledger.chart, pay);
    assert bs == [bs[0]] + [bs[1]];
    RunBooksAppend(books.State(), [bs[0]], [bs[1]], tx, day);
    err := BookPair(books, pay.warehouse, Post(AccountRef(ServiceRevenue, pay.team), pay.warehouseFee),
                    Post(AccountRef(Receivable, pay.team), pay.warehouseFee), tx, day);
    if err.Some? {
      return;
    }
    err := BookPair(books, pay.team, Post(AccountRef(WarehouseCost, pay.warehouse), pay.warehouseFee),
                    Post(AccountRef(Payable, pay.warehouse), pay.warehouseFee), tx, day);
  }

  method OwnProductStock(books: BookManager, pay: OrderPayload, tx: TxId, day: Day) returns (err: Option<Error>)
    modifies books, books.db
    ensures (books.State(), err) ==
      RunBooks(old(books.State()), OwnStockBooks(old(books.db.ledger.chart), pay), tx, day)
    ensures books.db.ledger.chart == old(books.db.ledger.chart)
  {
    hide RunBooks, RunBook;
    RunNoBooks(books.State(), tx, day);
    if pay.ownStock == 0.0 {
      return None;
    }
    ghost var bs := OwnStockBooks(books.db.ledger.chart, pay);
    assert bs == [bs[0]] + [bs[1]];
    RunBooksAppend(books.State(), [bs[0]], [bs[1]], tx, day);
    err := BookPair(books, pay.team, Post(AccountRef(StockReady, pay.warehouse), -pay.ownStock),
                    Post(AccountRef(StockCost, pay.warehouse), pay.ownStock), tx, day);
    if err.Some? {
      return;
    }
    RunUnsavedBook(books.State(), bs[1], tx, day);
    err := DraftWarehouseSide(books, pay, tx);
  }

  /** The warehouse side of own stock: its calls can fail, but nothing commits it. */
  method DraftWarehouseSide(books: BookManager, pay: OrderPayload, tx: TxId) returns (err: Option<Error>)
    ensures var ps := [Post(AccountRef(StockReady, pay.team), -pay.ownStock),
                       Post(AccountRef(StockCost, pay.team), pay.ownStock)];
            err == TransactionSpec(PostAll(books.db.ledger.chart, ps), tx).err
  {
    var entry := books.NewCreateEntry(pay.warehouse);
    entry.From(AccountRef(StockReady, pay.team), pay.ownStock);
    entry.To(AccountRef(StockCost, pay.team), pay.ownStock);
    assert entry.posted ==
      [Post(AccountRef(StockReady, pay.team), -pay.ownStock), Post(AccountRef(StockCost, pay.team), pay.ownStock)];
    entry.Transaction(tx);
    err := entry.err;
  }

  function LenderPosts(pay: OrderPayload, bor: Borrow): seq<Post> {
    [Post(AccountRef(StockReady, pay.warehouse), -bor.amount),
     Post(AccountRef(StockToBorrowCost, pay.warehouse), bor.amount),
     Post(AccountRef(BorrowStockRevenue, pay.team), bor.sellAmount),
     Post(AccountRef(Receivable, pay.team), bor.sellAmount)]
  }

  /** The lender's side: stock out at cost, revenue and a receivable at the agreed price. */
  method DraftLender(entry: EntryBuilder, pay: OrderPayload, bor: Borrow)
    requires entry.posted == [] && entry.Posting(entry.books.db.ledger.chart)
    modifies entry
    ensures entry.posted == LenderPosts(pay, bor) && entry.Posting(entry.books.db.ledger.chart)
  {
    entry.From(AccountRef(StockReady, pay.warehouse), bor.amount);
    entry.To(AccountRef(StockToBorrowCost, pay.warehouse), bor.amount);
    entry.To(AccountRef(BorrowStockRevenue, pay.team), bor.sellAmount);
    entry.To(AccountRef(Receivable, pay.team), bor.sellAmount);
  }

  method BookLender(books: BookManager, pay: OrderPayload, bor: Borrow, tx: TxId, day: Day) returns (err: Option<Error>)
    modifies books, books.db
    ensures (books.State(), err) ==
      RunBooks(old(books.State()), [PostBook(old(books.db.ledger.chart), bor.team, LenderPosts(pay, bor))], tx, day)
    ensures books.db.ledger.chart == old(books.db.ledger.chart)
  {
    var entry := books.NewCreateEntry(bor.team);
    DraftLender(entry, pay, bor);
    err := CommitBook(entry, tx, day);
  }

  /** The three books of one borrowing: warehouse, lender, borrower. */
  method BookBorrow(books: BookManager, pay: OrderPayload, bor: Borrow, tx: TxId, day: Day) returns (err: Option<Error>)
    modifies books, books.db
    ensures (books.State(), err) ==
      RunBooks(old(books.State()), BorrowBooks(old(books.db.ledger.chart), pay, bor), tx, day)
    ensures books.db.ledger.chart == old(books.db.ledger.chart)
  {
    hide RunBooks, RunBook;
    ghost var bs := BorrowBooks(books.db.ledger.chart, pay, bor);
    assert bs == [bs[0]] + ([bs[1]] + [bs[2]]);
    RunBooksAppend(books.State(), [bs[0]], [bs[1]] + [bs[2]], tx, day);
    err := BookPair(books, pay.warehouse, Post(AccountRef(StockReady, bor.team), -bor.amount),
                    Post(AccountRef(StockToBorrowCost, bor.team), bor.amount), tx, day);
    if err.Some? {
      return;
    }
    RunBooksAppend(books.State(), [bs[1]], [bs[2]], tx, day);
    err := BookLender(books, pay, bor, tx, day);
    if err.Some? {
      return;
    }
    err := BookPair(books, pay.team, Post(AccountRef(StockBorrowCost, bor.team), bor.sellAmount),
                    Post(AccountRef(Payable, bor.team), bor.sellAmount), tx, day);
  }

  method CrossProductStock(books: BookManager, pay: OrderPayload, tx: TxId, day: Day) returns (err: Option<Error>)
    modifies books, books.db
    ensures (books.State(), err) ==
      RunBooks(old(books.State()), CrossBooks(old(books.db.ledger.chart), pay, pay.borrows), tx, day)
    ensures books.db.ledger.chart == old(books.db.ledger.chart)
  {
    hide RunBooks, RunBook;
    RunNoBooks(books.State(), tx, day);
    ghost var chart, s0 := books.db.ledger.chart, books.State();
    err := None;
    var i := 0;
    while i < |pay.borrows|
      invariant i <= |pay.borrows| && err.None? && books.db.ledger.chart == chart
      invariant (books.State(), err) == RunBooks(s0, CrossBooks(chart, pay, pay.borrows[..i]), tx, day)
    {
      CrossStep(chart, pay, s0, books.State(), i, tx, day);
      err := BookBorrow(books, pay, pay.borrows[i], tx, day);
      if err.Some? {
        CrossRest(chart, pay, s0, i, tx, day);
        return;
      }
      i := i + 1;
    }
    assert pay.borrows[..i] == pay.borrows;
  }

  lemma CrossStep(chart: Chart, pay: OrderPayload, s0: Session, s: Session, i: nat, tx: TxId, day: Day)
    requires i < |pay.borrows| && RunBooks(s0, CrossBooks(chart, pay, pay.borrows[..i]), tx, day) == (s, None)
    ensures RunBooks(s0, CrossBooks(chart, pay, pay.borrows[..i + 1]), tx, day) ==
      RunBooks(s, BorrowBooks(chart, pay, pay.borrows[i]), tx, day)
  {
    assert pay.borrows[..i + 1][..i] == pay.borrows[..i];
    RunBooksAppend(s0, CrossBooks(chart, pay, pay.borrows[..i]), BorrowBooks(chart, pay, pay.borrows[i]), tx, day);
  }

  /** The borrowings after one that failed are never booked. */
  lemma {:induction false} CrossRest(chart: Chart, pay: OrderPayload, s0: Session, i: nat, tx: TxId, day: Day)
    requires i < |pay.borrows| && RunBooks(s0, CrossBooks(chart, pay, pay.borrows[..i + 1]), tx, day).1.Some?
    ensures RunBooks(s0, CrossBooks(chart, pay, pay.borrows), tx, day) ==
      RunBooks(s0, CrossBooks(chart, pay, pay.borrows[..i + 1]), tx, day)
    decreases |pay.borrows| - i
  {
    hide RunBooks, BorrowBooks;
    if i + 1 == |pay.borrows| {
      assert pay.borrows[..i + 1] == pay.borrows;
    } else {
      assert pay.borrows[..i + 2][..i + 1] == pay.borrows[..i + 1];
      RunBooksAppend(s0, CrossBooks(chart, pay, pay.borrows[..i + 1]), BorrowBooks(chart, pay, pay.borrows[i + 1]), tx,
                     day);
      CrossRest(chart, pay, s0, i + 1, tx, day);
    }
  }

  method RevenueOrder(books: BookManager, pay: OrderPayload, tx: TxId, day: Day) returns (err: Option<Error>)
    modifies books, books.db
    ensures (books.State(), err) == RunBooks(old(books.State()), RevenueBooks(old(books.db.ledger.chart), pay), tx, day)
    ensures books.db.ledger.chart == old(books.db.ledger.chart)
  {
    hide RunBooks, RunBook;
    RunNoBooks(books.State(), tx, day);
    var amount := pay.orderAmount;
    if pay.isCustom {
      if pay.parentOrder == 0 || !pay.additional.FakeOrder? {
        return None;
      }
      amount := pay.additional.amount;
    }
    err := BookPair(books, pay.team, Post(AccountRef(SalesRevenue, pay.team), amount),
                    Post(AccountRef(SellingReceivable, pay.team), amount), tx, day);
  }

  method AdditionalAmount(books: BookManager, pay: OrderPayload, tx: TxId, day: Day) returns (err: Option<Error>)
    modifies books, books.db
    ensures AdditionalError(pay).None? ==>
      (books.State(), err) == RunBooks(old(books.State()), AdditionalBooks(old(books.db.ledger.chart), pay), tx, day)
    ensures AdditionalError(pay).Some? ==>
      err == AdditionalError(pay) && books.State() == old(books.State())
      && AdditionalBooks(old(books.db.ledger.chart), pay) == []
    ensures books.db.ledger.chart == old(books.db.ledger.chart)
  {
    hide RunBooks, RunBook;
    RunNoBooks(books.State(), tx, day);
    if pay.additional.NoAdditional? {
      return None;
    }
    var key := PaidFrom(pay.additional.payWith);
    if key.None? {
      return Some(NotSupported);
    }
    var cost := if pay.additional.FakeOrder? then FakeOrderExpense else StockCost;
    err := BookPair(books, pay.team, Post(AccountRef(key.value, pay.team), -pay.additional.amount),
                    Post(AccountRef(cost, pay.team), pay.additional.amount), tx, day);
  }

  /** The parts of an order in turn, up to the first that fails. */
  method BookOrder(books: BookManager, pay: OrderPayload, tx: TxId, day: Day) returns (err: Option<Error>)
    modifies books, books.db
    ensures var (s, e) := RunBooks(old(books.State()), OrderBooks(old(books.db.ledger.chart), pay), tx, day);
            books.State() == s && err == if e.Some? then e else AdditionalError(pay)
  {
    hide RunBooks, RunBook;
    ghost var chart := books.db.ledger.chart;
    ghost var fee, own, cross, rev, add := WarehouseFeeBooks(chart, pay), OwnStockBooks(chart, pay),
      CrossBooks(chart, pay, pay.borrows), RevenueBooks(chart, pay), AdditionalBooks(chart, pay);
    RunBooksAppend(books.State(), fee, own + (cross + (rev + add)), tx, day);
    err := CreateWarehouseFee(books, pay, tx, day);
    if err.Some? { return; }
    RunBooksAppend(books.State(), own, cross + (rev + add), tx, day);
    err := OwnProductStock(books, pay, tx, day);
    if err.Some? { return; }
    RunBooksAppend(books.State(), cross, rev + add, tx, day);
    err := CrossProductStock(books, pay, tx, day);
    if err.Some? { return; }
    RunBooksAppend(books.State(), rev, add, tx, day);
    err := RevenueOrder(books, pay, tx, day);
    if err.Some? { return; }
    RunNoBooks(books.State(), tx, day);
    err := AdditionalAmount(books, pay, tx, day);
  }

  method OnOrder(db: Database, pay: OrderPayload, day: Day) returns (err: Option<Error>)
    modifies db
    ensures (db.ledger, err) == OnOrderSpec(old(db.ledger), pay, day)
  {
    var books := new BookManager.Begin(db);
    var failure, tx := books.CreateTransaction(OrderCreation(pay));
    if failure == Some(TransactionAlreadyExist) {
      err := books.End(Some(SkipTransaction));
      return;
    }
    if failure.Some? {
      err := books.End(failure);
      return;
    }
    OrderNeverSkips(books.State(), pay, tx, day);
    failure := BookOrder(books, pay, tx, day);
    err := books.End(failure);
  }

  lemma FeeBooksPosted(chart: Chart, pay: OrderPayload)
    ensures PostedBooks(chart, WarehouseFeeBooks(chart, pay))
  {
    hide PostAll;
  }

  lemma OwnBooksPosted(chart: Chart, pay: OrderPayload)
    ensures PostedBooks(chart, OwnStockBooks(chart, pay))
  {
    hide PostAll;
  }

  lemma RevenueBooksPosted(chart: Chart, pay: OrderPayload)
    ensures PostedBooks(chart, RevenueBooks(chart, pay))
  {
    hide PostAll;
  }

  lemma AdditionalBooksPosted(chart: Chart, pay: OrderPayload)
    ensures PostedBooks(chart, AdditionalBooks(chart, pay))
  {
    hide PostAll;
  }

  lemma OrderBooksPosted(chart: Chart, pay: OrderPayload)
    ensures PostedBooks(chart, OrderBooks(chart, pay))
  {
    hide PostedBooks, WarehouseFeeBooks, OwnStockBooks, CrossBooks, RevenueBooks, AdditionalBooks;
    var fee, own, cross, rev, add := WarehouseFeeBooks(chart, pay), OwnStockBooks(chart, pay),
      CrossBooks(chart, pay, pay.borrows), RevenueBooks(chart, pay), AdditionalBooks(chart, pay);
    FeeBooksPosted(chart, pay);
    OwnBooksPosted(chart, pay);
    CrossBooksPosted(chart, pay, pay.borrows);
    RevenueBooksPosted(chart, pay);
    AdditionalBooksPosted(chart, pay);
    PostedAppend(chart, rev, add);
    PostedAppend(chart, cross, rev + add);
    PostedAppend(chart, own, cross + (rev + add));
    PostedAppend(chart, fee, own + (cross + (rev + add)));
  }

  lemma BorrowBooksPosted(chart: Chart, pay: OrderPayload, bor: Borrow)
    ensures PostedBooks(chart, BorrowBooks(chart, pay, bor))
  {
    hide PostAll;
  }

  lemma {:induction false} CrossBooksPosted(chart: Chart, pay: OrderPayload, borrows: seq<Borrow>)
    ensures PostedBooks(chart, CrossBooks(chart, pay, borrows))
    decreases |borrows|
  {
    hide PostedBooks, BorrowBooks;
    if borrows == [] {
      NoBooksPosted(chart);
    } else {
      CrossBooksPosted(chart, pay, borrows[..|borrows| - 1]);
      BorrowBooksPosted(chart, pay, borrows[|borrows| - 1]);
      PostedAppend(chart, CrossBooks(chart, pay, borrows[..|borrows| - 1]),
                   BorrowBooks(chart, pay, borrows[|borrows| - 1]));
    }
  }

  lemma NoBooksPosted(chart: Chart)
    ensures PostedBooks(chart, [])
  {
  }

  lemma OrderNeverSkips(s: Session, pay: OrderPayload, tx: TxId, day: Day)
    ensures RunBooks(s, OrderBooks(s.ledger.chart, pay), tx, day).1 != Some(SkipTransaction)
  {
    OrderBooksPosted(s.ledger.chart, pay);
    PostedNeverSkips(s, OrderBooks(s.ledger.chart, pay), tx, day);
  }

  /** Cancelling an order reverses its transaction; the teams are visited in some order. */
  ghost function CancelSpec(l: Ledger, orderId: nat, order: seq<TeamId>, day: Day): (Ledger, Option<Error>) {
    if OrderRef(orderId) !in l.txs then (l, Some(TransactionNotFound))
    else RollbackSpec(l, l.txs[OrderRef(orderId)], order, day)
  }

  /** An unknown order is looked up as transaction 0, which has no entries. */
  method OrderCancel(db: Database, orderId: nat, day: Day) returns (err: Option<Error>, ghost order: seq<TeamId>)
    requires ValidLedger(db.ledger)
    modifies db
    ensures var ref := OrderRef(orderId);
            ref in old(db.ledger).txs ==> Enumerates(order, TeamsOf(old(db.ledger).journal, old(db.ledger).txs[ref]))
    ensures (db.ledger, err) == CancelSpec(old(db.ledger), orderId, order, day)
  {
    hide RunBooks, OpenSpec;
    var mutation := new TransactionMutation(db);
    mutation.ByRefID(OrderRef(orderId));
    if mutation.err.Some? {
      NoTransactionZero(db.ledger);
    }
    order := mutation.RollbackEntry(day);
    err := mutation.err;
  }

  lemma NoTransactionZero(l: Ledger)
    requires ValidLedger(l)
    ensures TeamsOf(l.journal, 0) == {}
  {
  }
}

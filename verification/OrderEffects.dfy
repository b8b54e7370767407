/** What an accepted order moves, part by part, in every book. */
module OrderEffects {
  import opened Accounts
  import opened Journal
  import opened Books
  import opened Nets
  import opened Rollback
  import opened Moves
  import opened Orders
  import opened Effects

  /** The warehouse earns its fee and claims it; the selling team owes it. */
  function ByFee(pay: OrderPayload, c: Cell): real {
    var (team, ware, fee) := (pay.team, pay.warehouse, pay.warehouseFee);
    On(c, Cell(ware, ServiceRevenue, team), fee) + On(c, Cell(ware, Receivable, team), fee)
    + On(c, Cell(team, WarehouseCost, ware), fee) + On(c, Cell(team, Payable, ware), fee)
  }

  /** The selling team's own goods leave its stock at the warehouse; the warehouse's book stays. */
  function ByOwnStock(pay: OrderPayload, c: Cell): real {
    On(c, Cell(pay.team, StockReady, pay.warehouse), -pay.ownStock)
    + On(c, Cell(pay.team, StockCost, pay.warehouse), pay.ownStock)
  }

  /** Borrowed goods leave the lender's stock at cost, in its book and in the warehouse's; the lender earns and claims
      the agreed price, and the selling team owes it. */
  function ByBorrow(pay: OrderPayload, bor: Borrow, c: Cell): real {
    var (team, ware, lender) := (pay.team, pay.warehouse, bor.team);
    On(c, Cell(ware, StockReady, lender), -bor.amount) + On(c, Cell(ware, StockToBorrowCost, lender), bor.amount)
    + (On(c, Cell(lender, StockReady, ware), -bor.amount) + On(c, Cell(lender, StockToBorrowCost, ware), bor.amount)
       + On(c, Cell(lender, BorrowStockRevenue, team), bor.sellAmount)
       + On(c, Cell(lender, Receivable, team), bor.sellAmount))
    + (On(c, Cell(team, StockBorrowCost, lender), bor.sellAmount)
       + On(c, Cell(team, Payable, lender), bor.sellAmount))
  }

  function ByBorrows(pay: OrderPayload, borrows: seq<Borrow>, c: Cell): real {
    if borrows == [] then 0.0
    else ByBorrows(pay, borrows[..|borrows| - 1], c) + ByBorrow(pay, borrows[|borrows| - 1], c)
  }

  /** What an order sells for: its amount, or the fake-order payment of a custom order that has a parent. */
  function OrderAmount(pay: OrderPayload): real {
    if !pay.isCustom then pay.orderAmount
    else if pay.parentOrder != 0 && pay.additional.FakeOrder? then pay.additional.amount
    else 0.0
  }

  /** The sale is earned, and to be received from the shop. */
  function BySale(pay: OrderPayload, c: Cell): real {
    On(c, Cell(pay.team, SalesRevenue, pay.team), OrderAmount(pay))
    + On(c, Cell(pay.team, SellingReceivable, pay.team), OrderAmount(pay))
  }

  /** An additional cost is paid from cash or ShopeePay, as a fake-order expense or as a cost of stock. */
  function ByAdditional(pay: OrderPayload, c: Cell): real {
    var team := pay.team;
    match pay.additional
    case FakeOrder(PayCash, x) => On(c, Cell(team, Cash, team), -x) + On(c, Cell(team, FakeOrderExpense, team), x)
    case FakeOrder(PayShopeepay, x) =>
      On(c, Cell(team, Shopeepay, team), -x) + On(c, Cell(team, FakeOrderExpense, team), x)
    case Supplier(PayCash, x) => On(c, Cell(team, Cash, team), -x) + On(c, Cell(team, StockCost, team), x)
    case Supplier(PayShopeepay, x) => On(c, Cell(team, Shopeepay, team), -x) + On(c, Cell(team, StockCost, team), x)
    case _ => 0.0
  }

  /** All parts of an order. */
  function ByOrder(pay: OrderPayload, c: Cell): real {
    ByFee(pay, c) + (ByOwnStock(pay, c) + (ByBorrows(pay, pay.borrows, c) + (BySale(pay, c) + ByAdditional(pay, c))))
  }

  lemma FeeMoves(chart: Chart, pay: OrderPayload, tx: TxId, day: Day, c: Cell)
    requires Seeded(chart) && AllPass(WarehouseFeeBooks(chart, pay), tx, day)
    ensures BooksMove(WarehouseFeeBooks(chart, pay), c, ByFee(pay, c))
  {
    hide PostBook, AllPass, Seeded, BooksMove;
    NoBooksMove(c);
    if pay.warehouseFee != 0.0 {
      var p, q := Post(AccountRef(ServiceRevenue, pay.team), pay.warehouseFee),
        Post(AccountRef(Receivable, pay.team), pay.warehouseFee);
      var r, s := Post(AccountRef(WarehouseCost, pay.warehouse), pay.warehouseFee),
        Post(AccountRef(Payable, pay.warehouse), pay.warehouseFee);
      TwoMove(chart, pay.warehouse, [p, q], pay.team, [r, s], tx, day, c);
      MovedTwo(p, q, Account(c));
      MovedTwo(r, s, Account(c));
    }
  }

  /** A book that is not saved moves nothing. */
  lemma UnsavedMoves(b: Book, c: Cell)
    requires !b.saves
    ensures BooksMove([b], c, 0.0)
  {
    OneBookNet(b, c.book, Account(c));
  }

  lemma OwnMoves(chart: Chart, pay: OrderPayload, tx: TxId, day: Day, c: Cell)
    requires Seeded(chart) && AllPass(OwnStockBooks(chart, pay), tx, day)
    ensures BooksMove(OwnStockBooks(chart, pay), c, ByOwnStock(pay, c))
  {
    hide PostAll, AllPass, Seeded, BooksMove;
    NoBooksMove(c);
    if pay.ownStock != 0.0 {
      var p, q := Post(AccountRef(StockReady, pay.warehouse), -pay.ownStock),
        Post(AccountRef(StockCost, pay.warehouse), pay.ownStock);
      var bs := OwnStockBooks(chart, pay);
      assert bs == [bs[0]] + [bs[1]];
      PassParts([bs[0]], [bs[1]], tx, day);
      PairMoved(chart, pay.team, p, q, tx, day, c);
      UnsavedMoves(bs[1], c);
      BooksMoveAppend([bs[0]], [bs[1]], c, ByOwnStock(pay, c), 0.0);
    }
  }

  lemma LenderMoves(chart: Chart, pay: OrderPayload, bor: Borrow, tx: TxId, day: Day, c: Cell)
    requires Seeded(chart) && AllPass([PostBook(chart, bor.team, LenderPosts(pay, bor))], tx, day)
    ensures BooksMove([PostBook(chart, bor.team, LenderPosts(pay, bor))], c,
                      On(c, Cell(bor.team, StockReady, pay.warehouse), -bor.amount)
                      + On(c, Cell(bor.team, StockToBorrowCost, pay.warehouse), bor.amount)
                      + On(c, Cell(bor.team, BorrowStockRevenue, pay.team), bor.sellAmount)
                      + On(c, Cell(bor.team, Receivable, pay.team), bor.sellAmount))
  {
    hide PostBook, AllPass, Seeded, BooksMove;
    var ps := LenderPosts(pay, bor);
    OneMoves(chart, bor.team, ps, tx, day, c);
    assert ps == [ps[0], ps[1]] + [ps[2], ps[3]];
    MovedConcat([ps[0], ps[1]], [ps[2], ps[3]], Account(c));
    MovedTwo(ps[0], ps[1], Account(c));
    MovedTwo(ps[2], ps[3], Account(c));
  }

  lemma BorrowMoves(chart: Chart, pay: OrderPayload, bor: Borrow, tx: TxId, day: Day, c: Cell)
    requires Seeded(chart) && AllPass(BorrowBooks(chart, pay, bor), tx, day)
    ensures BooksMove(BorrowBooks(chart, pay, bor), c, ByBorrow(pay, bor, c))
  {
    hide PostBook, AllPass, Seeded, BooksMove, LenderPosts;
    var bs, ware, lender, team := BorrowBooks(chart, pay, bor), pay.warehouse, bor.team, pay.team;
    assert bs == [bs[0]] + [bs[1]] + [bs[2]];
    PassParts([bs[0]] + [bs[1]], [bs[2]], tx, day);
    PassParts([bs[0]], [bs[1]], tx, day);
    PairMoved(chart, ware, Post(AccountRef(StockReady, lender), -bor.amount),
              Post(AccountRef(StockToBorrowCost, lender), bor.amount), tx, day, c);
    LenderMoves(chart, pay, bor, tx, day, c);
    PairMoved(chart, team, Post(AccountRef(StockBorrowCost, lender), bor.sellAmount),
              Post(AccountRef(Payable, lender), bor.sellAmount), tx, day, c);
    var x := On(c, Cell(ware, StockReady, lender), -bor.amount)
      + On(c, Cell(ware, StockToBorrowCost, lender), bor.amount);
    var y := On(c, Cell(lender, StockReady, ware), -bor.amount)
      + On(c, Cell(lender, StockToBorrowCost, ware), bor.amount)
      + On(c, Cell(lender, BorrowStockRevenue, team), bor.sellAmount)
      + On(c, Cell(lender, Receivable, team), bor.sellAmount);
    var z := On(c, Cell(team, StockBorrowCost, lender), bor.sellAmount)
      + On(c, Cell(team, Payable, lender), bor.sellAmount);
    BooksMoveAppend([bs[0]], [bs[1]], c, x, y);
    BooksMoveAppend([bs[0]] + [bs[1]], [bs[2]], c, x + y, z);
  }

  lemma {:induction false} CrossMoves(chart: Chart, pay: OrderPayload, borrows: seq<Borrow>, tx: TxId, day: Day,
                                      c: Cell)
    requires Seeded(chart) && AllPass(CrossBooks(chart, pay, borrows), tx, day)
    ensures BooksMove(CrossBooks(chart, pay, borrows), c, ByBorrows(pay, borrows, c))
    decreases |borrows|
  {
    hide AllPass, Seeded, BooksMove, BorrowBooks, ByBorrow;
    NoBooksMove(c);
    if borrows != [] {
      var init, last := borrows[..|borrows| - 1], borrows[|borrows| - 1];
      PassParts(CrossBooks(chart, pay, init), BorrowBooks(chart, pay, last), tx, day);
      CrossMoves(chart, pay, init, tx, day, c);
      BorrowMoves(chart, pay, last, tx, day, c);
      BooksMoveAppend(CrossBooks(chart, pay, init), BorrowBooks(chart, pay, last), c, ByBorrows(pay, init, c),
                      ByBorrow(pay, last, c));
    }
  }

  lemma SaleMoves(chart: Chart, pay: OrderPayload, tx: TxId, day: Day, c: Cell)
    requires Seeded(chart) && AllPass(RevenueBooks(chart, pay), tx, day)
    ensures BooksMove(RevenueBooks(chart, pay), c, BySale(pay, c))
  {
    hide PostBook, AllPass, Seeded, BooksMove;
    NoBooksMove(c);
    if RevenueAmount(pay).Some? {
      PairMoved(chart, pay.team, Post(AccountRef(SalesRevenue, pay.team), OrderAmount(pay)),
                Post(AccountRef(SellingReceivable, pay.team), OrderAmount(pay)), tx, day, c);
    }
  }

  lemma AdditionalMoves(chart: Chart, pay: OrderPayload, tx: TxId, day: Day, c: Cell)
    requires Seeded(chart) && AllPass(AdditionalBooks(chart, pay), tx, day)
    ensures BooksMove(AdditionalBooks(chart, pay), c, ByAdditional(pay, c))
  {
    hide PostBook, AllPass, Seeded, BooksMove;
    NoBooksMove(c);
    if !pay.additional.NoAdditional? && !pay.additional.payWith.PayOther? {
      var key := if pay.additional.payWith.PayCash? then Cash else Shopeepay;
      var cost := if pay.additional.FakeOrder? then FakeOrderExpense else StockCost;
      PairMoved(chart, pay.team, Post(AccountRef(key, pay.team), -pay.additional.amount),
                Post(AccountRef(cost, pay.team), pay.additional.amount), tx, day, c);
    }
  }

  lemma OrderBooksMove(chart: Chart, pay: OrderPayload, tx: TxId, day: Day, c: Cell)
    requires Seeded(chart) && AllPass(OrderBooks(chart, pay), tx, day)
    ensures BooksMove(OrderBooks(chart, pay), c, ByOrder(pay, c))
  {
    hide AllPass, Seeded, BooksMove, WarehouseFeeBooks, OwnStockBooks, CrossBooks, RevenueBooks, AdditionalBooks;
    hide ByFee, ByOwnStock, ByBorrows, BySale, ByAdditional;
    var fee, own, cross, rev, add := WarehouseFeeBooks(chart, pay), OwnStockBooks(chart, pay),
      CrossBooks(chart, pay, pay.borrows), RevenueBooks(chart, pay), AdditionalBooks(chart, pay);
    PassParts(fee, own + (cross + (rev + add)), tx, day);
    PassParts(own, cross + (rev + add), tx, day);
    PassParts(cross, rev + add, tx, day);
    PassParts(rev, add, tx, day);
    FeeMoves(chart, pay, tx, day, c);
    OwnMoves(chart, pay, tx, day, c);
    CrossMoves(chart, pay, pay.borrows, tx, day, c);
    SaleMoves(chart, pay, tx, day, c);
    AdditionalMoves(chart, pay, tx, day, c);
    var x, y := BySale(pay, c), ByAdditional(pay, c);
    var z := ByBorrows(pay, pay.borrows, c) + (x + y);
    BooksMoveAppend(rev, add, c, x, y);
    BooksMoveAppend(cross, rev + add, c, ByBorrows(pay, pay.borrows, c), x + y);
    BooksMoveAppend(own, cross + (rev + add), c, ByOwnStock(pay, c), z);
    BooksMoveAppend(fee, own + (cross + (rev + add)), c, ByFee(pay, c), ByOwnStock(pay, c) + z);
  }

  /** A newly booked order moves every account of every book by what its fee, its own stock, its borrowings, its sale
      and its additional cost come to, and nothing else. */
  lemma OrderGains(l: Ledger, pay: OrderPayload, day: Day, c: Cell)
    requires ValidLedger(l) && Seeded(l.chart) && OrderRef(pay.orderId) !in l.txs
    ensures var (l', e) := OnOrderSpec(l, pay, day);
            e.None? ==> Gains(l, l', l.nextTx, c, ByOrder(pay, c))
  {
    hide PostSpec, OrderRef, OrderBooks, BooksMove, AllPass, Seeded, ValidLedger, Gains;
    hide ByOrder;
    var bs := OrderBooks(l.chart, pay);
    if AllPass(bs, l.nextTx, day) { OrderBooksMove(l.chart, pay, l.nextTx, day, c); }
    PostGains(l, OrderCreation(pay), bs, AdditionalError(pay), day, c, ByOrder(pay, c));
  }

  /** Borrowings move stock, its costs and the debts for it only. */
  lemma {:induction false} BorrowsElsewhere(pay: OrderPayload, borrows: seq<Borrow>, c: Cell)
    requires c.key !in {StockReady, StockToBorrowCost, BorrowStockRevenue, Receivable, StockBorrowCost, Payable}
    ensures ByBorrows(pay, borrows, c) == 0.0
    decreases |borrows|
  {
    if borrows != [] { BorrowsElsewhere(pay, borrows[..|borrows| - 1], c); }
  }

  /** The sale of a newly booked order, in its team's own book and nowhere else: the order's amount when it is not
      custom, the amount of the fake-order payment when it is custom with a parent and such a payment, and nothing
      otherwise, both earned and to be received from the shop. */
  lemma OrderSale(l: Ledger, pay: OrderPayload, day: Day, book: TeamId, team: TeamId)
    requires ValidLedger(l) && Seeded(l.chart) && OrderRef(pay.orderId) !in l.txs
    ensures var (l', e), own := OnOrderSpec(l, pay, day), book == pay.team && team == pay.team;
            var sale := if !own then 0.0
                        else if !pay.isCustom then pay.orderAmount
                        else if pay.parentOrder != 0 && pay.additional.FakeOrder? then pay.additional.amount
                        else 0.0;
            e.None? ==>
              && Gains(l, l', l.nextTx, Cell(book, SellingReceivable, team), sale)
              && Gains(l, l', l.nextTx, Cell(book, SalesRevenue, team), sale)
  {
    hide OnOrderSpec, ValidLedger, Seeded, Gains, OrderRef;
    var c, d := Cell(book, SellingReceivable, team), Cell(book, SalesRevenue, team);
    OrderGains(l, pay, day, c);
    OrderGains(l, pay, day, d);
    BorrowsElsewhere(pay, pay.borrows, c);
    BorrowsElsewhere(pay, pay.borrows, d);
  }

  /** What an order pays its additional cost from: cash when it is paid in cash, ShopeePay when it is paid so, and with
      any other method the order is refused. */
  lemma OrderPays(l: Ledger, pay: OrderPayload, day: Day, key: AccountKey)
    requires ValidLedger(l) && Seeded(l.chart) && OrderRef(pay.orderId) !in l.txs && key in {Cash, Shopeepay}
    ensures var (l', e), from := OnOrderSpec(l, pay, day), if key == Cash then PayCash else PayShopeepay;
            var paid := !pay.additional.NoAdditional? && pay.additional.payWith == from;
            e.None? ==>
              && (!pay.additional.NoAdditional? ==> pay.additional.payWith != PayOther)
              && Gains(l, l', l.nextTx, Cell(pay.team, key, pay.team), if paid then -pay.additional.amount else 0.0)
  {
    if !pay.additional.NoAdditional? && pay.additional.payWith == PayOther { PayableAdditional(l, pay, day); }
    hide OnOrderSpec, ValidLedger, Seeded, Gains, OrderRef, ByFee, ByOwnStock, BySale, ByAdditional, ByBorrows;
    OrderGains(l, pay, day, Cell(pay.team, key, pay.team));
    BorrowsElsewhere(pay, pay.borrows, Cell(pay.team, key, pay.team));
    PaidParts(pay, key);
  }

  lemma PaidParts(pay: OrderPayload, key: AccountKey)
    requires key in {Cash, Shopeepay}
    ensures var c, from := Cell(pay.team, key, pay.team), if key == Cash then PayCash else PayShopeepay;
            && ByFee(pay, c) == 0.0 && ByOwnStock(pay, c) == 0.0 && BySale(pay, c) == 0.0
            && ByAdditional(pay, c) ==
               if !pay.additional.NoAdditional? && pay.additional.payWith == from then -pay.additional.amount else 0.0
  {
  }

  lemma PayableAdditional(l: Ledger, pay: OrderPayload, day: Day)
    requires OrderRef(pay.orderId) !in l.txs && !pay.additional.NoAdditional? && pay.additional.payWith == PayOther
    ensures OnOrderSpec(l, pay, day).1.Some?
  {
    hide PostSpec, OrderBooks, OrderRef;
    PostAccepted(l, OrderCreation(pay), OrderBooks(l.chart, pay), AdditionalError(pay), day);
  }
}

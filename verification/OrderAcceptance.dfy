/** When an order, and when a restock, is accepted: conditions on the payload and on the shops, tags, references and
    accounts that exist. */
module OrderAcceptance {
  import opened Accounts
  import opened Journal
  import opened Books
  import opened Balanced
  import opened Moves
  import opened Orders
  import opened Inbound

  // ---- orders ------------------------------------------------------------------------------

  predicate FeeBookable(chart: Chart, pay: OrderPayload) {
    pay.warehouseFee != 0.0 ==>
      && AccountRef(ServiceRevenue, pay.team) in chart && AccountRef(Receivable, pay.team) in chart
      && AccountRef(WarehouseCost, pay.warehouse) in chart && AccountRef(Payable, pay.warehouse) in chart
  }

  /** Both teams' accounts must exist, though only the selling side is ever saved. */
  predicate OwnBookable(chart: Chart, pay: OrderPayload) {
    pay.ownStock != 0.0 ==>
      && AccountRef(StockReady, pay.warehouse) in chart && AccountRef(StockCost, pay.warehouse) in chart
      && AccountRef(StockReady, pay.team) in chart && AccountRef(StockCost, pay.team) in chart
  }

  predicate BorrowBookable(chart: Chart, pay: OrderPayload, bor: Borrow) {
    && bor.amount != 0.0 && bor.sellAmount != 0.0
    && AccountRef(StockReady, bor.team) in chart && AccountRef(StockToBorrowCost, bor.team) in chart
    && AccountRef(StockReady, pay.warehouse) in chart && AccountRef(StockToBorrowCost, pay.warehouse) in chart
    && AccountRef(BorrowStockRevenue, pay.team) in chart && AccountRef(Receivable, pay.team) in chart
    && AccountRef(StockBorrowCost, bor.team) in chart && AccountRef(Payable, bor.team) in chart
  }

  predicate RevenueBookable(chart: Chart, pay: OrderPayload) {
    RevenueAmount(pay).Some? ==>
      && RevenueAmount(pay).value != 0.0
      && AccountRef(SalesRevenue, pay.team) in chart && AccountRef(SellingReceivable, pay.team) in chart
  }

  predicate AdditionalBookable(chart: Chart, pay: OrderPayload) {
    !pay.additional.NoAdditional? ==>
      && PaidFrom(pay.additional.payWith).Some? && pay.additional.amount != 0.0
      && AccountRef(PaidFrom(pay.additional.payWith).value, pay.team) in chart
      && AccountRef(if pay.additional.FakeOrder? then FakeOrderExpense else StockCost, pay.team) in chart
  }

  /** The order has something to book. */
  predicate BooksSomething(pay: OrderPayload) {
    || pay.warehouseFee != 0.0 || pay.ownStock != 0.0 || pay.borrows != []
    || RevenueAmount(pay).Some? || !pay.additional.NoAdditional?
  }

  predicate Bookable(chart: Chart, pay: OrderPayload) {
    && FeeBookable(chart, pay) && OwnBookable(chart, pay)
    && (forall bor :: bor in pay.borrows ==> BorrowBookable(chart, pay, bor))
    && RevenueBookable(chart, pay) && AdditionalBookable(chart, pay) && BooksSomething(pay)
  }

  /** Some books all pass exactly when cond holds, and each is clean. */
  ghost predicate PassWhen(bs: seq<Book>, tx: TxId, day: Day, cond: bool) {
    (AllPass(bs, tx, day) <==> cond) && forall b :: b in bs ==> Clean(b, tx, day)
  }

  lemma PassWhenAppend(bs: seq<Book>, cs: seq<Book>, tx: TxId, day: Day, c: bool, d: bool)
    requires PassWhen(bs, tx, day, c) && PassWhen(cs, tx, day, d)
    ensures PassWhen(bs + cs, tx, day, c && d)
  {
    hide Passes, Clean;
    assert forall b :: b in bs + cs <==> b in bs || b in cs;
  }

  lemma PassWhenNone(tx: TxId, day: Day)
    ensures PassWhen([], tx, day, true)
  {
  }

  lemma OnePasses(b: Book, tx: TxId, day: Day, c: bool)
    requires (Passes(b, tx, day) <==> c) && Clean(b, tx, day)
    ensures PassWhen([b], tx, day, c)
  {
    assert b in [b];
  }

  lemma OnePair(chart: Chart, team: TeamId, p: Post, q: Post, tx: TxId, day: Day)
    requires Seeded(chart) && p.account != q.account && Weight(p) + Weight(q) == 0.0
    ensures PassWhen([PostBook(chart, team, [p, q])], tx, day,
                     p.account in chart && q.account in chart && p.amount != 0.0 && q.amount != 0.0)
  {
    hide PostBook, Passes, Clean;
    PairPasses(chart, team, p, q, tx, day);
    OnePasses(PostBook(chart, team, [p, q]), tx, day,
              p.account in chart && q.account in chart && p.amount != 0.0 && q.amount != 0.0);
  }

  lemma FeePasses(chart: Chart, pay: OrderPayload, tx: TxId, day: Day)
    requires Seeded(chart)
    ensures PassWhen(WarehouseFeeBooks(chart, pay), tx, day, FeeBookable(chart, pay))
  {
    hide PostBook, PassWhen, Seeded;
    var fee := pay.warehouseFee;
    if fee == 0.0 {
      PassWhenNone(tx, day);
    } else {
      var p, q := Post(AccountRef(ServiceRevenue, pay.team), fee), Post(AccountRef(Receivable, pay.team), fee);
      var r, s := Post(AccountRef(WarehouseCost, pay.warehouse), fee), Post(AccountRef(Payable, pay.warehouse), fee);
      OnePair(chart, pay.warehouse, p, q, tx, day);
      OnePair(chart, pay.team, r, s, tx, day);
      PassWhenAppend([PostBook(chart, pay.warehouse, [p, q])], [PostBook(chart, pay.team, [r, s])], tx, day,
                     p.account in chart && q.account in chart && p.amount != 0.0 && q.amount != 0.0,
                     r.account in chart && s.account in chart && r.amount != 0.0 && s.amount != 0.0);
      assert WarehouseFeeBooks(chart, pay) ==
        [PostBook(chart, pay.warehouse, [p, q])] + [PostBook(chart, pay.team, [r, s])];
    }
  }

  /** A drafted book that is not saved still has to pass its calls. */
  lemma UnsavedPairPasses(chart: Chart, team: TeamId, p: Post, q: Post, tx: TxId, day: Day)
    requires Seeded(chart) && p.account != q.account
    ensures PassWhen([PostBook(chart, team, [p, q]).(saves := false)], tx, day,
                     p.account in chart && q.account in chart && p.amount != 0.0 && q.amount != 0.0)
  {
    var ps := [p, q];
    var b := PostBook(chart, team, ps).(saves := false);
    assert p in ps && q in ps && b in [b];
    SeededPostErrors(chart, ps);
    PostAllAccepts(chart, ps);
    if b.draft.err.None? { DraftedSome(chart, ps); }
  }

  lemma OwnPasses(chart: Chart, pay: OrderPayload, tx: TxId, day: Day)
    requires Seeded(chart)
    ensures PassWhen(OwnStockBooks(chart, pay), tx, day, OwnBookable(chart, pay))
  {
    hide PostBook, PassWhen, Seeded;
    var x := pay.ownStock;
    if x == 0.0 {
      PassWhenNone(tx, day);
    } else {
      var p, q := Post(AccountRef(StockReady, pay.warehouse), -x), Post(AccountRef(StockCost, pay.warehouse), x);
      var r, s := Post(AccountRef(StockReady, pay.team), -x), Post(AccountRef(StockCost, pay.team), x);
      OnePair(chart, pay.team, p, q, tx, day);
      UnsavedPairPasses(chart, pay.warehouse, r, s, tx, day);
      PassWhenAppend([PostBook(chart, pay.team, [p, q])], [PostBook(chart, pay.warehouse, [r, s]).(saves := false)],
                     tx, day,
                     p.account in chart && q.account in chart && p.amount != 0.0 && q.amount != 0.0,
                     r.account in chart && s.account in chart && r.amount != 0.0 && s.amount != 0.0);
      assert OwnStockBooks(chart, pay) ==
             [PostBook(chart, pay.team, [p, q])] + [PostBook(chart, pay.warehouse, [r, s]).(saves := false)];
    }
  }

  lemma LenderPasses(chart: Chart, pay: OrderPayload, bor: Borrow, tx: TxId, day: Day)
    requires Seeded(chart)
    ensures PassWhen([PostBook(chart, bor.team, LenderPosts(pay, bor))], tx, day,
                     Found(chart, LenderPosts(pay, bor)) && bor.amount != 0.0 && bor.sellAmount != 0.0)
  {
    hide PostBook, PassWhen, Seeded, Passes, Clean, Found, Nonzero, AllMove, Signed, LenderPosts;
    var ps := LenderPosts(pay, bor);
    LenderNonzero(pay, bor);
    if Found(chart, ps) { LenderSigned(chart, pay, bor); }
    MovingBookPasses(chart, bor.team, ps, tx, day);
    OnePasses(PostBook(chart, bor.team, ps), tx, day, Found(chart, ps) && bor.amount != 0.0 && bor.sellAmount != 0.0);
  }

  /** Stock out against its cost, and revenue against the receivable. */
  lemma LenderSigned(chart: Chart, pay: OrderPayload, bor: Borrow)
    requires Seeded(chart) && Found(chart, LenderPosts(pay, bor))
    ensures Signed(chart, LenderPosts(pay, bor)) == 0.0
  {
    hide Seeded, Found, Signed;
    var ps := LenderPosts(pay, bor);
    var first, second := [ps[0], ps[1]], [ps[2], ps[3]];
    assert ps == first + second;
    FoundParts(chart, first, second);
    SignedConcat(chart, first, second);
    SignedPair(chart, ps[0], ps[1]);
    SignedPair(chart, ps[2], ps[3]);
  }

  lemma LenderNonzero(pay: OrderPayload, bor: Borrow)
    ensures Nonzero(LenderPosts(pay, bor)) <==> bor.amount != 0.0 && bor.sellAmount != 0.0
    ensures Nonzero(LenderPosts(pay, bor)) ==> AllMove(LenderPosts(pay, bor))
    ensures LenderPosts(pay, bor) != []
  {
    var ps := LenderPosts(pay, bor);
    assert ps[0] in ps && ps[2] in ps;
    var first, second := [ps[0], ps[1]], [ps[2], ps[3]];
    assert ps == first + second;
    forall p | p in ps
      ensures Moved(ps, p.account) == p.amount
    {
      MovedConcat(first, second, p.account);
      MovedTwo(ps[0], ps[1], p.account);
      MovedTwo(ps[2], ps[3], p.account);
    }
  }

  lemma BorrowPasses(chart: Chart, pay: OrderPayload, bor: Borrow, tx: TxId, day: Day)
    requires Seeded(chart)
    ensures PassWhen(BorrowBooks(chart, pay, bor), tx, day, BorrowBookable(chart, pay, bor))
  {
    hide PostBook, PassWhen, Seeded;
    var p, q := Post(AccountRef(StockReady, bor.team), -bor.amount),
      Post(AccountRef(StockToBorrowCost, bor.team), bor.amount);
    var r, s := Post(AccountRef(StockBorrowCost, bor.team), bor.sellAmount),
      Post(AccountRef(Payable, bor.team), bor.sellAmount);
    var ps := LenderPosts(pay, bor);
    var a := p.account in chart && q.account in chart && p.amount != 0.0 && q.amount != 0.0;
    var b := Found(chart, ps) && bor.amount != 0.0 && bor.sellAmount != 0.0;
    var c := r.account in chart && s.account in chart && r.amount != 0.0 && s.amount != 0.0;
    OnePair(chart, pay.warehouse, p, q, tx, day);
    LenderPasses(chart, pay, bor, tx, day);
    OnePair(chart, pay.team, r, s, tx, day);
    PassWhenAppend([PostBook(chart, pay.warehouse, [p, q])], [PostBook(chart, bor.team, ps)], tx, day, a, b);
    PassWhenAppend([PostBook(chart, pay.warehouse, [p, q])] + [PostBook(chart, bor.team, ps)],
                   [PostBook(chart, pay.team, [r, s])],
                   tx, day, a && b, c);
    assert BorrowBooks(chart, pay, bor) ==
           [PostBook(chart, pay.warehouse, [p, q])] + [PostBook(chart, bor.team, ps)]
             + [PostBook(chart, pay.team, [r, s])];
    assert ps[0] in ps && ps[1] in ps && ps[2] in ps && ps[3] in ps;
    assert a && b && c <==> BorrowBookable(chart, pay, bor);
  }

  ghost predicate AllBorrowable(chart: Chart, pay: OrderPayload, borrows: seq<Borrow>) {
    forall bor :: bor in borrows ==> BorrowBookable(chart, pay, bor)
  }

  lemma {:induction false} CrossPasses(chart: Chart, pay: OrderPayload, borrows: seq<Borrow>, tx: TxId, day: Day)
    requires Seeded(chart)
    ensures PassWhen(CrossBooks(chart, pay, borrows), tx, day, AllBorrowable(chart, pay, borrows))
    decreases |borrows|
  {
    hide PassWhen, Seeded, BorrowBooks, BorrowBookable;
    if borrows == [] {
      PassWhenNone(tx, day);
    } else {
      var init, last := borrows[..|borrows| - 1], borrows[|borrows| - 1];
      CrossPasses(chart, pay, init, tx, day);
      BorrowPasses(chart, pay, last, tx, day);
      PassWhenAppend(CrossBooks(chart, pay, init), BorrowBooks(chart, pay, last), tx, day,
                     AllBorrowable(chart, pay, init), BorrowBookable(chart, pay, last));
      assert borrows == init + [last];
      assert AllBorrowable(chart, pay, borrows) <==>
        AllBorrowable(chart, pay, init) && BorrowBookable(chart, pay, last);
    }
  }

  lemma RevenuePasses(chart: Chart, pay: OrderPayload, tx: TxId, day: Day)
    requires Seeded(chart)
    ensures PassWhen(RevenueBooks(chart, pay), tx, day, RevenueBookable(chart, pay))
  {
    hide PostBook, PassWhen, Seeded;
    match RevenueAmount(pay)
    case None => PassWhenNone(tx, day);
    case Some(x) =>
      OnePair(chart, pay.team, Post(AccountRef(SalesRevenue, pay.team), x),
              Post(AccountRef(SellingReceivable, pay.team), x), tx, day);
  }

  lemma AdditionalPasses(chart: Chart, pay: OrderPayload, tx: TxId, day: Day)
    requires Seeded(chart) && AdditionalError(pay).None?
    ensures PassWhen(AdditionalBooks(chart, pay), tx, day, AdditionalBookable(chart, pay))
  {
    hide PostBook, PassWhen, Seeded;
    if pay.additional.NoAdditional? {
      PassWhenNone(tx, day);
    } else {
      var key, x := PaidFrom(pay.additional.payWith).value, pay.additional.amount;
      var cost := if pay.additional.FakeOrder? then FakeOrderExpense else StockCost;
      OnePair(chart, pay.team, Post(AccountRef(key, pay.team), -x), Post(AccountRef(cost, pay.team), x), tx, day);
    }
  }

  lemma OrderPasses(chart: Chart, pay: OrderPayload, tx: TxId, day: Day)
    requires Seeded(chart) && AdditionalError(pay).None?
    ensures PassWhen(OrderBooks(chart, pay), tx, day,
                     FeeBookable(chart, pay) && (OwnBookable(chart, pay) && (AllBorrowable(chart, pay, pay.borrows)
                     && (RevenueBookable(chart, pay) && AdditionalBookable(chart, pay)))))
  {
    hide PassWhen, Seeded, FeeBookable, OwnBookable, AllBorrowable, RevenueBookable, AdditionalBookable;
    var fee, own, cross, rev, add := WarehouseFeeBooks(chart, pay), OwnStockBooks(chart, pay),
      CrossBooks(chart, pay, pay.borrows), RevenueBooks(chart, pay), AdditionalBooks(chart, pay);
    FeePasses(chart, pay, tx, day);
    OwnPasses(chart, pay, tx, day);
    CrossPasses(chart, pay, pay.borrows, tx, day);
    RevenuePasses(chart, pay, tx, day);
    AdditionalPasses(chart, pay, tx, day);
    var c, d := RevenueBookable(chart, pay), AdditionalBookable(chart, pay);
    PassWhenAppend(rev, add, tx, day, c, d);
    PassWhenAppend(cross, rev + add, tx, day, AllBorrowable(chart, pay, pay.borrows), c && d);
    PassWhenAppend(own, cross + (rev + add), tx, day, OwnBookable(chart, pay),
                   AllBorrowable(chart, pay, pay.borrows) && (c && d));
    PassWhenAppend(fee, own + (cross + (rev + add)), tx, day, FeeBookable(chart, pay),
                   OwnBookable(chart, pay) && (AllBorrowable(chart, pay, pay.borrows) && (c && d)));
  }

  lemma SomethingSaved(chart: Chart, pay: OrderPayload)
    requires AdditionalError(pay).None?
    ensures (exists b :: b in OrderBooks(chart, pay) && b.saves) <==> BooksSomething(pay)
  {
    hide PostAll, BorrowBooks;
    var fee, own, cross, rev, add := WarehouseFeeBooks(chart, pay), OwnStockBooks(chart, pay),
      CrossBooks(chart, pay, pay.borrows), RevenueBooks(chart, pay), AdditionalBooks(chart, pay);
    var all := OrderBooks(chart, pay);
    assert forall b :: b in all <==> b in fee || b in own || b in cross || b in rev || b in add;
    CrossSaved(chart, pay);
    if pay.warehouseFee != 0.0 { assert fee[0] in all && fee[0].saves; }
    if pay.ownStock != 0.0 { assert own[0] in all && own[0].saves; }
    if pay.borrows != [] { assert cross[0] in all && cross[0].saves; }
    if RevenueAmount(pay).Some? { assert rev[0] in all && rev[0].saves; }
    if !pay.additional.NoAdditional? { assert add[0] in all && add[0].saves; }
  }

  lemma CrossSaved(chart: Chart, pay: OrderPayload)
    ensures pay.borrows == [] ==> CrossBooks(chart, pay, pay.borrows) == []
    ensures pay.borrows != [] ==>
      CrossBooks(chart, pay, pay.borrows) != [] && CrossBooks(chart, pay, pay.borrows)[0].saves
  {
    if pay.borrows != [] { CrossSavedAll(chart, pay, pay.borrows); }
  }

  lemma {:induction false} CrossSavedAll(chart: Chart, pay: OrderPayload, borrows: seq<Borrow>)
    requires borrows != []
    ensures CrossBooks(chart, pay, borrows) != [] && CrossBooks(chart, pay, borrows)[0].saves
    decreases |borrows|
  {
    hide PostAll;
    var init := borrows[..|borrows| - 1];
    if init != [] { CrossSavedAll(chart, pay, init); }
  }

  /** The shop of the order exists and its tags repeat no new one. */
  predicate Labelled(l: Ledger, pay: OrderPayload) {
    pay.shop != 0 && pay.shop in l.shops && !RepeatsNewTag(l.tags + {l.shops[pay.shop]}, pay.tags)
  }

  lemma OrderCreated(l: Ledger, pay: OrderPayload)
    requires OrderRef(pay.orderId) !in l.txs
    ensures CreateError(l, OrderCreation(pay)).None? <==> Labelled(l, pay)
  {
    hide OrderRef, RepeatsNewTag;
  }

  /** An order that is not booked yet is accepted exactly when its shop exists, its tags repeat no new one, and its
      payload is bookable: it has something to book, every account exists, no borrowed or sold amount is zero and the
      additional cost is paid by a known method. */
  lemma OrderAcceptedExactlyWhen(l: Ledger, pay: OrderPayload, day: Day)
    requires Seeded(l.chart) && OrderRef(pay.orderId) !in l.txs
    ensures OnOrderSpec(l, pay, day).1.None? <==> Labelled(l, pay) && Bookable(l.chart, pay)
  {
    hide PostSpec, OrderRef, OrderBooks, OrderCreation, Accepts, Passes, Clean, Seeded, BooksSomething, FeeBookable;
    hide OwnBookable, RevenueBookable, Labelled;
    PostAccepted(l, OrderCreation(pay), OrderBooks(l.chart, pay), AdditionalError(pay), day);
    OrderCreated(l, pay);
    if AdditionalError(pay).None? {
      OrderPasses(l.chart, pay, l.nextTx, day);
      SomethingSaved(l.chart, pay);
      CleanBooksAccept(OrderBooks(l.chart, pay), l.nextTx, None, day);
    } else {
      ErrorRefuses(OrderBooks(l.chart, pay), l.nextTx, AdditionalError(pay), day);
    }
  }

  lemma ErrorRefuses(bs: seq<Book>, tx: TxId, tail: Option<Error>, day: Day)
    requires tail.Some?
    ensures !Accepts(bs, tx, tail, day)
  {
  }

  // ---- restocks ----------------------------------------------------------------------------

  function Total(pay: InboundPayload): real { GoodsValue(pay.products) + pay.shippingFee }

  /** What becomes pending: a negative shipping fee is paid but not booked here. */
  function PendingTotal(pay: InboundPayload): real {
    GoodsValue(pay.products) + if pay.shippingFee > 0.0 then pay.shippingFee else 0.0
  }

  /** What was paid and is not pending, or is pending and was not paid. */
  function Unmet(pay: InboundPayload): real {
    PendingTotal(pay) - if PaidFrom(pay.payWith).Some? then Total(pay) else 0.0
  }

  function PendingPosts(pay: InboundPayload): seq<Post> {
    [Post(Pending(pay), GoodsValue(pay.products))]
    + (if pay.shippingFee > 0.0 then [Post(Pending(pay), pay.shippingFee)] else [])
  }

  lemma CreateParts(pay: InboundPayload)
    ensures CreatePosts(pay) == PaymentPosts(pay, Total(pay)) + PendingPosts(pay)
  {
  }

  lemma PendingMoves(chart: Chart, pay: InboundPayload)
    ensures Moved(PendingPosts(pay), Pending(pay)) == PendingTotal(pay)
    ensures Seeded(chart) && Found(chart, PendingPosts(pay)) ==> Signed(chart, PendingPosts(pay)) == PendingTotal(pay)
  {
    hide Seeded, Found, Signed, GoodsValue;
    var p, q := Post(Pending(pay), GoodsValue(pay.products)), Post(Pending(pay), pay.shippingFee);
    if pay.shippingFee > 0.0 {
      assert PendingPosts(pay) == [p, q];
      MovedTwo(p, q, Pending(pay));
      if Seeded(chart) && Found(chart, [p, q]) { SignedPair(chart, p, q); }
    } else {
      assert PendingPosts(pay) == [p];
      MovedOne(p, Pending(pay));
      if Seeded(chart) && Found(chart, [p]) { SignedSingle(chart, p); }
    }
  }

  lemma SignedSingle(chart: Chart, p: Post)
    requires Seeded(chart) && Found(chart, [p])
    ensures Signed(chart, [p]) == Weight(p)
  {
    SignedOne(chart, p);
    assert p in [p];
  }

  lemma PaymentSigned(chart: Chart, pay: InboundPayload, total: real)
    requires Seeded(chart) && Found(chart, PaymentPosts(pay, total))
    ensures Signed(chart, PaymentPosts(pay, total)) == if PaidFrom(pay.payWith).Some? then -total else 0.0
  {
    hide Seeded, Found, Signed;
    match PaidFrom(pay.payWith)
    case None => SignedNone(chart);
    case Some(key) => SignedSingle(chart, Post(AccountRef(key, pay.team), -total));
  }

  lemma CreateSigned(chart: Chart, pay: InboundPayload)
    requires Seeded(chart) && Found(chart, CreatePosts(pay))
    ensures Signed(chart, CreatePosts(pay)) == Unmet(pay)
  {
    hide Seeded, Found, Signed, PendingPosts, PaymentPosts, GoodsValue;
    CreateParts(pay);
    FoundParts(chart, PaymentPosts(pay, Total(pay)), PendingPosts(pay));
    SignedConcat(chart, PaymentPosts(pay, Total(pay)), PendingPosts(pay));
    PaymentSigned(chart, pay, Total(pay));
    PendingMoves(chart, pay);
  }

  lemma CreateNonzero(pay: InboundPayload)
    ensures CreatePosts(pay) != []
    ensures Nonzero(CreatePosts(pay)) <==>
      GoodsValue(pay.products) != 0.0 && (PaidFrom(pay.payWith).Some? ==> Total(pay) != 0.0)
  {
    hide GoodsValue;
    var q := Post(Pending(pay), GoodsValue(pay.products));
    assert q in CreatePosts(pay);
    if PaidFrom(pay.payWith).Some? { assert CreatePosts(pay)[0] in CreatePosts(pay); }
  }

  lemma CreateMovesPending(pay: InboundPayload)
    ensures Moved(CreatePosts(pay), Pending(pay)) == PendingTotal(pay)
  {
    CreateParts(pay);
    PendingMoves(map[], pay);
    hide PendingPosts, PendingTotal, GoodsValue, CreatePosts;
    MovedConcat(PaymentPosts(pay, Total(pay)), PendingPosts(pay), Pending(pay));
    NotMoved(PaymentPosts(pay, Total(pay)), Pending(pay));
  }

  lemma CreateMovesPaid(pay: InboundPayload, a: AccountRef)
    requires PaidFrom(pay.payWith).Some? && a == AccountRef(PaidFrom(pay.payWith).value, pay.team)
    ensures Moved(CreatePosts(pay), a) == -Total(pay)
  {
    CreateParts(pay);
    NotMoved(PendingPosts(pay), a);
    hide PendingPosts, GoodsValue, CreatePosts;
    MovedConcat(PaymentPosts(pay, Total(pay)), PendingPosts(pay), a);
    MovedOne(Post(a, -Total(pay)), a);
  }

  lemma CreateAllMove(pay: InboundPayload)
    requires Nonzero(CreatePosts(pay))
    ensures AllMove(CreatePosts(pay)) <==> PendingTotal(pay) != 0.0
  {
    hide GoodsValue, Moved, PendingTotal;
    assert Post(Pending(pay), GoodsValue(pay.products)) in CreatePosts(pay);
    CreateMovesPending(pay);
    CreateNonzero(pay);
    if PaidFrom(pay.payWith).Some? { CreateMovesPaid(pay, AccountRef(PaidFrom(pay.payWith).value, pay.team)); }
  }

  /** A restock is accepted exactly when its creation is not refused, its goods, what it pays and what becomes pending
      are not zero, the two meet within the tolerance, and its accounts exist. */
  lemma RestockAcceptedExactlyWhen(l: Ledger, pay: InboundPayload, tags: seq<string>, day: Day)
    requires Seeded(l.chart)
    ensures CreateSpec(l, pay, tags, day).1.None? <==>
      && RestockRef(pay.extTxId) !in l.txs && !RepeatsNewTag(l.tags, tags)
      && GoodsValue(pay.products) != 0.0 && (PaidFrom(pay.payWith).Some? ==> Total(pay) != 0.0)
      && PendingTotal(pay) != 0.0
      && Abs(Unmet(pay)) < EPSILON && Found(l.chart, CreatePosts(pay))
  {
    hide PostSpec, RestockRef, CreatePosts, Accepts, Seeded, Found, Nonzero, AllMove, Signed, PostBook, GoodsValue;
    hide RepeatsNewTag, NoneFails;
    var ps := CreatePosts(pay);
    CreateNonzero(pay);
    if Nonzero(ps) { CreateAllMove(pay); }
    if Found(l.chart, ps) { CreateSigned(l.chart, pay); }
    SeededPostErrors(l.chart, ps);
    SingleAccepts(l.chart, pay.team, ps, l.nextTx, day);
    PostAccepted(l, RestockCreation(pay, tags), [PostBook(l.chart, pay.team, ps)], None, day);
  }
}

/** What restocks, goods received and stock adjustments move, as sums over their lines. */
module StockEffects {
  import opened Sums
  import opened Accounts
  import opened Journal
  import opened Books
  import opened Nets
  import opened Rollback
  import opened Moves
  import opened Orders
  import opened Inbound
  import opened Acceptance
  import opened LandedCost
  import opened Effects

  // ---- sums over lines -------------------------------------------------------------------

  ghost function Items(): Line -> real { (l: Line) => l.count as real }
  ghost function Worth(): Line -> real { (l: Line) => l.price * l.count as real }
  ghost function Landed(fee: real): Line -> real { (l: Line) => (l.price + fee) * l.count as real }

  /** Only a line with the charge flag costs the warehouse anything. */
  ghost function ChargedWorth(): Line -> real { (l: Line) => if l.charge then l.price * l.count as real else 0.0 }

  ghost function TotalOf(ls: seq<Line>, f: Line -> real): real { Sum(multiset(ls), f) }

  lemma TotalStep(ls: seq<Line>, f: Line -> real)
    requires ls != []
    ensures TotalOf(ls, f) == TotalOf(ls[..|ls| - 1], f) + f(ls[|ls| - 1])
  {
    assert ls == ls[..|ls| - 1] + [ls[|ls| - 1]];
    SumAdd(multiset(ls[..|ls| - 1]), ls[|ls| - 1], f);
  }

  lemma {:induction false} GoodsTotal(ls: seq<Line>)
    ensures GoodsValue(ls) == TotalOf(ls, Worth())
    decreases |ls|
  {
    if ls != [] {
      GoodsTotal(ls[..|ls| - 1]);
      TotalStep(ls, Worth());
    }
  }

  lemma {:induction false} LandedTotal(ls: seq<Line>, fee: real)
    ensures SpreadValue(ls, fee) == TotalOf(ls, Landed(fee))
    decreases |ls|
  {
    if ls != [] {
      LandedTotal(ls[..|ls| - 1], fee);
      TotalStep(ls, Landed(fee));
    }
  }

  lemma {:induction false} ChargedTotal(ls: seq<Line>)
    ensures Charged(ls) == TotalOf(ls, ChargedWorth())
    decreases |ls|
  {
    if ls != [] {
      ChargedTotal(ls[..|ls| - 1]);
      TotalStep(ls, ChargedWorth());
    }
  }

  lemma {:induction false} CountTotal(ls: seq<Line>)
    ensures Count(ls) as real == TotalOf(ls, Items())
    decreases |ls|
  {
    if ls != [] {
      CountTotal(ls[..|ls| - 1]);
      TotalStep(ls, Items());
    }
  }

  function Positive(x: real): real { if x > 0.0 then x else 0.0 }

  // ---- restocks --------------------------------------------------------------------------

  /** A total is paid from cash or from ShopeePay, or not at all. */
  function ByPayment(pay: InboundPayload, total: real, c: Cell): real {
    match pay.payWith
    case PayCash => On(c, Cell(pay.team, Cash, pay.team), -total)
    case PayShopeepay => On(c, Cell(pay.team, Shopeepay, pay.team), -total)
    case PayOther => 0.0
  }

  lemma PaymentMoved(pay: InboundPayload, total: real, c: Cell)
    ensures (if c.book == pay.team then Moved(PaymentPosts(pay, total), Account(c)) else 0.0) ==
            ByPayment(pay, total, c)
  {
    match pay.payWith
    case PayCash => MovedOne(Post(AccountRef(Cash, pay.team), -total), Account(c));
    case PayShopeepay => MovedOne(Post(AccountRef(Shopeepay, pay.team), -total), Account(c));
    case PayOther =>
  }

  lemma PendingMoved(pay: InboundPayload, goods: real, c: bool, fee: real, a: AccountRef)
    ensures Moved([Post(Pending(pay), goods)] + (if c then [Post(Pending(pay), fee)] else []), a) ==
      if a == Pending(pay) then goods + (if c then fee else 0.0) else 0.0
  {
    var p, q := Post(Pending(pay), goods), Post(Pending(pay), fee);
    if c {
      assert [p] + [q] == [p, q];
      MovedTwo(p, q, a);
    } else {
      assert [p] + [] == [p];
      MovedOne(p, a);
    }
  }

  /** An accepted restock brings the goods and a positive shipping fee into the pending stock at the warehouse, and pays
      for the goods and the fee from cash or ShopeePay; no other account of any book moves. */
  lemma RestockMoves(l: Ledger, pay: InboundPayload, tags: seq<string>, day: Day, c: Cell)
    requires ValidLedger(l) && Seeded(l.chart)
    ensures var (l', e), goods, fee := CreateSpec(l, pay, tags, day), TotalOf(pay.products, Worth()), pay.shippingFee;
            e.None? ==> Gains(l, l', l.nextTx, c,
                              On(c, Cell(pay.team, StockPending, pay.warehouse), goods + Positive(fee))
                              + ByPayment(pay, goods + fee, c))
  {
    hide PostSpec, BooksMove, PostBook, AllPass, Seeded, ValidLedger, Gains, GoodsValue, TotalOf, RestockRef;
    hide PaymentPosts, ByPayment, Worth;
    var goods, fee, ps := GoodsValue(pay.products), pay.shippingFee, CreatePosts(pay);
    var creation, bs := RestockCreation(pay, tags), [PostBook(l.chart, pay.team, ps)];
    GoodsTotal(pay.products);
    if AllPass(bs, l.nextTx, day) { OneMoves(l.chart, pay.team, ps, l.nextTx, day, c); }
    var pending := [Post(Pending(pay), goods)] + (if fee > 0.0 then [Post(Pending(pay), fee)] else []);
    assert ps == PaymentPosts(pay, goods + fee) + pending;
    MovedConcat(PaymentPosts(pay, goods + fee), pending, Account(c));
    PendingMoved(pay, goods, fee > 0.0, fee, Account(c));
    PaymentMoved(pay, goods + fee, c);
    PostGains(l, creation, bs, None, day, c,
              On(c, Cell(pay.team, StockPending, pay.warehouse), goods + Positive(fee))
                + ByPayment(pay, goods + fee, c));
  }

  /** What an update leaves in the team's book of the restock's transaction. */
  function Rebooked(pay: InboundPayload, goods: real, shipping: real, c: Cell): real {
    On(c, Cell(pay.team, StockPending, pay.warehouse), goods + shipping) + ByPayment(pay, goods + shipping, c)
  }

  lemma UpdateMoved(pay: InboundPayload, goods: real, shipping: real, c: Cell)
    ensures (if c.book == pay.team then Moved(UpdatePosts(pay, goods, shipping), Account(c)) else 0.0) ==
      Rebooked(pay, goods, shipping, c)
  {
    hide PaymentPosts, ByPayment;
    var pending := [Post(Pending(pay), goods)] + (if shipping != 0.0 then [Post(Pending(pay), shipping)] else []);
    assert UpdatePosts(pay, goods, shipping) == pending + PaymentPosts(pay, goods + shipping);
    MovedConcat(pending, PaymentPosts(pay, goods + shipping), Account(c));
    PendingMoved(pay, goods, shipping != 0.0, shipping, Account(c));
    PaymentMoved(pay, goods + shipping, c);
  }

  lemma UpdatePasses(l: Ledger, pay: InboundPayload, old1: Option<real>, old2: Option<real>, day: Day)
    ensures var (l', e) := UpdateSpec(l, pay, old1, old2, day);
            e.None? ==>
              && UpdateRef(pay).Some? && UpdateRef(pay).value in l.txs && UpdateGoods(pay, old1).Some?
              && var tx := l.txs[UpdateRef(pay).value];
                 && AllPass(UpdateBooks(l, tx, pay, old1, old2), tx, day)
                 && OpenSpec(l, l, tx, UpdateBooks(l, tx, pay, old1, old2), None, day) == (l', e)
  {
    hide UpdateRef, UpdateBooks, OpenSpec;
    if UpdateRef(pay).Some? && UpdateRef(pay).value in l.txs {
      var tx, tail := l.txs[UpdateRef(pay).value], if UpdateGoods(pay, old1).None? then Some(AccountNotFound) else None;
      TransactionEffect(l, l, tx, UpdateBooks(l, tx, pay, old1, old2), tail, day);
    }
  }

  /** What the two books of an update move, on top of what the transaction held. */
  lemma UpdateBooksMove(l: Ledger, tx: TxId, pay: InboundPayload, old1: Option<real>, old2: Option<real>, day: Day,
                        c: Cell)
    requires ValidLedger(l) && Seeded(l.chart) && UpdateGoods(pay, old1).Some?
    requires AllPass(UpdateBooks(l, tx, pay, old1, old2), tx, day)
    ensures var goods, shipping := UpdateGoods(pay, old1).value, UpdateShipping(pay, old2);
            BooksNet(UpdateBooks(l, tx, pay, old1, old2), c.book, Account(c)) ==
            if c.book != pay.team then 0.0
            else RawAmount(SeedSide(c.key), Rebooked(pay, goods, shipping, c)) - Net(l.journal, tx, c.book, Account(c))
  {
    hide Seeded, ValidLedger, AllPass, Net, PostBook, ReverseBook, UpdatePosts, Rebooked, UpdateShipping;
    hide UpdateGoods;
    var goods, shipping := UpdateGoods(pay, old1).value, UpdateShipping(pay, old2);
    var reset, ps := ReverseBook(l, tx, pay.team), UpdatePosts(pay, goods, shipping);
    var booked := PostBook(l.chart, pay.team, ps);
    assert UpdateBooks(l, tx, pay, old1, old2) == [reset] + [booked];
    PassParts([reset], [booked], tx, day);
    BooksNetAppend([reset], [booked], c.book, Account(c));
    OneBookNet(reset, c.book, Account(c));
    ResetNet(l, tx, pay.team, c);
    OneMoves(l.chart, pay.team, ps, tx, day, c);
    UpdateMoved(pay, goods, shipping, c);
  }

  lemma ResetNet(l: Ledger, tx: TxId, team: TeamId, c: Cell)
    requires ValidLedger(l)
    ensures BookNet(ReverseBook(l, tx, team), c.book, Account(c)) ==
      if c.book == team then -Net(l.journal, tx, c.book, Account(c)) else 0.0
  {
    if c.book == team { ReverseItemsNet(l, tx, team, Account(c)); }
  }

  /** An accepted update leaves in the team's book of the restock's transaction the goods and the shipping fee as
      pending stock, and what was paid for them, and nothing of what the transaction held there before. Without products
      the goods are the old pending balance, and without a shipping fee so is the fee. */
  lemma UpdateMoves(l: Ledger, pay: InboundPayload, old1: Option<real>, old2: Option<real>, day: Day, x: TxId, c: Cell)
    requires ValidLedger(l) && Seeded(l.chart)
    ensures var (l', e) := UpdateSpec(l, pay, old1, old2, day);
            e.None? ==>
              && UpdateRef(pay).Some? && UpdateRef(pay).value in l.txs && (pay.products == [] ==> old1.Some?)
              && var goods := if pay.products == [] then old1.value else TotalOf(pay.products, Worth());
                 var shipping := if pay.shippingFee != 0.0 then pay.shippingFee else OrNothing(old2);
                 Net(l'.journal, x, c.book, Account(c)) ==
                 if x == l.txs[UpdateRef(pay).value] && c.book == pay.team
                 then RawAmount(SeedSide(c.key), Rebooked(pay, goods, shipping, c))
                 else Net(l.journal, x, c.book, Account(c))
  {
    hide UpdateSpec, UpdateRef, UpdateBooks, Seeded, ValidLedger, AllPass, Net, OpenSpec, BooksNet, Rebooked;
    hide TotalOf, Worth, RawAmount, SeedSide, GoodsValue;
    UpdatePasses(l, pay, old1, old2, day);
    if UpdateSpec(l, pay, old1, old2, day).1.None? {
      var tx := l.txs[UpdateRef(pay).value];
      GoodsTotal(pay.products);
      UpdateBooksMove(l, tx, pay, old1, old2, day, c);
      NetAfterOpen(l, l, tx, UpdateBooks(l, tx, pay, old1, old2), None, day, x, c.book, Account(c));
    }
  }

  function OrNothing(x: Option<real>): real { if x.Some? then x.value else 0.0 }

  // ---- goods received --------------------------------------------------------------------

  /** The shipping and cash-on-delivery fees, spread over the items. */
  ghost function PerItem(pay: AcceptPayload): real {
    var n := TotalOf(pay.accepts, Items()) + TotalOf(pay.losts, Items()) + TotalOf(pay.brokens, Items());
    if n == 0.0 then 0.0 else (pay.shippingFee + pay.codFee) / n
  }

  ghost function GoodsWorth(pay: AcceptPayload): real {
    TotalOf(pay.accepts, Worth()) + TotalOf(pay.losts, Worth()) + TotalOf(pay.brokens, Worth())
  }

  lemma FeeIsPerItem(pay: AcceptPayload)
    requires ExtPriceFee(pay).Some?
    ensures ExtPriceFee(pay).value == PerItem(pay)
  {
    hide Count, TotalOf;
    CountTotal(pay.accepts);
    CountTotal(pay.losts);
    CountTotal(pay.brokens);
    assert ItemCount(pay) as real ==
           TotalOf(pay.accepts, Items()) + TotalOf(pay.losts, Items()) + TotalOf(pay.brokens, Items());
  }

  /** In the book of either side, filed under the other: goods and shipping leave the pending stock, and the goods
      arrive with their share of the fees, as ready, lost or broken. */
  ghost function ByGoods(pay: AcceptPayload, book: TeamId, other: TeamId, c: Cell): real {
    var fee := PerItem(pay);
    On(c, Cell(book, StockPending, other), -pay.shippingFee - GoodsWorth(pay))
    + On(c, Cell(book, StockReady, other), TotalOf(pay.accepts, Landed(fee)))
    + On(c, Cell(book, StockLost, other), Positive(TotalOf(pay.losts, Landed(fee))))
    + On(c, Cell(book, StockBroken, other), Positive(TotalOf(pay.brokens, Landed(fee))))
  }

  /** The warehouse pays the courier and claims it from the selling team. */
  function ByCod(pay: AcceptPayload, c: Cell): real {
    var (team, ware, cod) := (pay.team, pay.warehouse, pay.codFee);
    On(c, Cell(ware, Cash, ware), -cod) + On(c, Cell(ware, StockCodFee, ware), -cod)
    + On(c, Cell(ware, Receivable, team), cod) + On(c, Cell(team, Payable, ware), cod)
  }

  lemma GoodsAre(pay: AcceptPayload, fee: real)
    ensures Goods(pay) == GoodsWorth(pay)
    ensures Accepted(pay, fee) == TotalOf(pay.accepts, Landed(fee))
    ensures Lost(pay, fee) == TotalOf(pay.losts, Landed(fee))
    ensures Broken(pay, fee) == TotalOf(pay.brokens, Landed(fee))
  {
    GoodsTotal(pay.accepts);
    GoodsTotal(pay.losts);
    GoodsTotal(pay.brokens);
    LandedTotal(pay.accepts, fee);
    LandedTotal(pay.losts, fee);
    LandedTotal(pay.brokens, fee);
  }

  /** The goods' own posts and the shipping that leaves the pending stock with them. */
  lemma GoodsMovedAs(pay: AcceptPayload, book: TeamId, other: TeamId, c: Cell)
    requires ExtPriceFee(pay).Some?
    ensures (if c.book != book then 0.0
             else LandedCost.At(Account(c), Post(AccountRef(StockPending, other), -pay.shippingFee))
                  + Moved(GoodsPosts(other, pay, PerItem(pay)), Account(c))) == ByGoods(pay, book, other, c)
  {
    hide TotalOf, Accepted, Lost, Broken, Goods, GoodsWorth, PerItem, GoodsPosts;
    GoodsAre(pay, PerItem(pay));
    GoodsMoved(other, pay, PerItem(pay), Account(c));
  }

  /** Both sides of an acceptance and the courier's fee. */
  ghost function ByAccept(pay: AcceptPayload, c: Cell): real {
    ByGoods(pay, pay.warehouse, pay.team, c) + ByGoods(pay, pay.team, pay.warehouse, c) + ByCod(pay, c)
  }

  lemma AcceptMoved(pay: AcceptPayload, c: Cell)
    requires ExtPriceFee(pay).Some?
    ensures (if c.book == pay.warehouse then Moved(WarePosts(pay, PerItem(pay)), Account(c)) else 0.0)
            + (if c.book == pay.team then Moved(SellPosts(pay, PerItem(pay)), Account(c)) else 0.0) == ByAccept(pay, c)
  {
    hide ByGoods, PerItem, GoodsPosts, WarePosts, SellPosts, CodPosts, Moved;
    WareMoved(pay, PerItem(pay), Account(c));
    SellMoved(pay, PerItem(pay), Account(c));
    CodMoved(pay, Account(c));
    GoodsMovedAs(pay, pay.warehouse, pay.team, c);
    GoodsMovedAs(pay, pay.team, pay.warehouse, c);
  }

  /** Accepted goods: every account of every book moves by what the goods and the courier's fee come to. */
  lemma AcceptMoves(l: Ledger, pay: AcceptPayload, day: Day, c: Cell)
    requires ValidLedger(l) && Seeded(l.chart)
    ensures var (l', e) := AcceptSpec(l, pay, day);
            e.None? ==> Gains(l, l', l.nextTx, c, ByAccept(pay, c))
  {
    hide PostSpec, BooksMove, PostBook, AllPass, Seeded, ValidLedger, Gains, ExtPriceFee, PerItem, AcceptRef, ByAccept;
    hide WarePosts, SellPosts, CreateError;
    if AcceptRef(pay).Some? && ExtPriceFee(pay).Some? {
      FeeIsPerItem(pay);
      var fee, creation := PerItem(pay), AcceptCreation(AcceptRef(pay).value, pay);
      var ware, sell, bs := WarePosts(pay, fee), SellPosts(pay, fee), AcceptBooks(l.chart, pay, fee);
      if AllPass(bs, l.nextTx, day) { TwoMove(l.chart, pay.warehouse, ware, pay.team, sell, l.nextTx, day, c); }
      AcceptMoved(pay, c);
      PostGains(l, creation, bs, None, day, c, ByAccept(pay, c));
    }
  }

  /** The amount, for each of the two sides of an acceptance that the book and the other team are. */
  function PerSide(pay: AcceptPayload, book: TeamId, other: TeamId, amount: real): real {
    (if book == pay.warehouse && other == pay.team then amount else 0.0)
    + (if book == pay.team && other == pay.warehouse then amount else 0.0)
  }

  /** Where the goods arrive, in the warehouse's book and in the selling team's alike: ready stock takes the accepted
      lines, lost stock the lost ones and broken stock the broken ones, each item at its price plus the fee per item,
      and lost and broken stock only when they come to a positive value. */
  lemma GoodsArrive(l: Ledger, pay: AcceptPayload, day: Day, book: TeamId, other: TeamId)
    requires ValidLedger(l) && Seeded(l.chart)
    ensures var (l', e), landed := AcceptSpec(l, pay, day), Landed(PerItem(pay));
            var ready := TotalOf(pay.accepts, landed);
            var lost, broken := Positive(TotalOf(pay.losts, landed)), Positive(TotalOf(pay.brokens, landed));
            e.None? ==>
              && Gains(l, l', l.nextTx, Cell(book, StockReady, other), PerSide(pay, book, other, ready))
              && Gains(l, l', l.nextTx, Cell(book, StockLost, other), PerSide(pay, book, other, lost))
              && Gains(l, l', l.nextTx, Cell(book, StockBroken, other), PerSide(pay, book, other, broken))
  {
    hide AcceptSpec, Seeded, ValidLedger, Gains, TotalOf, PerItem;
    AcceptMoves(l, pay, day, Cell(book, StockReady, other));
    AcceptMoves(l, pay, day, Cell(book, StockLost, other));
    AcceptMoves(l, pay, day, Cell(book, StockBroken, other));
  }

  // ---- adjustments -----------------------------------------------------------------------

  /** Ready stock becomes broken or lost, in the book of either side; lost goods are booked at the broken goods'
      worth. */
  ghost function ByDamage(pay: AdjustPayload, book: TeamId, other: TeamId, c: Cell): real {
    var broken := TotalOf(pay.brokens, Worth());
    var lost := if TotalOf(pay.losts, Worth()) > 0.0 then broken else 0.0;
    On(c, Cell(book, StockReady, other), -Positive(broken) - lost)
    + On(c, Cell(book, StockBroken, other), Positive(broken)) + On(c, Cell(book, StockLost, other), lost)
  }

  /** What the warehouse is charged is its cost and its debt, and the selling team's claim and what it saves. */
  ghost function ByCharge(pay: AdjustPayload, c: Cell): real {
    var (team, ware) := (pay.team, pay.warehouse);
    var lost, broken := Positive(TotalOf(pay.losts, ChargedWorth())), Positive(TotalOf(pay.brokens, ChargedWorth()));
    On(c, Cell(ware, StockLostCost, team), lost) + On(c, Cell(ware, StockBrokenCost, team), broken)
    + On(c, Cell(ware, Payable, team), lost + broken)
    + (On(c, Cell(team, StockLostCost, ware), -lost) + On(c, Cell(team, StockBrokenCost, ware), -broken)
       + On(c, Cell(team, Receivable, ware), lost + broken))
  }

  lemma DamageMovedAs(pay: AdjustPayload, book: TeamId, other: TeamId, c: Cell)
    ensures (if c.book == book then Moved(DamagePosts(other, pay), Account(c)) else 0.0) ==
            ByDamage(pay, book, other, c)
  {
    hide TotalOf, GoodsValue, DamagePosts;
    GoodsTotal(pay.losts);
    GoodsTotal(pay.brokens);
    DamageMoved(other, pay, Account(c));
  }

  lemma ChargeMovedAs(pay: AdjustPayload, c: Cell)
    ensures (if c.book == pay.warehouse then Moved(OwedPosts(pay), Account(c)) else 0.0)
            + (if c.book == pay.team then Moved(ClaimPosts(pay), Account(c)) else 0.0) == ByCharge(pay, c)
  {
    hide TotalOf, Charged, OwedPosts, ClaimPosts;
    ChargedTotal(pay.losts);
    ChargedTotal(pay.brokens);
    OwedMoved(pay, Account(c));
    ClaimMoved(pay, Account(c));
  }

  /** Both sides of an adjustment and its charges. */
  ghost function ByAdjustment(pay: AdjustPayload, c: Cell): real {
    ByDamage(pay, pay.warehouse, pay.team, c) + ByDamage(pay, pay.team, pay.warehouse, c) + ByCharge(pay, c)
  }

  lemma AdjustMoved(pay: AdjustPayload, c: Cell)
    ensures (if c.book == pay.warehouse then Moved(WareAdjust(pay), Account(c)) else 0.0)
            + (if c.book == pay.team then Moved(SellAdjust(pay), Account(c)) else 0.0) == ByAdjustment(pay, c)
  {
    hide ByDamage, ByCharge, DamagePosts, OwedPosts, ClaimPosts, Moved;
    MovedConcat(DamagePosts(pay.team, pay), OwedPosts(pay), Account(c));
    MovedConcat(DamagePosts(pay.warehouse, pay), ClaimPosts(pay), Account(c));
    DamageMovedAs(pay, pay.warehouse, pay.team, c);
    DamageMovedAs(pay, pay.team, pay.warehouse, c);
    ChargeMovedAs(pay, c);
  }

  /** An accepted adjustment: every account of every book moves by what the damage and the charges come to. */
  lemma AdjustMoves(l: Ledger, pay: AdjustPayload, day: Day, c: Cell)
    requires ValidLedger(l) && Seeded(l.chart)
    ensures var (l', e) := AdjustSpec(l, pay, day);
            e.None? ==> Gains(l, l', l.nextTx, c, ByAdjustment(pay, c))
  {
    hide PostSpec, BooksMove, PostBook, AllPass, Seeded, ValidLedger, Gains, AdjustRef, ByAdjustment, WareAdjust;
    hide SellAdjust;
    var creation, bs := Plain(AdjustRef(pay)), AdjustBooks(l.chart, pay);
    if AllPass(bs, l.nextTx, day) {
      TwoMove(l.chart, pay.warehouse, WareAdjust(pay), pay.team, SellAdjust(pay), l.nextTx, day, c);
    }
    AdjustMoved(pay, c);
    PostGains(l, creation, bs, None, day, c, ByAdjustment(pay, c));
  }

  /** The debt of an adjustment: the selling team claims from the warehouse, and the warehouse owes it, exactly the
      worth of the lost and broken lines that carry the charge flag, each total only when it is positive. */
  lemma ChargesAreOwed(l: Ledger, pay: AdjustPayload, day: Day)
    requires ValidLedger(l) && Seeded(l.chart)
    ensures var (l', e), j := AdjustSpec(l, pay, day), l.journal;
            var debt := Positive(TotalOf(pay.losts, ChargedWorth())) + Positive(TotalOf(pay.brokens, ChargedWorth()));
            e.None? ==>
              && NetReceivable(l'.journal, pay.team, pay.warehouse) == NetReceivable(j, pay.team, pay.warehouse) + debt
              && NetPayable(l'.journal, pay.warehouse, pay.team) == NetPayable(j, pay.warehouse, pay.team) + debt
  {
    hide AdjustSpec, Seeded, ValidLedger, TotalOf;
    AdjustMoves(l, pay, day, Cell(pay.team, Receivable, pay.warehouse));
    AdjustMoves(l, pay, day, Cell(pay.warehouse, Payable, pay.team));
  }
}

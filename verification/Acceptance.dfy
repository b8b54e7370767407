/** Goods received, with their landed cost, and stock adjustments (stock/inbound_accept.go, stock/adjustment.go). */
module Acceptance {
  import opened Sums
  import opened Accounts
  import opened Journal
  import opened Books
  import opened Engine
  import opened References
  import opened Inbound

  datatype AcceptPayload = AcceptPayload(extTxId: nat, source: Source, team: TeamId, warehouse: TeamId,
                                         shippingFee: real, codFee: real,
                                         accepts: seq<Line>, losts: seq<Line>, brokens: seq<Line>, tags: seq<string>)

  // ---- landed cost ------------------------------------------------------------------------

  function Count(ls: seq<Line>): int {
    if ls == [] then 0 else Count(ls[..|ls| - 1]) + ls[|ls| - 1].count
  }

  /** The value of some goods with `fee` added to each item's price. */
  function SpreadValue(ls: seq<Line>, fee: real): real {
    if ls == [] then 0.0
    else SpreadValue(ls[..|ls| - 1], fee) + (ls[|ls| - 1].price + fee) * ls[|ls| - 1].count as real
  }

  function ItemCount(pay: AcceptPayload): int {
    Count(pay.accepts) + Count(pay.losts) + Count(pay.brokens)
  }

  /** The fees per item; None when they would be divided by no items. */
  function ExtPriceFee(pay: AcceptPayload): Option<real> {
    if pay.shippingFee == 0.0 && pay.codFee == 0.0 then Some(0.0)
    else if ItemCount(pay) == 0 then None
    else Some((pay.shippingFee + pay.codFee) / ItemCount(pay) as real)
  }

  function Goods(pay: AcceptPayload): real {
    GoodsValue(pay.accepts) + GoodsValue(pay.losts) + GoodsValue(pay.brokens)
  }

  function Accepted(pay: AcceptPayload, fee: real): real { SpreadValue(pay.accepts, fee) }
  function Lost(pay: AcceptPayload, fee: real): real { SpreadValue(pay.losts, fee) }
  function Broken(pay: AcceptPayload, fee: real): real { SpreadValue(pay.brokens, fee) }

  // ---- the two books of an acceptance -----------------------------------------------------

  function AcceptRef(pay: AcceptPayload): Option<RefId> {
    match pay.source
    case FromRestock => Some(NewRefID(StockAccept, pay.extTxId))
    case FromReturn => Some(NewRefID(StockReturnAccept, pay.extTxId))
    case FromTransfer => Some(NewRefID(StockTransferAccept, pay.extTxId))
    case OtherSource => None
  }

  /** An acceptance is labelled with its extra tags. */
  function AcceptCreation(ref: RefId, pay: AcceptPayload): Creation { Creation(ref, None, pay.tags) }

  function OneIf(c: bool, p: Post): seq<Post> { if c then [p] else [] }

  /** Goods leave the pending account and arrive as ready, broken or lost; `other` is the other side's team. */
  function GoodsPosts(other: TeamId, pay: AcceptPayload, fee: real): seq<Post> {
    [Post(AccountRef(StockPending, other), -Goods(pay)), Post(AccountRef(StockReady, other), Accepted(pay, fee))]
    + OneIf(Broken(pay, fee) > 0.0, Post(AccountRef(StockBroken, other), Broken(pay, fee)))
    + OneIf(Lost(pay, fee) > 0.0, Post(AccountRef(StockLost, other), Lost(pay, fee)))
  }

  function CodPosts(pay: AcceptPayload): seq<Post> {
    if pay.codFee == 0.0 then []
    else [Post(AccountRef(Cash, pay.warehouse), -pay.codFee), Post(AccountRef(StockCodFee, pay.warehouse), -pay.codFee),
          Post(AccountRef(Receivable, pay.team), pay.codFee)]
  }

  function WarePosts(pay: AcceptPayload, fee: real): seq<Post> {
    OneIf(pay.shippingFee != 0.0, Post(AccountRef(StockPending, pay.team), -pay.shippingFee))
    + CodPosts(pay) + GoodsPosts(pay.team, pay, fee)
  }

  function SellPosts(pay: AcceptPayload, fee: real): seq<Post> {
    OneIf(pay.shippingFee != 0.0, Post(AccountRef(StockPending, pay.warehouse), -pay.shippingFee))
    + OneIf(pay.codFee != 0.0, Post(AccountRef(Payable, pay.warehouse), pay.codFee))
    + GoodsPosts(pay.warehouse, pay, fee)
  }

  function AcceptBooks(chart: Chart, pay: AcceptPayload, fee: real): seq<Book> {
    [PostBook(chart, pay.warehouse, WarePosts(pay, fee)), PostBook(chart, pay.team, SellPosts(pay, fee))]
  }

  ghost function AcceptSpec(l: Ledger, pay: AcceptPayload, day: Day): (Ledger, Option<Error>) {
    match AcceptRef(pay)
    case None => (l, Some(NotSupported))
    case Some(ref) =>
      match ExtPriceFee(pay)
      case None =>
        var e := CreateError(l, AcceptCreation(ref, pay));
        (l, if e.Some? then e else Some(NotFinite))
      case Some(fee) => PostSpec(l, AcceptCreation(ref, pay), AcceptBooks(l.chart, pay, fee), None, day)
  }

  method CountItems(ls: seq<Line>) returns (n: int)
    ensures n == Count(ls)
  {
    n := 0;
    for i := 0 to |ls|
      invariant n == Count(ls[..i])
    {
      assert ls[..i + 1][..i] == ls[..i];
      n := n + ls[i].count;
    }
    assert ls[..|ls|] == ls;
  }

  method ExtraFee(pay: AcceptPayload) returns (fee: Option<real>)
    ensures fee == ExtPriceFee(pay)
  {
    if pay.shippingFee == 0.0 && pay.codFee == 0.0 {
      return Some(0.0);
    }
    var accepts := CountItems(pay.accepts);
    var losts := CountItems(pay.losts);
    var brokens := CountItems(pay.brokens);
    var n := accepts + losts + brokens;
    return if n == 0 then None else Some((pay.shippingFee + pay.codFee) / n as real);
  }

  /** One of the loops over the lines: their landed value, and their value without fees on top of `before`. */
  method SpreadGoods(ls: seq<Line>, fee: real, before: real) returns (landed: real, pending: real)
    ensures landed == SpreadValue(ls, fee) && pending == before + GoodsValue(ls)
  {
    landed, pending := 0.0, before;
    for i := 0 to |ls|
      invariant landed == SpreadValue(ls[..i], fee) && pending == before + GoodsValue(ls[..i])
    {
      assert ls[..i + 1][..i] == ls[..i];
      landed := landed + (ls[i].price + fee) * ls[i].count as real;
      pending := pending + ls[i].price * ls[i].count as real;
    }
    assert ls[..|ls|] == ls;
  }

  method DraftFees(ware: EntryBuilder, sell: EntryBuilder, pay: AcceptPayload)
    requires ware != sell && ware.posted == [] && sell.posted == []
    requires ware.Posting(ware.books.db.ledger.chart) && sell.Posting(sell.books.db.ledger.chart)
    modifies ware, sell
    ensures ware.Posting(ware.books.db.ledger.chart) && sell.Posting(sell.books.db.ledger.chart)
    ensures ware.posted ==
      OneIf(pay.shippingFee != 0.0, Post(AccountRef(StockPending, pay.team), -pay.shippingFee)) + CodPosts(pay)
    ensures sell.posted ==
      OneIf(pay.shippingFee != 0.0, Post(AccountRef(StockPending, pay.warehouse), -pay.shippingFee))
                           + OneIf(pay.codFee != 0.0, Post(AccountRef(Payable, pay.warehouse), pay.codFee))
  {
    hide PostAll, ToSpec;
    if pay.shippingFee != 0.0 {
      ware.From(AccountRef(StockPending, pay.team), pay.shippingFee);
      sell.From(AccountRef(StockPending, pay.warehouse), pay.shippingFee);
    }
    if pay.codFee != 0.0 {
      ware.From(AccountRef(Cash, pay.warehouse), pay.codFee);
      ware.From(AccountRef(StockCodFee, pay.warehouse), pay.codFee);
      ware.To(AccountRef(Receivable, pay.team), pay.codFee);
      sell.To(AccountRef(Payable, pay.warehouse), pay.codFee);
    }
  }

  method DraftGoods(entry: EntryBuilder, other: TeamId, pay: AcceptPayload, fee: real, pending: real, accept: real,
                    lost: real, broken: real)
    requires entry.Posting(entry.books.db.ledger.chart)
    requires pending == Goods(pay) && accept == Accepted(pay, fee) && lost == Lost(pay, fee)
    requires broken == Broken(pay, fee)
    modifies entry
    ensures entry.Posting(entry.books.db.ledger.chart)
    ensures entry.posted == old(entry.posted) + GoodsPosts(other, pay, fee)
  {
    hide PostAll, ToSpec;
    entry.From(AccountRef(StockPending, other), pending);
    entry.To(AccountRef(StockReady, other), accept);
    if broken > 0.0 {
      entry.To(AccountRef(StockBroken, other), broken);
    }
    if lost > 0.0 {
      entry.To(AccountRef(StockLost, other), lost);
    }
  }

  method BookAccept(books: BookManager, pay: AcceptPayload, fee: real, tx: TxId, day: Day) returns (err: Option<Error>)
    modifies books, books.db
    ensures (books.State(), err) ==
      RunBooks(old(books.State()), AcceptBooks(old(books.db.ledger.chart), pay, fee), tx, day)
  {
    hide RunBooks, RunBook, PostAll, GoodsValue, SpreadValue, Count;
    ghost var bs := AcceptBooks(books.db.ledger.chart, pay, fee);
    assert bs == [bs[0]] + [bs[1]];
    RunBooksAppend(books.State(), [bs[0]], [bs[1]], tx, day);
    var sell := books.NewCreateEntry(pay.team);
    var ware := books.NewCreateEntry(pay.warehouse);
    DraftFees(ware, sell, pay);
    var accept, pending := SpreadGoods(pay.accepts, fee, 0.0);
    var lost, pendingLost := SpreadGoods(pay.losts, fee, pending);
    var broken, pendingAll := SpreadGoods(pay.brokens, fee, pendingLost);
    DraftGoods(ware, pay.team, pay, fee, pendingAll, accept, lost, broken);
    DraftGoods(sell, pay.warehouse, pay, fee, pendingAll, accept, lost, broken);
    err := CommitBook(ware, tx, day);
    if err.Some? {
      return;
    }
    err := CommitBook(sell, tx, day);
  }

  method InboundAccept(db: Database, pay: AcceptPayload, day: Day) returns (err: Option<Error>)
    modifies db
    ensures (db.ledger, err) == AcceptSpec(old(db.ledger), pay, day)
  {
    hide RunBooks, RunBook, PostAll;
    var ref := AcceptRef(pay);
    if ref.None? {
      return Some(NotSupported);
    }
    var books := new BookManager.Begin(db);
    var failure, tx := books.CreateTransaction(AcceptCreation(ref.value, pay));
    if failure.Some? {
      err := books.End(failure);
      return;
    }
    var fee := ExtraFee(pay);
    if fee.None? {
      err := books.End(Some(NotFinite));
      return;
    }
    PostedNeverSkips(books.State(), AcceptBooks(db.ledger.chart, pay, fee.value), tx, day);
    failure := BookAccept(books, pay, fee.value, tx, day);
    err := books.End(failure);
  }

  // ---- stock adjustments ------------------------------------------------------------------

  datatype AdjustPayload = AdjustPayload(extTxId: nat, team: TeamId, warehouse: TeamId, losts: seq<Line>,
                                         brokens: seq<Line>)

  /** The part charged to the warehouse. */
  function Charged(ls: seq<Line>): real {
    if ls == [] then 0.0
    else Charged(ls[..|ls| - 1]) + if ls[|ls| - 1].charge then Value(ls[|ls| - 1]) else 0.0
  }

  function TwoIf(c: bool, p: Post, q: Post): seq<Post> { if c then [p, q] else [] }

  /** Ready stock becomes broken or lost; the lost goods are booked at the broken total. */
  function DamagePosts(other: TeamId, pay: AdjustPayload): seq<Post> {
    var broken := GoodsValue(pay.brokens);
    TwoIf(broken > 0.0, Post(AccountRef(StockReady, other), -broken), Post(AccountRef(StockBroken, other), broken))
    + TwoIf(GoodsValue(pay.losts) > 0.0, Post(AccountRef(StockReady, other), -broken),
            Post(AccountRef(StockLost, other), broken))
  }

  /** The warehouse owes what it is charged. */
  function OwedPosts(pay: AdjustPayload): seq<Post> {
    var lost, broken := Charged(pay.losts), Charged(pay.brokens);
    TwoIf(lost > 0.0, Post(AccountRef(StockLostCost, pay.team), lost), Post(AccountRef(Payable, pay.team), lost))
    + TwoIf(broken > 0.0, Post(AccountRef(StockBrokenCost, pay.team), broken),
            Post(AccountRef(Payable, pay.team), broken))
  }

  /** The selling team claims it. */
  function ClaimPosts(pay: AdjustPayload): seq<Post> {
    var lost, broken := Charged(pay.losts), Charged(pay.brokens);
    TwoIf(lost > 0.0, Post(AccountRef(StockLostCost, pay.warehouse), -lost),
          Post(AccountRef(Receivable, pay.warehouse), lost))
    + TwoIf(broken > 0.0, Post(AccountRef(StockBrokenCost, pay.warehouse), -broken),
            Post(AccountRef(Receivable, pay.warehouse), broken))
  }

  function WareAdjust(pay: AdjustPayload): seq<Post> { DamagePosts(pay.team, pay) + OwedPosts(pay) }
  function SellAdjust(pay: AdjustPayload): seq<Post> { DamagePosts(pay.warehouse, pay) + ClaimPosts(pay) }

  function AdjustBooks(chart: Chart, pay: AdjustPayload): seq<Book> {
    [PostBook(chart, pay.warehouse, WareAdjust(pay)), PostBook(chart, pay.team, SellAdjust(pay))]
  }

  function AdjustRef(pay: AdjustPayload): RefId { NewRefID(References.StockAdjustment, pay.extTxId) }

  ghost function AdjustSpec(l: Ledger, pay: AdjustPayload, day: Day): (Ledger, Option<Error>) {
    PostSpec(l, Plain(AdjustRef(pay)), AdjustBooks(l.chart, pay), None, day)
  }

  method ValueAndCharge(ls: seq<Line>) returns (value: real, charge: real)
    ensures value == GoodsValue(ls) && charge == Charged(ls)
  {
    value, charge := 0.0, 0.0;
    for i := 0 to |ls|
      invariant value == GoodsValue(ls[..i]) && charge == Charged(ls[..i])
    {
      assert ls[..i + 1][..i] == ls[..i];
      var amount := ls[i].price * ls[i].count as real;
      value := value + amount;
      if ls[i].charge {
        charge := charge + amount;
      }
    }
    assert ls[..|ls|] == ls;
  }

  method DraftDamage(entry: EntryBuilder, other: TeamId, pay: AdjustPayload, lost: real, broken: real)
    requires entry.Posting(entry.books.db.ledger.chart)
    requires lost == GoodsValue(pay.losts) && broken == GoodsValue(pay.brokens)
    modifies entry
    ensures entry.Posting(entry.books.db.ledger.chart) && entry.posted == old(entry.posted) + DamagePosts(other, pay)
  {
    hide PostAll, ToSpec;
    if broken > 0.0 {
      entry.From(AccountRef(StockReady, other), broken);
      entry.To(AccountRef(StockBroken, other), broken);
    }
    if lost > 0.0 {
      entry.From(AccountRef(StockReady, other), broken);
      entry.To(AccountRef(StockLost, other), broken);
    }
  }

  /** One charge, if it is positive: the warehouse owes it, the selling team claims it. */
  method DraftCharge(ware: EntryBuilder, sell: EntryBuilder, pay: AdjustPayload, cost: AccountKey, amount: real)
    requires ware != sell
    requires ware.Posting(ware.books.db.ledger.chart) && sell.Posting(sell.books.db.ledger.chart)
    modifies ware, sell
    ensures ware.Posting(ware.books.db.ledger.chart) && sell.Posting(sell.books.db.ledger.chart)
    ensures ware.posted == old(ware.posted) +
      TwoIf(amount > 0.0, Post(AccountRef(cost, pay.team), amount), Post(AccountRef(Payable, pay.team), amount))
    ensures sell.posted == old(sell.posted) +
      TwoIf(amount > 0.0, Post(AccountRef(cost, pay.warehouse), -amount),
            Post(AccountRef(Receivable, pay.warehouse), amount))
  {
    hide PostAll, ToSpec;
    if amount > 0.0 {
      ware.To(AccountRef(cost, pay.team), amount);
      ware.To(AccountRef(Payable, pay.team), amount);
      sell.From(AccountRef(cost, pay.warehouse), amount);
      sell.To(AccountRef(Receivable, pay.warehouse), amount);
    }
  }

  method DraftCharges(ware: EntryBuilder, sell: EntryBuilder, pay: AdjustPayload, lost: real, broken: real)
    requires ware != sell
    requires ware.Posting(ware.books.db.ledger.chart) && sell.Posting(sell.books.db.ledger.chart)
    requires lost == Charged(pay.losts) && broken == Charged(pay.brokens)
    modifies ware, sell
    ensures ware.Posting(ware.books.db.ledger.chart) && sell.Posting(sell.books.db.ledger.chart)
    ensures ware.posted == old(ware.posted) + OwedPosts(pay) && sell.posted == old(sell.posted) + ClaimPosts(pay)
  {
    hide PostAll, ToSpec, Charged, TwoIf;
    DraftCharge(ware, sell, pay, StockLostCost, lost);
    DraftCharge(ware, sell, pay, StockBrokenCost, broken);
  }

  method BookAdjustment(books: BookManager, pay: AdjustPayload, tx: TxId, day: Day) returns (err: Option<Error>)
    modifies books, books.db
    ensures (books.State(), err) == RunBooks(old(books.State()), AdjustBooks(old(books.db.ledger.chart), pay), tx, day)
  {
    hide RunBooks, RunBook, PostAll, DamagePosts, OwedPosts, ClaimPosts, GoodsValue, Charged;
    ghost var bs := AdjustBooks(books.db.ledger.chart, pay);
    assert bs == [bs[0]] + [bs[1]];
    RunBooksAppend(books.State(), [bs[0]], [bs[1]], tx, day);
    var sell := books.NewCreateEntry(pay.team);
    var ware := books.NewCreateEntry(pay.warehouse);
    var lost, lostCharge := ValueAndCharge(pay.losts);
    var broken, brokenCharge := ValueAndCharge(pay.brokens);
    DraftDamage(ware, pay.team, pay, lost, broken);
    DraftDamage(sell, pay.warehouse, pay, lost, broken);
    DraftCharges(ware, sell, pay, lostCharge, brokenCharge);
    assert ware.posted == WareAdjust(pay) && sell.posted == SellAdjust(pay);
    err := CommitBook(ware, tx, day);
    if err.Some? {
      return;
    }
    err := CommitBook(sell, tx, day);
  }

  method StockAdjustment(db: Database, pay: AdjustPayload, day: Day) returns (err: Option<Error>)
    modifies db
    ensures (db.ledger, err) == AdjustSpec(old(db.ledger), pay, day)
  {
    hide RunBooks, RunBook, PostAll;
    var books := new BookManager.Begin(db);
    var failure, tx := books.CreateTransaction(Plain(AdjustRef(pay)));
    if failure.Some? {
      err := books.End(failure);
      return;
    }
    PostedNeverSkips(books.State(), AdjustBooks(db.ledger.chart, pay), tx, day);
    failure := BookAdjustment(books, pay, tx, day);
    err := books.End(failure);
  }
}

/** A restock and its update (stock/inbound_created.go, stock/inbound_update.go). */
module Inbound {
  import opened Sums
  import opened Accounts
  import opened Journal
  import opened Books
  import opened Nets
  import opened Rollback
  import opened Engine
  import opened Mutation
  import opened References
  import opened Orders

  datatype Source = FromRestock | FromReturn | FromTransfer | OtherSource

  /** Goods of one price. Lost and broken goods may be charged to the warehouse. */
  datatype Line = Line(count: int, price: real, charge: bool)

  function Value(l: Line): real { l.price * l.count as real }

  function GoodsValue(ls: seq<Line>): real {
    if ls == [] then 0.0 else GoodsValue(ls[..|ls| - 1]) + Value(ls[|ls| - 1])
  }

  // ---- a restock and its update ---------------------------------------------------------

  datatype InboundPayload = InboundPayload(extTxId: nat, source: Source, team: TeamId, warehouse: TeamId,
                                           payWith: PaymentMethod, shippingFee: real, products: seq<Line>)

  function RestockRef(id: nat): RefId { NewRefID(Restock, id) }

  function PaymentPosts(pay: InboundPayload, total: real): seq<Post> {
    match PaidFrom(pay.payWith)
    case None => []
    case Some(key) => [Post(AccountRef(key, pay.team), -total)]
  }

  function Pending(pay: InboundPayload): AccountRef { AccountRef(StockPending, pay.warehouse) }

  function CreatePosts(pay: InboundPayload): seq<Post> {
    PaymentPosts(pay, GoodsValue(pay.products) + pay.shippingFee)
    + [Post(Pending(pay), GoodsValue(pay.products))]
    + (if pay.shippingFee > 0.0 then [Post(Pending(pay), pay.shippingFee)] else [])
  }

  function RestockCreation(pay: InboundPayload, tags: seq<string>): Creation {
    Creation(RestockRef(pay.extTxId), None, tags)
  }

  /** `InboundCreate`: whatever the source, the reference is a restock one. The tags are the payload's extra ones. */
  ghost function CreateSpec(l: Ledger, pay: InboundPayload, tags: seq<string>, day: Day): (Ledger, Option<Error>) {
    PostSpec(l, RestockCreation(pay, tags), [PostBook(l.chart, pay.team, CreatePosts(pay))], None, day)
  }

  method TotalGoods(products: seq<Line>) returns (goods: real)
    ensures goods == GoodsValue(products)
  {
    goods := 0.0;
    for i := 0 to |products|
      invariant goods == GoodsValue(products[..i])
    {
      assert products[..i + 1][..i] == products[..i];
      goods := goods + products[i].price * products[i].count as real;
    }
    assert products[..|products|] == products;
  }

  method DraftCreate(entry: EntryBuilder, pay: InboundPayload)
    requires entry.posted == [] && entry.Posting(entry.books.db.ledger.chart)
    modifies entry
    ensures entry.posted == CreatePosts(pay) && entry.Posting(entry.books.db.ledger.chart)
  {
    hide PostAll, ToSpec, GoodsValue;
    var goods := TotalGoods(pay.products);
    match pay.payWith {
      case PayCash => entry.From(AccountRef(Cash, pay.team), goods + pay.shippingFee);
      case PayShopeepay => entry.From(AccountRef(Shopeepay, pay.team), goods + pay.shippingFee);
      case PayOther =>
    }
    entry.To(Pending(pay), goods);
    if pay.shippingFee > 0.0 {
      entry.To(Pending(pay), pay.shippingFee);
    }
  }

  method InboundCreate(db: Database, pay: InboundPayload, tags: seq<string>, day: Day) returns (err: Option<Error>)
    modifies db
    ensures (db.ledger, err) == CreateSpec(old(db.ledger), pay, tags, day)
  {
    hide RunBooks, RunBook;
    var books := new BookManager.Begin(db);
    var failure, tx := books.CreateTransaction(RestockCreation(pay, tags));
    if failure.Some? {
      err := books.End(failure);
      return;
    }
    var entry := books.NewCreateEntry(pay.team);
    DraftCreate(entry, pay);
    PostedNeverSkips(books.State(), [PostBook(db.ledger.chart, pay.team, CreatePosts(pay))], tx, day);
    failure := CommitBook(entry, tx, day);
    err := books.End(failure);
  }

  function UpdateRef(pay: InboundPayload): Option<RefId> {
    match pay.source
    case FromRestock => Some(RestockRef(pay.extTxId))
    case FromReturn => Some(NewRefID(StockReturn, pay.extTxId))
    case _ => None
  }

  /** `AccountBalanceKey`: some account with the key, if there is one; which one is not determined. */
  ghost predicate PicksPending(m: map<AccountRef, ChangeBalance>, picked: Option<real>) {
    && (picked.None? <==> forall a :: a in m ==> a.key != StockPending)
    && (picked.Some? ==> exists a :: a in m && a.key == StockPending && m[a].Change() == picked.value)
  }

  method PendingBalance(m: map<AccountRef, ChangeBalance>) returns (picked: Option<real>)
    ensures PicksPending(m, picked)
  {
    var todo := m.Keys;
    while todo != {}
      invariant todo <= m.Keys
      invariant forall a :: a in m && a.key == StockPending ==> a in todo
    {
      var a :| a in todo;
      if a.key == StockPending {
        return Some(m[a].Change());
      }
      todo := todo - {a};
    }
    return None;
  }

  /** The goods of an update: its products, or else the old pending balance. */
  function UpdateGoods(pay: InboundPayload, old1: Option<real>): Option<real> {
    if pay.products != [] then Some(GoodsValue(pay.products)) else old1
  }

  function UpdateShipping(pay: InboundPayload, old2: Option<real>): real {
    if pay.shippingFee != 0.0 then pay.shippingFee else match old2 case None => 0.0 case Some(c) => c
  }

  function UpdatePosts(pay: InboundPayload, goods: real, shipping: real): seq<Post> {
    [Post(Pending(pay), goods)]
    + (if shipping != 0.0 then [Post(Pending(pay), shipping)] else [])
    + PaymentPosts(pay, goods + shipping)
  }

  ghost function UpdateBooks(l: Ledger, tx: TxId, pay: InboundPayload, old1: Option<real>,
                             old2: Option<real>): seq<Book> {
    [ReverseBook(l, tx, pay.team)] +
    match UpdateGoods(pay, old1)
    case None => []
    case Some(goods) => [PostBook(l.chart, pay.team, UpdatePosts(pay, goods, UpdateShipping(pay, old2)))]
  }

  /** `InboundUpdate`: reset the team's book of the transaction, then book the new payload. old1 and old2 are the
      pending balances it falls back to when there are no products or no shipping fee. */
  ghost function UpdateSpec(l: Ledger, pay: InboundPayload, old1: Option<real>, old2: Option<real>,
                            day: Day): (Ledger, Option<Error>) {
    match UpdateRef(pay)
    case None => (l, Some(NotSupported))
    case Some(ref) =>
      if ref !in l.txs then (l, Some(TransactionNotFound))
      else OpenSpec(l, l, l.txs[ref], UpdateBooks(l, l.txs[ref], pay, old1, old2),
                    if UpdateGoods(pay, old1).None? then Some(AccountNotFound) else None, day)
  }

  method ResetBook(books: BookManager, tx: TxId, team: TeamId, m: map<AccountRef, ChangeBalance>,
                   day: Day) returns (err: Option<Error>)
    requires ValidLedger(books.db.ledger)
    requires Balances(books.db.ledger.chart, Filter(books.db.ledger.journal, OfTxAndTeam(tx, team)), m)
    modifies books, books.db
    ensures (books.State(), err) == RunBooks(old(books.State()), [ReverseBook(old(books.db.ledger), tx, team)], tx, day)
    ensures books.db.ledger.chart == old(books.db.ledger.chart)
  {
    RunOneBook(books.State(), ReverseBook(books.db.ledger, tx, team), tx, day);
    hide RunBooks, CommitSpec, ReverseItems, PostAll;
    var entry := books.NewCreateEntry(team);
    ghost var ps := entry.Rollback(m);
    ResetIsReverse(books.db.ledger, tx, team, m, ps);
    assert entry.posted == ps;
    entry.Transaction(tx);
    entry.Commit(ROLLBACK, day);
    err := entry.err;
  }

  method DraftUpdate(entry: EntryBuilder, pay: InboundPayload, goods: real, shipping: real)
    requires entry.posted == [] && entry.Posting(entry.books.db.ledger.chart)
    modifies entry
    ensures entry.posted == UpdatePosts(pay, goods, shipping) && entry.Posting(entry.books.db.ledger.chart)
  {
    entry.To(Pending(pay), goods);
    if shipping != 0.0 {
      entry.To(Pending(pay), shipping);
    }
    match pay.payWith {
      case PayCash => entry.From(AccountRef(Cash, pay.team), goods + shipping);
      case PayShopeepay => entry.From(AccountRef(Shopeepay, pay.team), goods + shipping);
      case PayOther =>
    }
  }

  method RebookInbound(books: BookManager, tx: TxId, pay: InboundPayload, m: map<AccountRef, ChangeBalance>, day: Day)
    returns (err: Option<Error>, ghost old1: Option<real>, ghost old2: Option<real>)
    modifies books, books.db
    ensures PicksPending(m, old1) && PicksPending(m, old2)
    ensures UpdateGoods(pay, old1).None? ==> err == Some(AccountNotFound) && books.State() == old(books.State())
    ensures UpdateGoods(pay, old1).Some? ==> (books.State(), err) == RunBooks(old(books.State()),
      [PostBook(old(books.db.ledger.chart), pay.team, UpdatePosts(pay, UpdateGoods(pay, old1).value,
                                                                  UpdateShipping(pay, old2)))], tx, day)
  {
    hide RunBooks, RunBook;
    var entry := books.NewCreateEntry(pay.team);
    var goods, shipping := 0.0, pay.shippingFee;
    var picked := PendingBalance(m);
    var again := PendingBalance(m);
    old1, old2 := picked, again;
    if |pay.products| > 0 {
      goods := TotalGoods(pay.products);
    } else {
      if picked.None? {
        return Some(AccountNotFound), old1, old2;
      }
      goods := picked.value;
    }
    if pay.shippingFee == 0.0 && again.Some? {
      shipping := again.value;
    }
    DraftUpdate(entry, pay, goods, shipping);
    err := CommitBook(entry, tx, day);
  }

  lemma UpdateRuns(l: Ledger, s0: Session, tx: TxId, pay: InboundPayload, old1: Option<real>, old2: Option<real>,
                   day: Day)
    ensures var reset, books := [ReverseBook(l, tx, pay.team)], UpdateBooks(l, tx, pay, old1, old2);
            && books == reset + books[1..]
            && (UpdateGoods(pay, old1).None? ==> books[1..] == [])
            && RunBooks(s0, books, tx, day).1 != Some(SkipTransaction)
            && RunBooks(s0, books, tx, day) == if RunBooks(s0, reset, tx, day).1.Some? then RunBooks(s0, reset, tx, day)
                                               else RunBooks(RunBooks(s0, reset, tx, day).0, books[1..], tx, day)
  {
    hide RunBooks, RunBook;
    var reset, books := [ReverseBook(l, tx, pay.team)], UpdateBooks(l, tx, pay, old1, old2);
    assert books == reset + books[1..];
    RunBooksAppend(s0, reset, books[1..], tx, day);
    forall b | b in books
      ensures b.draft.err != Some(SkipTransaction)
    {
      if b !in reset {
        PostAllNeverSkips(l.chart, UpdatePosts(pay, UpdateGoods(pay, old1).value, UpdateShipping(pay, old2)));
      }
    }
    RunNeverSkips(s0, books, tx, day);
  }

  /** Something can always be picked. */
  lemma SomePick(m: map<AccountRef, ChangeBalance>) returns (picked: Option<real>)
    ensures PicksPending(m, picked)
  {
    if a :| a in m && a.key == StockPending {
      picked := Some(m[a].Change());
    } else {
      picked := None;
    }
  }

  /** m holds the old balances of the team's book; old1 and old2 are pending ones among them. */
  method InboundUpdate(db: Database, pay: InboundPayload, day: Day)
    returns (err: Option<Error>, ghost m: map<AccountRef, ChangeBalance>, ghost old1: Option<real>,
             ghost old2: Option<real>)
    requires ValidLedger(db.ledger)
    modifies db
    ensures (db.ledger, err) == UpdateSpec(old(db.ledger), pay, old1, old2, day)
    ensures UpdateRef(pay).Some? && UpdateRef(pay).value in old(db.ledger).txs ==>
      var l, tx := old(db.ledger), old(db.ledger).txs[UpdateRef(pay).value];
      Balances(l.chart, Filter(l.journal, OfTxAndTeam(tx, pay.team)), m) && PicksPending(m, old1)
      && PicksPending(m, old2)
  {
    hide RunBooks, RunBook, Balances, PicksPending;
    m, old1, old2 := map[], None, None;
    var ref := UpdateRef(pay);
    if ref.None? {
      return Some(NotSupported), m, old1, old2;
    }
    if ref.value !in db.ledger.txs {
      return Some(TransactionNotFound), m, old1, old2;
    }
    var tx := db.ledger.txs[ref.value];
    var books := new BookManager.Begin(db);
    ghost var l, s0 := db.ledger, books.State();
    var rows := FindEntries(db.ledger.journal, tx, Some(pay.team));
    EntriesKnown(db.ledger, tx, pay.team);
    var ok, balances := AccountBalance(db.ledger.chart, rows);
    m := balances;
    var failure := ResetBook(books, tx, pay.team, balances, day);
    if failure.None? {
      failure, old1, old2 := RebookInbound(books, tx, pay, balances, day);
    } else {
      old1 := SomePick(m);
      old2 := SomePick(m);
    }
    UpdateRuns(l, s0, tx, pay, old1, old2, day);
    RunNoBooks(books.State(), tx, day);
    err := books.End(failure);
  }
}

/** Restock updates without a shipping fee or without products fall back on the old pending balance; what that costs the
    register. */
module Reuse {
  import opened Sums
  import opened Accounts
  import opened Journal
  import opened Books
  import opened Nets
  import opened Rollback
  import opened Engine
  import opened Mutation
  import opened Orders
  import opened Inbound
  import opened Register
  import opened Moves
  import opened Balanced
  import opened OrderAcceptance
  import opened References
  import opened Effects
  import StockEffects

  // ---- what the fallback finds -------------------------------------------------------------

  /** An update of a restock that names its products and no shipping fee. */
  predicate Feeless(pay: InboundPayload) {
    pay.source == FromRestock && pay.products != [] && pay.shippingFee == 0.0
  }

  /** m holds the old balances of the team's book. */
  ghost predicate OldBalances(l: Ledger, tx: TxId, team: TeamId, m: map<AccountRef, ChangeBalance>) {
    Balances(l.chart, Filter(l.journal, OfTxAndTeam(tx, team)), m)
  }

  /** What the fallback adds to the new goods. */
  function Fallback(picked: Option<real>): real {
    match picked
    case None => 0.0
    case Some(c) => c
  }

  /** The fallback is the net of a pending account of the book, or zero when it has none. */
  lemma FallbackIsNet(l: Ledger, tx: TxId, team: TeamId, m: map<AccountRef, ChangeBalance>, picked: Option<real>)
    requires Seeded(l.chart) && OldBalances(l, tx, team, m) && PicksPending(m, picked)
    ensures picked.Some? ==> exists a: AccountRef ::
      a.key == StockPending && a in AccountsOf(l.journal, tx, team) && Net(l.journal, tx, team, a) == picked.value
    ensures picked.None? ==> forall a: AccountRef :: a.key == StockPending ==> Net(l.journal, tx, team, a) == 0.0
  {
    hide Balances, Net;
    if picked.None? {
      forall a: AccountRef | a.key == StockPending
        ensures Net(l.journal, tx, team, a) == 0.0
      {
        BalancesAreNets(l.chart, l.journal, tx, team, m, a);
        NoRowNoNet(l.journal, tx, team, a);
      }
    } else {
      var a :| a in m && a.key == StockPending && m[a].Change() == picked.value;
      BalancesAreNets(l.chart, l.journal, tx, team, m, a);
      PendingSide(l.chart, m, Filter(l.journal, OfTxAndTeam(tx, team)), a);
    }
  }

  lemma PendingSide(chart: Chart, m: map<AccountRef, ChangeBalance>, rows: multiset<Row>, a: AccountRef)
    requires Seeded(chart) && Balances(chart, rows, m) && a in m && a.key == StockPending
    ensures m[a].Change() == m[a].debit - m[a].credit
  {
  }

  // ---- what such an update does ------------------------------------------------------------

  /** The pending account as a cell of the team's book. */
  function PendingCell(pay: InboundPayload): Cell { Cell(pay.team, StockPending, pay.warehouse) }

  /** The new book of an update without a shipping fee. */
  function ReusedBook(chart: Chart, pay: InboundPayload, pending: real): Book {
    PostBook(chart, pay.team, UpdatePosts(pay, GoodsValue(pay.products), pending))
  }

  lemma UpdateReuses(l: Ledger, pay: InboundPayload, old1: Option<real>, old2: Option<real>, day: Day)
    requires Feeless(pay) && RestockRef(pay.extTxId) in l.txs
    ensures var tx := l.txs[RestockRef(pay.extTxId)];
            UpdateSpec(l, pay, old1, old2, day) ==
            OpenSpec(l, l, tx, [ReverseBook(l, tx, pay.team), ReusedBook(l.chart, pay, Fallback(old2))], None, day)
  {
    var tx := l.txs[RestockRef(pay.extTxId)];
    assert UpdateBooks(l, tx, pay, old1, old2) ==
           [ReverseBook(l, tx, pay.team), ReusedBook(l.chart, pay, Fallback(old2))];
  }

  /** An accepted update without a shipping fee leaves pending the new goods plus the fallback. */
  lemma ReusedPending(l: Ledger, pay: InboundPayload, old1: Option<real>, old2: Option<real>, day: Day)
    requires ValidLedger(l) && Seeded(l.chart) && RestockRef(pay.extTxId) in l.txs && Feeless(pay)
    ensures var (l', e) := UpdateSpec(l, pay, old1, old2, day);
            e.None? ==> Net(l'.journal, l.txs[RestockRef(pay.extTxId)], pay.team, Pending(pay)) ==
                        GoodsValue(pay.products) + Fallback(old2)
  {
    hide UpdateSpec, RestockRef, ValidLedger, Seeded, Net, GoodsValue, StockEffects.TotalOf;
    StockEffects.UpdateMoves(l, pay, old1, old2, day, l.txs[RestockRef(pay.extTxId)], PendingCell(pay));
    StockEffects.GoodsTotal(pay.products);
  }

  /** A creation leaves its pending total in the pending account of its book, and that is never zero. */
  lemma CreatedPending(l: Ledger, pay: InboundPayload, tags: seq<string>, day: Day)
    requires ValidLedger(l) && Seeded(l.chart)
    ensures var (l', e) := CreateSpec(l, pay, tags, day);
            e.None? ==> Net(l'.journal, l.nextTx, pay.team,
                            Pending(pay)) == PendingTotal(pay) && PendingTotal(pay) != 0.0
  {
    hide CreateSpec, ValidLedger, Seeded, Net, BookBalance, GoodsValue, RepeatsNewTag, StockEffects.TotalOf, Found;
    StockEffects.RestockMoves(l, pay, tags, day, PendingCell(pay));
    StockEffects.GoodsTotal(pay.products);
    RestockAcceptedExactlyWhen(l, pay, tags, day);
  }

  /** Both bookings of a payload leave the same nets in the team's book. */
  ghost predicate SameNets(j: multiset<Row>, tx: TxId, j': multiset<Row>, tx': TxId, team: TeamId) {
    forall a :: Net(j, tx, team, a) == Net(j', tx', team, a)
  }

  /** The register law holds for an accepted update without a shipping fee exactly when the pending balance it falls
      back on is zero. */
  lemma RegisterNeedsShipping(l: Ledger, pay: InboundPayload, old1: Option<real>, old2: Option<real>, day: Day,
                              other: Ledger, tags: seq<string>, later: Day)
    requires ValidLedger(l) && Seeded(l.chart) && RestockRef(pay.extTxId) in l.txs && Feeless(pay)
    requires UpdateSpec(l, pay, old1, old2, day).1.None?
    requires ValidLedger(other) && other.chart == l.chart && CreateSpec(other, pay, tags, later).1.None?
    ensures SameNets(UpdateSpec(l, pay, old1, old2, day).0.journal, l.txs[RestockRef(pay.extTxId)],
                     CreateSpec(other, pay, tags, later).0.journal, other.nextTx, pay.team)
            <==> Fallback(old2) == 0.0
  {
    hide UpdateSpec, CreateSpec, RestockRef, ValidLedger, Seeded, Net;
    var tx := l.txs[RestockRef(pay.extTxId)];
    var j, j' := UpdateSpec(l, pay, old1, old2, day).0.journal, CreateSpec(other, pay, tags, later).0.journal;
    ReusedPending(l, pay, old1, old2, day);
    CreatedPending(other, pay, tags, later);
    if Fallback(old2) == 0.0 {
      forall a
        ensures Net(j, tx, pay.team, a) == Net(j', other.nextTx, pay.team, a)
      {
        NothingReused(l, pay, old1, old2, day, other, tags, later, a);
      }
    } else {
      assert Net(j, tx, pay.team, Pending(pay)) != Net(j', other.nextTx, pay.team, Pending(pay));
    }
  }

  /** With nothing to fall back on, the update leaves what a fresh creation does. */
  lemma NothingReused(l: Ledger, pay: InboundPayload, old1: Option<real>, old2: Option<real>, day: Day,
                      other: Ledger, tags: seq<string>, later: Day, a: AccountRef)
    requires ValidLedger(l) && Seeded(l.chart) && RestockRef(pay.extTxId) in l.txs && Feeless(pay)
    requires ValidLedger(other) && other.chart == l.chart && Fallback(old2) == 0.0
    ensures var (l', e), (m, f) := UpdateSpec(l, pay, old1, old2, day), CreateSpec(other, pay, tags, later);
            e.None? && f.None? ==>
              Net(l'.journal, l.txs[RestockRef(pay.extTxId)], pay.team, a) ==
              Net(m.journal, other.nextTx, pay.team, a)
  {
    hide UpdateSpec, CreateSpec, RestockRef, ValidLedger, Seeded, Net, BookBalance, StockEffects.TotalOf, SeedSide;
    var c := Cell(pay.team, a.key, a.team);
    assert Account(c) == a;
    StockEffects.UpdateMoves(l, pay, old1, old2, day, l.txs[RestockRef(pay.extTxId)], c);
    StockEffects.RestockMoves(other, pay, tags, later, c);
  }

  /** Without products there is no creation to compare with: it would be refused in any ledger. */
  lemma NoProductsNoCreation(l: Ledger, pay: InboundPayload, tags: seq<string>, day: Day)
    requires ValidLedger(l) && pay.products == []
    ensures CreateSpec(l, pay, tags, day).1.Some?
  {
    hide CreateSpec;
    CreateRegisters(l, pay, tags, day);
    var ps := CreatePosts(pay);
    var p := Post(Pending(pay), GoodsValue(pay.products));
    assert p in ps;
    PostAllAccepts(l.chart, ps);
    assert PostError(l.chart, p).Some?;
  }

  // ---- in a registered restock -------------------------------------------------------------

  /** In a registered restock only the held payload's pending account is not at zero, so the fallback is its pending
      total, or zero when another warehouse's account is picked. */
  lemma HeldFallback(l: Ledger, tx: TxId, held: InboundPayload, m: map<AccountRef, ChangeBalance>, picked: Option<real>)
    requires Registers(l, tx, held) && Seeded(l.chart) && OldBalances(l, tx, held.team, m) && PicksPending(m, picked)
    ensures Net(l.journal, tx, held.team, Pending(held)) == PendingTotal(held) && PendingTotal(held) != 0.0
    ensures Fallback(picked) == PendingTotal(held) || Fallback(picked) == 0.0
    ensures OnlyPending(l.journal, tx, held) ==> Fallback(picked) == PendingTotal(held)
  {
    hide Net, OldBalances, PicksPending, Good, Holds;
    FallbackIsNet(l, tx, held.team, m, picked);
    HeldNet(l, tx, held, Pending(held));
    HeldTotal(l, tx, held);
    if picked.Some? {
      var a: AccountRef :| a.key == StockPending && a in AccountsOf(l.journal, tx, held.team)
               && Net(l.journal, tx, held.team, a) == picked.value;
      HeldNet(l, tx, held, a);
    }
  }

  /** The book's only pending account is the held payload's. */
  ghost predicate OnlyPending(j: multiset<Row>, tx: TxId, held: InboundPayload) {
    forall a :: a in AccountsOf(j, tx, held.team) && a.key == StockPending ==> a == Pending(held)
  }

  lemma HeldNet(l: Ledger, tx: TxId, held: InboundPayload, a: AccountRef)
    requires Registers(l, tx, held) && Seeded(l.chart) && a.key == StockPending
    ensures Net(l.journal, tx, held.team, a) == if a == Pending(held) then PendingTotal(held) else 0.0
  {
    hide CreatePosts, GoodsValue, PendingTotal;
    var b := FreshBook(l.chart, held);
    BookShapes(l.chart, held);
    assert Net(l.journal, tx, b.team, a) == BookNet(b, b.team, a);
    GoodBook(b, tx, 0);
    BookMoves(l.chart, held.team, CreatePosts(held), tx, 0, held.team, a);
    CreateMovesPending(held);
    if a != Pending(held) { OtherPending(held, a); }
  }

  lemma OtherPending(pay: InboundPayload, a: AccountRef)
    requires a.key == StockPending && a != Pending(pay)
    ensures Moved(CreatePosts(pay), a) == 0.0
  {
    hide GoodsValue;
    NotMoved(CreatePosts(pay), a);
  }

  lemma HeldTotal(l: Ledger, tx: TxId, held: InboundPayload)
    requires Registers(l, tx, held) && Seeded(l.chart)
    ensures PendingTotal(held) != 0.0
  {
    hide CreatePosts, PendingTotal, GoodPosts, FreshBook;
    HeldGood(l.chart, held, tx);
    PostsMovePending(l.chart, held);
  }

  lemma HeldGood(chart: Chart, held: InboundPayload, tx: TxId)
    requires Good(FreshBook(chart, held))
    ensures GoodPosts(chart, CreatePosts(held))
  {
    hide CreatePosts, GoodPosts, Good;
    BookShapes(chart, held);
    GoodBook(FreshBook(chart, held), tx, 0);
    SingleAccepts(chart, held.team, CreatePosts(held), tx, 0);
  }

  lemma PostsMovePending(chart: Chart, pay: InboundPayload)
    requires GoodPosts(chart, CreatePosts(pay))
    ensures PendingTotal(pay) != 0.0
  {
    hide GoodsValue, PendingTotal;
    CreateMovesPending(pay);
    assert Post(Pending(pay), GoodsValue(pay.products)) in CreatePosts(pay);
  }

  /** An update of a registered restock without a shipping fee is accepted exactly when its posts, the fallback among
      them, are good. */
  lemma FeelessAccepted(l: Ledger, tx: TxId, held: InboundPayload, pay: InboundPayload, old1: Option<real>,
                        old2: Option<real>, day: Day)
    requires Registers(l, tx, held) && Feeless(pay) && pay.extTxId == held.extTxId && pay.team == held.team
    ensures UpdateSpec(l, pay, old1, old2, day).1.None? <==>
      GoodPosts(l.chart, UpdatePosts(pay, GoodsValue(pay.products), Fallback(old2)))
  {
    hide UpdateSpec, OpenSpec, ReverseBook, Accepts, Good, GoodPosts, Holds, UpdatePosts, PostBook;
    var b := ReusedBook(l.chart, pay, Fallback(old2));
    BookShapes(l.chart, held);
    ReusedShape(l.chart, pay, Fallback(old2));
    UpdateReuses(l, pay, old1, old2, day);
    HeldIsReversible(l, tx, FreshBook(l.chart, held));
    RebookAccepts(l, tx, b, day);
    TransactionEffect(l, l, tx, [ReverseBook(l, tx, pay.team), b], None, day);
    GoodBook(b, tx, day);
    SingleAccepts(l.chart, pay.team, UpdatePosts(pay, GoodsValue(pay.products), Fallback(old2)), tx, day);
  }

  lemma ReusedShape(chart: Chart, pay: InboundPayload, pending: real)
    ensures var b := ReusedBook(chart, pay, pending); b.saves && b.opts == NO_OPTIONS && b.team == pay.team
  {
  }

  /** The posts of an update are good exactly when goods and total are not zero, the total is paid or under the
      tolerance, and the accounts exist. */
  lemma UpdatePostsGood(chart: Chart, pay: InboundPayload, goods: real, shipping: real)
    requires Seeded(chart)
    ensures GoodPosts(chart, UpdatePosts(pay, goods, shipping)) <==>
      && goods != 0.0 && goods + shipping != 0.0 && (PaidFrom(pay.payWith).None? ==> Abs(goods + shipping) < EPSILON)
      && Found(chart, UpdatePosts(pay, goods, shipping))
  {
    hide Seeded, Found, Signed, Nonzero, AllMove, NoneFails;
    var ps := UpdatePosts(pay, goods, shipping);
    SeededPostErrors(chart, ps);
    UpdateNonzero(pay, goods, shipping);
    if Found(chart, ps) { UpdateSigned(chart, pay, goods, shipping); }
  }

  lemma UpdateNonzero(pay: InboundPayload, goods: real, shipping: real)
    ensures UpdatePosts(pay, goods, shipping) != []
    ensures Nonzero(UpdatePosts(pay, goods, shipping)) <==>
      goods != 0.0 && (PaidFrom(pay.payWith).Some? ==> goods + shipping != 0.0)
    ensures AllMove(UpdatePosts(pay, goods, shipping)) <==> goods + shipping != 0.0
  {
    var ps := UpdatePosts(pay, goods, shipping);
    assert ps[0] == Post(Pending(pay), goods) && ps[0] in ps;
    StockEffects.UpdateMoved(pay, goods, shipping, PendingCell(pay));
    if PaidFrom(pay.payWith).Some? {
      var paid := Post(AccountRef(PaidFrom(pay.payWith).value, pay.team), -(goods + shipping));
      assert ps[|ps| - 1] == paid && paid in ps;
      StockEffects.UpdateMoved(pay, goods, shipping, Cell(pay.team, paid.account.key, pay.team));
    }
  }

  lemma UpdateSigned(chart: Chart, pay: InboundPayload, goods: real, shipping: real)
    requires Seeded(chart) && Found(chart, UpdatePosts(pay, goods, shipping))
    ensures Signed(chart, UpdatePosts(pay, goods, shipping)) ==
      if PaidFrom(pay.payWith).Some? then 0.0 else goods + shipping
  {
    hide Seeded, Found, Signed, PaymentPosts;
    var first, second := [Post(Pending(pay), goods)], if shipping != 0.0 then [Post(Pending(pay), shipping)] else [];
    var paid := PaymentPosts(pay, goods + shipping);
    FoundParts(chart, first + second, paid);
    FoundParts(chart, first, second);
    SignedConcat(chart, first + second, paid);
    SignedConcat(chart, first, second);
    SignedSingle(chart, first[0]);
    if shipping == 0.0 { SignedNone(chart); } else { SignedSingle(chart, second[0]); }
    PaymentSigned(chart, pay, goods + shipping);
  }

  /** Every accepted update without a shipping fee breaks the register law, to whatever warehouse, as long as the book's
      only pending account is the held payload's: it adds all that was pending to what a fresh creation leaves. */
  lemma FeelessUpdateBreaks(l: Ledger, tx: TxId, held: InboundPayload, pay: InboundPayload,
                            m: map<AccountRef, ChangeBalance>, old1: Option<real>, old2: Option<real>, day: Day,
                            other: Ledger, tags: seq<string>, later: Day)
    requires Registers(l, tx, held) && Seeded(l.chart) && OnlyPending(l.journal, tx, held)
    requires Feeless(pay) && pay.extTxId == held.extTxId && pay.team == held.team
    requires OldBalances(l, tx, pay.team, m) && PicksPending(m, old2) && UpdateSpec(l, pay, old1, old2, day).1.None?
    requires ValidLedger(other) && other.chart == l.chart && CreateSpec(other, pay, tags, later).1.None?
    ensures Net(UpdateSpec(l, pay, old1, old2, day).0.journal, tx, pay.team, Pending(pay)) ==
      Net(CreateSpec(other, pay, tags, later).0.journal, other.nextTx, pay.team, Pending(pay)) + PendingTotal(held)
    ensures PendingTotal(held) != 0.0
  {
    hide CreateSpec, UpdateSpec, OldBalances, PicksPending, OnlyPending, Good, Holds, Seeded, Net, RestockRef;
    HeldFallback(l, tx, held, m, old2);
    CreatedPending(other, pay, tags, later);
    ReusedPending(l, pay, old1, old2, day);
  }

  // ---- where the book has one pending account ----------------------------------------------

  lemma CreatedPosts(pay: InboundPayload, a: AccountRef)
    requires a.key == StockPending && exists p :: p in CreatePosts(pay) && p.account == a
    ensures a == Pending(pay)
  {
    hide GoodsValue;
  }

  lemma FreshRows(chart: Chart, pay: InboundPayload, tx: TxId, day: Day, r: Row)
    requires r in BookRows(FreshBook(chart, pay), tx, day) && r.account.key == StockPending
    ensures r.account == Pending(pay)
  {
    hide CreatePosts;
    CommitRowsFrom(BookItems(FreshBook(chart, pay), tx), pay.team, NO_OPTIONS, day, r);
    PostAllKeys(chart, CreatePosts(pay), r.account);
    CreatedPosts(pay, r.account);
  }

  /** A creation makes such a book. */
  lemma CreatedOnlyPending(l: Ledger, held: InboundPayload, tags: seq<string>, day: Day)
    requires ValidLedger(l) && CreateSpec(l, held, tags, day).1.None?
    ensures OnlyPending(CreateSpec(l, held, tags, day).0.journal, l.nextTx, held)
  {
    hide OpenSpec, FreshBook, RestockCreation, BookRows, Message, Accepts;
    var c, b := RestockCreation(held, tags), FreshBook(l.chart, held);
    var j := CreateSpec(l, held, tags, day).0.journal;
    CreateIsPost(l, held, tags, day);
    TransactionEffect(l, WithTransaction(l, c), l.nextTx, [b], None, day);
    OneBookRows(b, l.nextTx, day);
    forall r | r in j && r.tx == l.nextTx && r.account.key == StockPending
      ensures r.account == Pending(held)
    {
      FreshRows(l.chart, held, l.nextTx, day, r);
    }
  }

  lemma UpdatedPosts(pay: InboundPayload, goods: real, shipping: real, a: AccountRef)
    requires a.key == StockPending && exists p :: p in UpdatePosts(pay, goods, shipping) && p.account == a
    ensures a == Pending(pay)
  {
  }

  lemma UpdatedRows(l: Ledger, tx: TxId, pay: InboundPayload, day: Day, r: Row)
    requires r in BooksRows([ReverseBook(l, tx, pay.team), UpdatedBook(l.chart, pay)], tx, day)
    ensures r.account.key == StockPending ==>
      r.account in AccountsOf(l.journal, tx, pay.team) || r.account == Pending(pay)
  {
    hide UpdatePosts, GoodsValue, Net, PostAll;
    BooksRowsFrom([ReverseBook(l, tx, pay.team), UpdatedBook(l.chart, pay)], tx, day, r);
    PostAllKeys(l.chart, UpdatePosts(pay, GoodsValue(pay.products), pay.shippingFee), r.account);
    if r.account.key == StockPending && r.account in UpdatedBook(l.chart, pay).draft.items {
      UpdatedPosts(pay, GoodsValue(pay.products), pay.shippingFee, r.account);
    }
  }

  /** A full update on the same warehouse keeps it such a book. */
  lemma UpdateKeepsOnlyPending(l: Ledger, tx: TxId, held: InboundPayload, pay: InboundPayload, old1: Option<real>,
                               old2: Option<real>, day: Day)
    requires Registers(l, tx, held) && OnlyPending(l.journal, tx, held) && Full(pay)
    requires pay.extTxId == held.extTxId && pay.team == held.team && pay.warehouse == held.warehouse
    ensures OnlyPending(UpdateSpec(l, pay, old1, old2, day).0.journal, tx, pay)
  {
    hide OpenSpec, ReverseBook, UpdatedBook, UpdateSpec, Full, Accepts, Message;
    var bs := [ReverseBook(l, tx, pay.team), UpdatedBook(l.chart, pay)];
    UpdateIsRebook(l, pay, old1, old2, day);
    TransactionEffect(l, l, tx, bs, None, day);
    var j := UpdateSpec(l, pay, old1, old2, day).0.journal;
    forall r | r in j && r.tx == tx && r.team == pay.team && r.account.key == StockPending
      ensures r.account == Pending(pay)
    {
      if r !in l.journal { UpdatedRows(l, tx, pay, day, r); }
    }
  }

  lemma CreateIsPost(l: Ledger, pay: InboundPayload, tags: seq<string>, day: Day)
    requires CreateSpec(l, pay, tags, day).1.None?
    ensures var c := RestockCreation(pay, tags);
            CreateSpec(l, pay, tags, day) ==
            OpenSpec(l, WithTransaction(l, c), l.nextTx, [FreshBook(l.chart, pay)], None, day)
  {
  }

  lemma OneBookRows(b: Book, tx: TxId, day: Day)
    ensures BooksRows([b], tx, day) == BookRows(b, tx, day)
  {
    assert BooksRows([b], tx, day) == BookRows(b, tx, day) + BooksRows([], tx, day);
  }

  /** Any rows on existing accounts have balances. */
  lemma SomeBalances(chart: Chart, rows: multiset<Row>) returns (m: map<AccountRef, ChangeBalance>)
    requires forall r :: r in rows ==> r.account in chart
    ensures Balances(chart, rows, m)
  {
    var accounts := set r | r in rows :: r.account;
    m := map a | a in accounts && a in chart :: ChangeBalance(chart[a], Sum(rows, DebitOn(a)), Sum(rows, CreditOn(a)));
  }

  const CASH := AccountRef(Cash, 1)
  const PENDING := AccountRef(StockPending, 2)
  const SMALL_CHART: Chart := map[CASH := DebitBalance, PENDING := DebitBalance]
  const NOTHING_YET := Ledger(SMALL_CHART, map[], {}, multiset{}, map[], 1, multiset{})
  const HELD := InboundPayload(7, FromRestock, 1, 2, PayCash, 2.0, [Line(1, 10.0, false)])
  const FEELESS := InboundPayload(7, FromRestock, 1, 2, PayCash, 0.0, [Line(1, 7.0, false)])

  lemma OneLine(price: real)
    ensures GoodsValue([Line(1, price, false)]) == price
  {
    assert [Line(1, price, false)][..0] == [];
    assert GoodsValue([Line(1, price, false)]) == GoodsValue([]) + Value(Line(1, price, false));
  }

  lemma SmallCreations()
    ensures CreateSpec(NOTHING_YET, HELD, [], 0).1.None? && CreateSpec(NOTHING_YET, FEELESS, [], 0).1.None?
    ensures PendingTotal(HELD) == 12.0
  {
    hide PostSpec;
    OneLine(10.0);
    OneLine(7.0);
    RestockAcceptedExactlyWhen(NOTHING_YET, HELD, [], 0);
    RestockAcceptedExactlyWhen(NOTHING_YET, FEELESS, [], 0);
  }

  /** Such a run: goods of 10 with a fee of 2, then an update to goods of 7 without a fee. It is accepted, and leaves 19
      pending where a creation of the update alone leaves 7. */
  lemma BrokenRegister() returns (m: map<AccountRef, ChangeBalance>, picked: Option<real>)
    ensures CreateSpec(NOTHING_YET, HELD, [], 0).1.None? && CreateSpec(NOTHING_YET, FEELESS, [], 0).1.None?
    ensures var l := CreateSpec(NOTHING_YET, HELD, [], 0).0;
            && OldBalances(l, 1, 1, m) && PicksPending(m, picked)
            && UpdateSpec(l, FEELESS, picked, picked, 0).1.None?
            && Net(UpdateSpec(l, FEELESS, picked, picked, 0).0.journal, 1, 1, PENDING) == 19.0
    ensures Net(CreateSpec(NOTHING_YET, FEELESS, [], 0).0.journal, 1, 1, PENDING) == 7.0
  {
    hide CreateSpec, UpdateSpec, Balances, PicksPending, OnlyPending, Good, Holds, Net, RestockRef, GoodPosts;
    hide UpdatePosts;
    hide GoodsValue;
    SmallCreations();
    OneLine(7.0);
    CreateRegisters(NOTHING_YET, HELD, [], 0);
    CreatedPending(NOTHING_YET, FEELESS, [], 0);
    CreatedOnlyPending(NOTHING_YET, HELD, [], 0);
    var l := CreateSpec(NOTHING_YET, HELD, [], 0).0;
    EntriesKnown(l, 1, 1);
    m := SomeBalances(l.chart, Filter(l.journal, OfTxAndTeam(1, 1)));
    picked := SomePick(m);
    HeldFallback(l, 1, HELD, m, picked);
    FeelessAccepted(l, 1, HELD, FEELESS, picked, picked, 0);
    UpdatePostsGood(l.chart, FEELESS, 7.0, 12.0);
    SmallUpdateFound();
    ReusedPending(l, FEELESS, picked, picked, 0);
  }

  lemma SmallUpdateFound()
    ensures Found(SMALL_CHART, UpdatePosts(FEELESS, 7.0, 12.0))
  {
  }
}

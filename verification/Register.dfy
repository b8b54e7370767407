/** A restock behaves as a register over its append-only journal: the last accepted update is what it holds. */
module Register {
  import opened Sums
  import opened Accounts
  import opened Journal
  import opened Books
  import opened Nets
  import opened Rollback
  import opened Orders
  import opened Inbound

  // ---- a team's book that holds what one posted book would -------------------------------

  /** The book is accepted as the only one of a transaction. */
  ghost predicate Good(b: Book) {
    && b.saves && b.opts == NO_OPTIONS && b.draft.err.None? && b.draft.items != map[]
    && Close(TotalDebit(b.draft.items), TotalCredit(b.draft.items)) && NoneEqual([b])
  }

  lemma GoodBook(b: Book, tx: TxId, day: Day)
    requires b.saves && b.opts == NO_OPTIONS
    ensures Good(b) <==> Accepts([b], tx, None, day)
    ensures Good(b) <==> Passes(b, tx, day) && NoneEqual([b])
    ensures Good(b) ==> BookEmitted(b, tx, day) != multiset{}
  {
    assert b in [b];
    assert BooksEmitted([b], tx, day) == BookEmitted(b, tx, day) + BooksEmitted([], tx, day);
    if NoneEqual([b]) && b.draft.err.None? {
      UnequalBookPasses(b, tx, day);
    }
  }

  /** The nets of a team's book of a transaction are those of b. */
  ghost predicate Holds(j: multiset<Row>, tx: TxId, b: Book) {
    forall a :: Net(j, tx, b.team, a) == BookNet(b, b.team, a)
  }

  /** A book that holds what another would is balanced like it. */
  lemma HeldImbalance(j: multiset<Row>, tx: TxId, b: Book)
    requires b.saves && Holds(j, tx, b)
    ensures Imbalance(j, tx, b.team) == TotalDebit(b.draft.items) - TotalCredit(b.draft.items)
  {
    var items := b.draft.items;
    var net := (a: AccountRef) => DebitOf(items)(a) - CreditOf(items)(a);
    SumMinus(multiset(items.Keys), DebitOf(items), CreditOf(items), net);
    forall a
      ensures Net(j, tx, b.team, a) != 0.0 ==> a in items.Keys
      ensures a in items.Keys ==> net(a) == Net(j, tx, b.team, a)
    {
      assert Net(j, tx, b.team, a) == BookNet(b, b.team, a);
    }
    ImbalanceIsNets(j, tx, b.team, items.Keys, net);
  }

  /** So a book that holds what a good one would can be reversed. */
  lemma HeldIsReversible(l: Ledger, tx: TxId, b: Book)
    requires Good(b) && Holds(l.journal, tx, b)
    ensures Reversible(l, tx, b.team)
  {
    var items := b.draft.items;
    var a :| a in items;
    assert b in [b];
    assert !Skipped(items[a], b.opts);
    assert Net(l.journal, tx, b.team, a) == BookNet(b, b.team, a);
    HeldImbalance(l.journal, tx, b);
  }

  // ---- a reset followed by a new book ----------------------------------------------------

  /** Reversing a reversible book and booking a new one is accepted exactly when the new one is good. */
  lemma RebookAccepts(l: Ledger, tx: TxId, b: Book, day: Day)
    requires ValidLedger(l) && b.saves && b.opts == NO_OPTIONS && Reversible(l, tx, b.team)
    ensures Accepts([ReverseBook(l, tx, b.team), b], tx, None, day) <==> Good(b)
  {
    hide Good, Reversible, Passes;
    var r := ReverseBook(l, tx, b.team);
    ReversePasses(l, tx, b.team, day);
    ReverseEmits(l, tx, b.team, day);
    GoodBook(b, tx, day);
    ReverseUnequal(l, tx, b.team);
    assert r in [r] && b in [b] && r in [r, b] && b in [r, b];
    assert NoneEqual([r, b]) <==> NoneEqual([r]) && NoneEqual([b]);
    assert BooksEmitted([r, b], tx, day) == BookEmitted(r, tx, day) + BooksEmitted([r, b][1..], tx, day);
    assert AllPass([r, b], tx, day) <==> Passes(r, tx, day) && Passes(b, tx, day);
  }

  lemma ReverseUnequal(l: Ledger, tx: TxId, team: TeamId)
    ensures NoneEqual([ReverseBook(l, tx, team)])
  {
  }

  /** The team's book then holds the new one. */
  lemma RebookHolds(l: Ledger, tx: TxId, b: Book, day: Day)
    requires ValidLedger(l) && OpenSpec(l, l, tx, [ReverseBook(l, tx, b.team), b], None, day).1.None?
    ensures Holds(OpenSpec(l, l, tx, [ReverseBook(l, tx, b.team), b], None, day).0.journal, tx, b)
  {
    hide OpenSpec, ReverseBook;
    var r := ReverseBook(l, tx, b.team);
    forall a
      ensures Net(OpenSpec(l, l, tx, [r, b], None, day).0.journal, tx, b.team, a) == BookNet(b, b.team, a)
    {
      NetAfterOpen(l, l, tx, [r, b], None, day, tx, b.team, a);
      TwoBooksNet(r, b, b.team, a);
      ReverseItemsNet(l, tx, b.team, a);
    }
  }

  lemma TwoBooksNet(r: Book, b: Book, team: TeamId, a: AccountRef)
    ensures BooksNet([r, b], team, a) == BookNet(r, team, a) + BookNet(b, team, a)
  {
    assert [r, b][1..] == [b] && [b][1..] == [];
    assert BooksNet([b], team, a) == BookNet(b, team, a) + BooksNet([], team, a);
  }

  lemma OneBookHolds(l: Ledger, c: Creation, b: Book, day: Day)
    requires ValidLedger(l) && PostSpec(l, c, [b], None, day).1.None?
    ensures Holds(PostSpec(l, c, [b], None, day).0.journal, l.nextTx, b)
  {
    hide OpenSpec;
    var l1 := WithTransaction(l, c);
    forall a
      ensures Net(PostSpec(l, c, [b], None, day).0.journal, l.nextTx, b.team, a) == BookNet(b, b.team, a)
    {
      NetAfterOpen(l, l1, l.nextTx, [b], None, day, l.nextTx, b.team, a);
      NewTransactionEmpty(l, b.team, a);
      assert BooksNet([b], b.team, a) == BookNet(b, b.team, a) + BooksNet([], b.team, a);
    }
  }

  // ---- restocks --------------------------------------------------------------------------

  /** An update that names its goods and its shipping fee, so that nothing of the old booking is reused. */
  ghost predicate Full(pay: InboundPayload) {
    pay.source == FromRestock && pay.products != [] && pay.shippingFee > 0.0
  }

  function FreshBook(chart: Chart, pay: InboundPayload): Book { PostBook(chart, pay.team, CreatePosts(pay)) }

  function UpdatedBook(chart: Chart, pay: InboundPayload): Book {
    PostBook(chart, pay.team, UpdatePosts(pay, GoodsValue(pay.products), pay.shippingFee))
  }

  /** A full update posts what a fresh creation posts, in another order. */
  lemma UpdatePostsWhatCreatePosts(chart: Chart, pay: InboundPayload)
    requires Full(pay)
    ensures UpdatedBook(chart, pay).draft.items == FreshBook(chart, pay).draft.items
    ensures UpdatedBook(chart, pay).draft.err.None? <==> FreshBook(chart, pay).draft.err.None?
  {
    var goods := GoodsValue(pay.products);
    var paid := PaymentPosts(pay, goods + pay.shippingFee);
    var pending := [Post(Pending(pay), goods)] + [Post(Pending(pay), pay.shippingFee)];
    assert CreatePosts(pay) == paid + pending && UpdatePosts(pay, goods, pay.shippingFee) == pending + paid;
    assert multiset(paid + pending) == multiset(pending + paid);
    PostOrderIrrelevant(chart, pending + paid, paid + pending);
  }

  lemma SameItemsSameBook(b: Book, c: Book, j: multiset<Row>, tx: TxId)
    requires b.saves && c.saves && b.opts == c.opts && b.team == c.team && b.draft.items == c.draft.items
    requires b.draft.err.None? <==> c.draft.err.None?
    ensures Good(b) <==> Good(c)
    ensures Holds(j, tx, b) <==> Holds(j, tx, c)
  {
    assert b in [b] && c in [c];
    assert forall a :: BookNet(b, b.team, a) == BookNet(c, c.team, a);
  }

  /** The ledger has the restock's transaction, and the team's book of it holds what a fresh creation of pay would. */
  ghost predicate Registers(l: Ledger, tx: TxId, pay: InboundPayload) {
    && ValidLedger(l) && RestockRef(pay.extTxId) in l.txs && l.txs[RestockRef(pay.extTxId)] == tx
    && Good(FreshBook(l.chart, pay)) && Holds(l.journal, tx, FreshBook(l.chart, pay))
  }

  lemma UpdateIsRebook(l: Ledger, pay: InboundPayload, old1: Option<real>, old2: Option<real>, day: Day)
    requires Full(pay) && RestockRef(pay.extTxId) in l.txs
    ensures var tx := l.txs[RestockRef(pay.extTxId)];
            UpdateSpec(l, pay, old1, old2, day) ==
            OpenSpec(l, l, tx, [ReverseBook(l, tx, pay.team), UpdatedBook(l.chart, pay)], None, day)
  {
    var tx := l.txs[RestockRef(pay.extTxId)];
    assert UpdateBooks(l, tx, pay, old1, old2) == [ReverseBook(l, tx, pay.team), UpdatedBook(l.chart, pay)];
  }

  lemma UpdateBooksKnown(l: Ledger, tx: TxId, pay: InboundPayload)
    ensures BooksKnown(l.chart, [ReverseBook(l, tx, pay.team), UpdatedBook(l.chart, pay)])
  {
    PostedBooksKnown(l.chart, [UpdatedBook(l.chart, pay)]);
    assert UpdatedBook(l.chart, pay) in [UpdatedBook(l.chart, pay)];
  }

  /** One update: accepted exactly when a fresh creation of it would be, and then registered. */
  lemma UpdateRegisters(l: Ledger, tx: TxId, held: InboundPayload, pay: InboundPayload, old1: Option<real>,
                        old2: Option<real>, day: Day)
    requires Registers(l, tx, held) && Full(pay) && pay.extTxId == held.extTxId && pay.team == held.team
    ensures UpdateSpec(l, pay, old1, old2, day).1.None? <==> Good(FreshBook(l.chart, pay))
    ensures UpdateSpec(l, pay, old1, old2, day).1.None? ==> Registers(UpdateSpec(l, pay, old1, old2, day).0, tx, pay)
    ensures UpdateSpec(l, pay, old1, old2, day).0.chart == l.chart
  {
    hide Full, Good, Holds, ReverseBook, UpdatedBook, FreshBook, UpdateSpec, OpenSpec, Accepts;
    BookShapes(l.chart, held);
    BookShapes(l.chart, pay);
    var b := UpdatedBook(l.chart, pay);
    UpdateIsRebook(l, pay, old1, old2, day);
    HeldIsReversible(l, tx, FreshBook(l.chart, held));
    RebookAccepts(l, tx, b, day);
    TransactionEffect(l, l, tx, [ReverseBook(l, tx, pay.team), b], None, day);
    UpdatePostsWhatCreatePosts(l.chart, pay);
    var l' := UpdateSpec(l, pay, old1, old2, day).0;
    SameItemsSameBook(b, FreshBook(l.chart, pay), l'.journal, tx);
    UpdateBooksKnown(l, tx, pay);
    OpenKeepsValid(l, l, tx, [ReverseBook(l, tx, pay.team), b], None, day);
    if UpdateSpec(l, pay, old1, old2, day).1.None? {
      RebookHolds(l, tx, b, day);
    }
  }

  lemma BookShapes(chart: Chart, pay: InboundPayload)
    ensures var b := FreshBook(chart, pay); b.saves && b.opts == NO_OPTIONS && b.team == pay.team
    ensures var b := UpdatedBook(chart, pay); b.saves && b.opts == NO_OPTIONS && b.team == pay.team
  {
  }

  /** Creation: accepted exactly when its reference is new and its book good, and then registered. */
  lemma CreateRegisters(l: Ledger, pay: InboundPayload, tags: seq<string>, day: Day)
    requires ValidLedger(l)
    ensures CreateSpec(l, pay, tags, day).1.None? <==>
      CreateError(l, RestockCreation(pay, tags)).None? && Good(FreshBook(l.chart, pay))
    ensures CreateSpec(l, pay, tags, day).1.None? ==> Registers(CreateSpec(l, pay, tags, day).0, l.nextTx, pay)
    ensures CreateSpec(l, pay, tags, day).0.chart == l.chart
  {
    hide Good, Holds, OpenSpec, Accepts, RestockRef, RepeatsNewTag;
    var c, b := RestockCreation(pay, tags), FreshBook(l.chart, pay);
    PostAccepted(l, c, [b], None, day);
    GoodBook(b, l.nextTx, day);
    PostedBooksKnown(l.chart, [b]);
    PostKeepsValid(l, c, [b], None, day);
    PostAddsRef(l, c, [b], None, day);
    if CreateSpec(l, pay, tags, day).1.None? {
      OneBookHolds(l, c, b, day);
    }
  }

  datatype Update = Update(pay: InboundPayload, day: Day)

  /** A run of updates; a refused one changes nothing. Full updates reuse no old balance. */
  ghost function Updates(l: Ledger, us: seq<Update>): Ledger
    decreases |us|
  {
    if us == [] then l
    else UpdateSpec(Updates(l, us[..|us| - 1]), us[|us| - 1].pay, None, None, us[|us| - 1].day).0
  }

  /** The last payload among the creation and its updates that a fresh creation would accept. */
  ghost function LastGood(chart: Chart, first: InboundPayload, us: seq<Update>): InboundPayload
    decreases |us|
  {
    if us == [] then first
    else if Good(FreshBook(chart, us[|us| - 1].pay)) then us[|us| - 1].pay
    else LastGood(chart, first, us[..|us| - 1])
  }

  /** Full updates of the same restock. */
  ghost predicate UpdatesOf(first: InboundPayload, us: seq<Update>) {
    forall u :: u in us ==> Full(u.pay) && u.pay.extTxId == first.extTxId && u.pay.team == first.team
  }

  lemma {:induction false} UpdatesRegister(l: Ledger, tx: TxId, first: InboundPayload, us: seq<Update>)
    requires Registers(l, tx, first) && UpdatesOf(first, us)
    ensures Updates(l, us).chart == l.chart
    ensures Registers(Updates(l, us), tx, LastGood(l.chart, first, us))
    ensures LastGood(l.chart, first, us).extTxId == first.extTxId && LastGood(l.chart, first, us).team == first.team
    decreases |us|
  {
    hide Registers, Good, FreshBook, UpdateSpec, Full;
    if us != [] {
      var init, u := us[..|us| - 1], us[|us| - 1];
      assert u in us;
      UpdatesRegister(l, tx, first, init);
      UpdateRegisters(Updates(l, init), tx, LastGood(l.chart, first, init), u.pay, None, None, u.day);
      UpdateAtomic(Updates(l, init), u.pay, None, None, u.day);
    }
  }

  lemma UpdateAtomic(l: Ledger, pay: InboundPayload, old1: Option<real>, old2: Option<real>, day: Day)
    ensures UpdateSpec(l, pay, old1, old2, day).1.Some? ==> UpdateSpec(l, pay, old1, old2, day).0 == l
  {
    hide OpenSpec, Accepts;
    if UpdateRef(pay).Some? && UpdateRef(pay).value in l.txs {
      var tx := l.txs[UpdateRef(pay).value];
      TransactionEffect(l, l, tx, UpdateBooks(l, tx, pay, old1, old2),
                        if UpdateGoods(pay, old1).None? then Some(AccountNotFound) else None, day);
    }
  }

  /** The append-only journal is a register: after a creation and any full updates, accepted or refused, every account's
      net in the team's book of the restock is the one that a single creation of the last acceptable payload leaves in
      any other ledger with the same accounts. */
  lemma {:induction false} JournalIsRegister(l: Ledger, first: InboundPayload, tags: seq<string>, day: Day,
                                             us: seq<Update>,
                                             other: Ledger, otherTags: seq<string>, later: Day, a: AccountRef)
    requires ValidLedger(l) && CreateSpec(l, first, tags, day).1.None? && UpdatesOf(first, us)
    requires ValidLedger(other) && other.chart == l.chart && CreateError(other, RestockCreation(first, otherTags)).None?
    ensures var last := LastGood(l.chart, first, us);
            && CreateSpec(other, last, otherTags, later).1.None?
            && Net(Updates(CreateSpec(l, first, tags, day).0, us).journal, l.nextTx, first.team, a)
               == Net(CreateSpec(other, last, otherTags, later).0.journal, other.nextTx, first.team, a)
  {
    var last, l' := LastGood(l.chart, first, us), CreateSpec(l, first, tags, day).0;
    CreateRegisters(l, first, tags, day);
    UpdatesRegister(l', l.nextTx, first, us);
    CreateRegisters(other, last, otherTags, later);
    assert Net(Updates(l', us).journal, l.nextTx, last.team, a) == BookNet(FreshBook(l.chart, last), last.team, a);
    assert Net(CreateSpec(other, last, otherTags, later).0.journal, other.nextTx, last.team, a) ==
      BookNet(FreshBook(l.chart, last), last.team, a);
  }
}

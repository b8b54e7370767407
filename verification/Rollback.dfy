/** Cancelling a transaction by appending reversing rows (accounting_core/transaction.go, `RollbackEntry`,
    `CheckEntry`). */
module Rollback {
  import opened Sums
  import opened Accounts
  import opened Journal
  import opened Books
  import opened Nets

  /** References are unique and number the transactions that exist; every row belongs to one of them and
      sits on an existing account with a known side. */
  ghost predicate ValidLedger(l: Ledger) {
    && (forall ref :: ref in l.txs ==> 0 < l.txs[ref] < l.nextTx)
    && (forall ref, ref' :: ref in l.txs && ref' in l.txs && l.txs[ref] == l.txs[ref'] ==> ref == ref')
    && (forall r :: r in l.journal ==> 0 < r.tx < l.nextTx && Known(l.chart, r.account))
  }

  predicate Known(chart: Chart, a: AccountRef) {
    a in chart && chart[a] != OtherBalance
  }

  ghost function TeamsOf(j: multiset<Row>, tx: TxId): set<TeamId> {
    set r | r in j && r.tx == tx :: r.team
  }

  ghost function AccountsOf(j: multiset<Row>, tx: TxId, team: TeamId): set<AccountRef> {
    set r | r in j && r.tx == tx && r.team == team :: r.account
  }

  /** The entry that brings an account with debit excess `raw` back to zero. */
  function Reverse(raw: real): Item {
    if raw > 0.0 then Item(0.0, raw, 0) else Item(-raw, 0.0, 0)
  }

  /** What is set for a team: one reversing entry per account that is not already at zero. */
  ghost function ReverseItems(chart: Chart, j: multiset<Row>, tx: TxId, team: TeamId): map<AccountRef, Item> {
    map a | a in AccountsOf(j, tx, team) && Known(chart, a)
    && Net(j, tx, team, a) != 0.0 :: Reverse(Net(j, tx, team, a))
  }

  ghost function ReverseBook(l: Ledger, tx: TxId, team: TeamId): Book {
    Book(team, Draft(ReverseItems(l.chart, l.journal, tx, team), None), ROLLBACK, true)
  }

  ghost function ReverseBooks(l: Ledger, tx: TxId, order: seq<TeamId>): seq<Book> {
    seq(|order|, i requires 0 <= i < |order| => ReverseBook(l, tx, order[i]))
  }

  /** Each team of the transaction exactly once, in the order the team map was ranged over. */
  ghost predicate Enumerates(order: seq<TeamId>, teams: set<TeamId>) {
    && (forall i, j :: 0 <= i < j < |order| ==> order[i] != order[j])
    && (forall t :: t in order <==> t in teams)
  }

  ghost function RollbackSpec(l: Ledger, tx: TxId, order: seq<TeamId>, day: Day): (Ledger, Option<Error>) {
    if TeamsOf(l.journal, tx) == {} then (l, Some(TransactionHasNoEntries))
    else OpenSpec(l, l, tx, ReverseBooks(l, tx, order), None, day)
  }

  lemma NoRowNoNet(j: multiset<Row>, tx: TxId, team: TeamId, a: AccountRef)
    requires a !in AccountsOf(j, tx, team)
    ensures Net(j, tx, team, a) == 0.0
  {
    SumZero(j, Raw(At(tx, team, a)));
  }

  ghost function RowAccount(): Row -> AccountRef { (r: Row) => r.account }

  /** A book's imbalance is the total of its account nets. */
  lemma ImbalanceIsNets(j: multiset<Row>, tx: TxId, team: TeamId, keys: set<AccountRef>, net: AccountRef -> real)
    requires forall a :: a in AccountsOf(j, tx, team) && Net(j, tx, team, a) != 0.0 ==> a in keys
    requires forall a :: a in keys ==> net(a) == Net(j, tx, team, a)
    ensures Imbalance(j, tx, team) == Sum(multiset(keys), net)
  {
    var f, all := Raw(InTx(tx, team)), AccountsOf(j, tx, team) + keys;
    SumByGroup(j, f, RowAccount(), all);
    forall a | a in all
      ensures GroupTotal(j, f, RowAccount())(a) == Net(j, tx, team, a)
    {
      SumSame(j, Group(f, RowAccount(), a), Raw(At(tx, team, a)));
    }
    var total := (a: AccountRef) => Net(j, tx, team, a);
    SumSame(multiset(all), GroupTotal(j, f, RowAccount()), total);
    assert multiset(all) == multiset(keys) + multiset(all - keys);
    SumUnion(multiset(keys), multiset(all - keys), total);
    SumZero(multiset(all - keys), total);
    SumSame(multiset(keys), total, net);
  }

  ghost predicate Reversible(l: Ledger, tx: TxId, team: TeamId) {
    (exists a :: Net(l.journal, tx, team, a) != 0.0) && Abs(Imbalance(l.journal, tx, team)) < EPSILON
  }

  /** The reversing book posts minus the net of every account. */
  lemma ReverseItemsNet(l: Ledger, tx: TxId, team: TeamId, a: AccountRef)
    requires ValidLedger(l)
    ensures BookNet(ReverseBook(l, tx, team), team, a) == -Net(l.journal, tx, team, a)
  {
    if a !in AccountsOf(l.journal, tx, team) {
      NoRowNoNet(l.journal, tx, team, a);
    }
  }

  lemma ReverseTotals(l: Ledger, tx: TxId, team: TeamId)
    requires ValidLedger(l)
    ensures var items := ReverseItems(l.chart, l.journal, tx, team);
            TotalDebit(items) - TotalCredit(items) == -Imbalance(l.journal, tx, team)
  {
    var items := ReverseItems(l.chart, l.journal, tx, team);
    var net := (a: AccountRef) => CreditOf(items)(a) - DebitOf(items)(a);
    SumMinus(multiset(items.Keys), CreditOf(items), DebitOf(items), net);
    ImbalanceIsNets(l.journal, tx, team, items.Keys, net);
  }

  /** A commit of unequal entries saves at least one row and emits at least one entry. */
  lemma SomethingCommitted(items: map<AccountRef, Item>, a: AccountRef, team: TeamId, opts: CommitOptions, day: Day)
    requires a in items && !Skipped(items[a], opts)
    ensures CommitRows(items, team, opts, day) != multiset{}
    ensures CommitEmitted(items, team, opts, day) != multiset{}
  {
    var r, e := RowOf(a, Settle(items[a], opts), team, opts, day),
      Emitted(RowOf(a, Settle(items[a], opts), team, opts, day), true);
    assert r in RowsAt(items, team, opts, day)(a) && e in EmittedAt(items, team, opts, day)(a);
    BagMember(items.Keys, RowsAt(items, team, opts, day), r);
    BagMember(items.Keys, EmittedAt(items, team, opts, day), e);
  }

  /** A book with no equal-sided entry passes exactly when it has an entry and its sides meet. */
  lemma UnequalBookPasses(b: Book, tx: TxId, day: Day)
    requires b.saves && b.draft.err.None?
    requires forall a :: a in b.draft.items ==> !Skipped(b.draft.items[a], b.opts)
    ensures Passes(b, tx, day) <==> b.draft.items != map[] && Close(TotalDebit(b.draft.items),
                                                                    TotalCredit(b.draft.items))
    ensures b.draft.items != map[] ==> BookEmitted(b, tx, day) != multiset{}
  {
    if b.draft.items != map[] {
      TotalsIgnoreTx(b.draft, tx);
      var items := BookItems(b, tx);
      var a :| a in b.draft.items;
      assert items[a] == b.draft.items[a].(tx := tx);
      SomethingCommitted(items, a, b.team, b.opts, day);
    }
  }

  lemma ReverseItemsAt(l: Ledger, tx: TxId, team: TeamId, a: AccountRef)
    requires ValidLedger(l)
    ensures a in ReverseItems(l.chart, l.journal, tx, team) <==> Net(l.journal, tx, team, a) != 0.0
  {
    if a !in AccountsOf(l.journal, tx, team) { NoRowNoNet(l.journal, tx, team, a); }
  }

  lemma ReverseItemsSome(l: Ledger, tx: TxId, team: TeamId)
    requires ValidLedger(l)
    ensures ReverseItems(l.chart, l.journal, tx, team) != map[] <==> exists a :: Net(l.journal, tx, team, a) != 0.0
  {
    if a :| Net(l.journal, tx, team, a) != 0.0 {
      ReverseItemsAt(l, tx, team, a);
    }
    if ReverseItems(l.chart, l.journal, tx, team) != map[] {
      var a :| a in ReverseItems(l.chart, l.journal, tx, team);
      ReverseItemsAt(l, tx, team, a);
    }
  }

  lemma ReverseBookUnequal(l: Ledger, tx: TxId, team: TeamId, a: AccountRef)
    requires a in ReverseItems(l.chart, l.journal, tx, team)
    ensures !Skipped(ReverseItems(l.chart, l.journal, tx, team)[a], ROLLBACK)
  {
  }

  lemma ReversePasses(l: Ledger, tx: TxId, team: TeamId, day: Day)
    requires ValidLedger(l)
    ensures Passes(ReverseBook(l, tx, team), tx, day) <==> Reversible(l, tx, team)
  {
    hide Passes, ReverseItems, Net, Imbalance, ValidLedger;
    forall a | a in ReverseItems(l.chart, l.journal, tx, team) { ReverseBookUnequal(l, tx, team, a); }
    UnequalBookPasses(ReverseBook(l, tx, team), tx, day);
    ReverseTotals(l, tx, team);
    ReverseItemsSome(l, tx, team);
  }

  lemma ReverseEmits(l: Ledger, tx: TxId, team: TeamId, day: Day)
    requires ValidLedger(l) && Reversible(l, tx, team)
    ensures BookEmitted(ReverseBook(l, tx, team), tx, day) != multiset{}
  {
    hide Passes, ReverseItems, Net, Imbalance, BookEmitted, ValidLedger;
    forall a | a in ReverseItems(l.chart, l.journal, tx, team) { ReverseBookUnequal(l, tx, team, a); }
    UnequalBookPasses(ReverseBook(l, tx, team), tx, day);
    ReverseItemsSome(l, tx, team);
  }

  lemma {:induction false} ReverseBooksNet(l: Ledger, tx: TxId, order: seq<TeamId>, team: TeamId, a: AccountRef)
    requires ValidLedger(l) && forall i, j :: 0 <= i < j < |order| ==> order[i] != order[j]
    ensures BooksNet(ReverseBooks(l, tx, order), team, a) == if team in order then -Net(l.journal, tx, team, a) else 0.0
    decreases |order|
  {
    if order != [] {
      var t, rest := order[0], order[1..];
      assert forall u :: u in order <==> u == t || u in rest;
      assert ReverseBooks(l, tx, order)[1..] == ReverseBooks(l, tx, rest);
      ReverseBooksNet(l, tx, rest, team, a);
      if t == team {
        ReverseItemsNet(l, tx, team, a);
        assert team !in rest;
      }
    }
  }

  lemma {:induction false} ReverseBooksEmit(l: Ledger, tx: TxId, order: seq<TeamId>, day: Day)
    requires ValidLedger(l) && order != []
    requires forall t :: t in order ==> Reversible(l, tx, t)
    ensures BooksEmitted(ReverseBooks(l, tx, order), tx, day) != multiset{}
  {
    ReverseEmits(l, tx, order[0], day);
    assert ReverseBooks(l, tx, order)[0] == ReverseBook(l, tx, order[0]);
  }

  lemma ReverseBooksUnequal(l: Ledger, tx: TxId, order: seq<TeamId>)
    ensures NoneEqual(ReverseBooks(l, tx, order))
  {
  }

  lemma ReverseBooksPass(l: Ledger, tx: TxId, order: seq<TeamId>, day: Day)
    requires ValidLedger(l)
    ensures AllPass(ReverseBooks(l, tx, order), tx, day) <==> forall t :: t in order ==> Reversible(l, tx, t)
  {
    var bs := ReverseBooks(l, tx, order);
    forall t | t in order
      ensures Passes(ReverseBook(l, tx, t), tx, day) <==> Reversible(l, tx, t)
      ensures ReverseBook(l, tx, t) in bs
    {
      ReversePasses(l, tx, t, day);
      var i :| 0 <= i < |order| && order[i] == t;
      assert bs[i] == ReverseBook(l, tx, t);
    }
    forall b | b in bs
      ensures exists t :: t in order && b == ReverseBook(l, tx, t)
    {
      var i :| 0 <= i < |order| && bs[i] == b;
      assert order[i] in order;
    }
  }

  /** Rollback succeeds exactly when the transaction has rows and, in every team's book, a nonzero account and an
      imbalance under the tolerance; and it is atomic. */
  lemma RollbackAccepted(l: Ledger, tx: TxId, order: seq<TeamId>, day: Day)
    requires ValidLedger(l) && Enumerates(order, TeamsOf(l.journal, tx))
    ensures var (l', e) := RollbackSpec(l, tx, order, day);
            && (e.None? <==>
                  TeamsOf(l.journal, tx) != {} && forall t :: t in TeamsOf(l.journal, tx) ==> Reversible(l, tx, t))
            && (e.Some? ==> l' == l)
            && (e.None? ==> l' == l.(journal := l.journal + BooksRows(ReverseBooks(l, tx, order), tx, day),
                                     pending := l.pending + Message(ReverseBooks(l, tx, order), tx, day)))
  {
    var teams := TeamsOf(l.journal, tx);
    if teams != {} {
      TransactionEffect(l, l, tx, ReverseBooks(l, tx, order), None, day);
      ReverseBooksPass(l, tx, order, day);
      ReverseBooksUnequal(l, tx, order);
      if forall t :: t in order ==> Reversible(l, tx, t) {
        ReverseBooksEmit(l, tx, order, day);
      }
    }
  }

  /** Rollback is exact: afterwards every account of the transaction is at zero in every book, no other
      transaction has moved, and the old rows are all still there. */
  lemma RollbackIsExact(l: Ledger, tx: TxId, order: seq<TeamId>, day: Day)
    requires ValidLedger(l) && Enumerates(order, TeamsOf(l.journal, tx))
    ensures var (l', e) := RollbackSpec(l, tx, order, day);
            e.None? ==>
              && l.journal <= l'.journal
              && (forall team, a :: Net(l'.journal, tx, team, a) == 0.0)
              && (forall x, team, a :: x != tx ==> Net(l'.journal, x, team, a) == Net(l.journal, x, team, a))
  {
    hide RollbackSpec, ValidLedger, Reversible, Message, Net, BooksRows, ReverseBooks;
    RollbackAccepted(l, tx, order, day);
    var (l', e) := RollbackSpec(l, tx, order, day);
    forall x, team, a
      ensures e.None? ==> Net(l'.journal, x, team, a) == if x == tx then 0.0 else Net(l.journal, x, team, a)
    {
      RollbackNet(l, tx, order, day, x, team, a);
    }
  }

  lemma RollbackNet(l: Ledger, tx: TxId, order: seq<TeamId>, day: Day, x: TxId, team: TeamId, a: AccountRef)
    requires ValidLedger(l) && Enumerates(order, TeamsOf(l.journal, tx))
    ensures Net(l.journal + BooksRows(ReverseBooks(l, tx, order), tx, day), x, team, a) ==
      if x == tx then 0.0 else Net(l.journal, x, team, a)
  {
    var bs := ReverseBooks(l, tx, order);
    SumUnion(l.journal, BooksRows(bs, tx, day), Raw(At(x, team, a)));
    NetOfBooks(bs, tx, day, x, team, a);
    ReverseBooksNet(l, tx, order, team, a);
    if team !in order {
      NoRowNoNet(l.journal, tx, team, a);
    }
  }

  // ---- what every transaction keeps ----------------------------------------------------

  ghost predicate BooksKnown(chart: Chart, bs: seq<Book>) {
    forall b, a :: b in bs && a in b.draft.items ==> Known(chart, a)
  }

  lemma {:induction false} BooksRowsFrom(bs: seq<Book>, tx: TxId, day: Day, r: Row)
    requires r in BooksRows(bs, tx, day)
    ensures r.tx == tx && exists b :: b in bs && r.account in b.draft.items
    decreases |bs|
  {
    var b, rest := bs[0], bs[1..];
    if r in BookRows(b, tx, day) {
      CommitRowsFrom(BookItems(b, tx), b.team, b.opts, day, r);
      assert b in bs;
    } else {
      BooksRowsFrom(rest, tx, day, r);
      assert forall c :: c in rest ==> c in bs;
    }
  }

  lemma OpenKeepsValid(l: Ledger, l1: Ledger, tx: TxId, bs: seq<Book>, tail: Option<Error>, day: Day)
    requires ValidLedger(l) && ValidLedger(l1) && 0 < tx < l1.nextTx && BooksKnown(l1.chart, bs)
    ensures ValidLedger(OpenSpec(l, l1, tx, bs, tail, day).0)
  {
    TransactionEffect(l, l1, tx, bs, tail, day);
    forall r | r in BooksRows(bs, tx, day)
      ensures 0 < r.tx < l1.nextTx && Known(l1.chart, r.account)
    {
      BooksRowsFrom(bs, tx, day, r);
    }
  }

  lemma PostKeepsValid(l: Ledger, c: Creation, bs: seq<Book>, tail: Option<Error>, day: Day)
    requires ValidLedger(l) && BooksKnown(l.chart, bs)
    ensures ValidLedger(PostSpec(l, c, bs, tail, day).0)
  {
    if CreateError(l, c).None? {
      OpenKeepsValid(l, WithTransaction(l, c), l.nextTx, bs, tail, day);
    }
  }

  lemma RollbackKeepsValid(l: Ledger, tx: TxId, order: seq<TeamId>, day: Day)
    requires ValidLedger(l)
    ensures ValidLedger(RollbackSpec(l, tx, order, day).0)
  {
    if TeamsOf(l.journal, tx) != {} {
      var r :| r in l.journal && r.tx == tx;
      OpenKeepsValid(l, l, tx, ReverseBooks(l, tx, order), None, day);
    }
  }

  /** An accepted transaction moves each account of its own by what its books posted, and no other. */
  lemma NetAfterOpen(l: Ledger, l1: Ledger, tx: TxId, bs: seq<Book>, tail: Option<Error>, day: Day, x: TxId,
                     team: TeamId, a: AccountRef)
    requires OpenSpec(l, l1, tx, bs, tail, day).1.None?
    ensures Net(OpenSpec(l, l1, tx, bs, tail, day).0.journal, x, team, a) ==
      Net(l1.journal, x, team, a) + if x == tx then BooksNet(bs, team, a) else 0.0
  {
    TransactionEffect(l, l1, tx, bs, tail, day);
    SumUnion(l1.journal, BooksRows(bs, tx, day), Raw(At(x, team, a)));
    NetOfBooks(bs, tx, day, x, team, a);
  }

  lemma BalanceAfterOpen(l: Ledger, l1: Ledger, tx: TxId, bs: seq<Book>, tail: Option<Error>, day: Day, team: TeamId,
                         a: AccountRef)
    requires OpenSpec(l, l1, tx, bs, tail, day).1.None?
    ensures BookBalance(OpenSpec(l, l1, tx, bs, tail, day).0.journal, team, a) ==
      BookBalance(l1.journal, team, a) + BooksNet(bs, team, a)
  {
    TransactionEffect(l, l1, tx, bs, tail, day);
    SumUnion(l1.journal, BooksRows(bs, tx, day), Raw(InBook(team, a)));
    BalanceOfBooks(bs, tx, day, team, a);
  }

  lemma NewTransactionEmpty(l: Ledger, team: TeamId, a: AccountRef)
    requires ValidLedger(l)
    ensures Net(l.journal, l.nextTx, team, a) == 0.0
  {
    SumZero(l.journal, Raw(At(l.nextTx, team, a)));
  }

  /** A book of To and From calls only names known accounts. */
  lemma PostedBooksKnown(chart: Chart, bs: seq<Book>)
    requires PostedBooks(chart, bs)
    ensures BooksKnown(chart, bs)
  {
    forall b, a | b in bs && a in b.draft.items
      ensures Known(chart, a)
    {
      var ps :| b.draft == PostAll(chart, ps);
      PostedItem(chart, ps, a);
    }
  }

  /** A second rollback is refused and changes nothing. */
  lemma SecondRollbackRefused(l: Ledger, tx: TxId, order: seq<TeamId>, day: Day, again: seq<TeamId>, later: Day)
    requires ValidLedger(l) && Enumerates(order, TeamsOf(l.journal, tx))
    ensures var (l', e) := RollbackSpec(l, tx, order, day);
            e.None? && Enumerates(again, TeamsOf(l'.journal, tx)) ==>
              RollbackSpec(l', tx, again, later).1.Some? && RollbackSpec(l', tx, again, later).0 == l'
  {
    RollbackIsExact(l, tx, order, day);
    RollbackKeepsValid(l, tx, order, day);
    hide RollbackSpec, ValidLedger, Net;
    var (l', e) := RollbackSpec(l, tx, order, day);
    if e.None? && Enumerates(again, TeamsOf(l'.journal, tx)) {
      RollbackAccepted(l', tx, again, later);
      if t :| t in TeamsOf(l'.journal, tx) {
        assert !Reversible(l', tx, t);
      }
    }
  }

  ghost function TxDebit(tx: TxId): Row -> real { (r: Row) => if r.tx == tx then r.debit else 0.0 }
  ghost function TxCredit(tx: TxId): Row -> real { (r: Row) => if r.tx == tx then r.credit else 0.0 }
  ghost function TxRaw(tx: TxId): Row -> real { (r: Row) => if r.tx == tx then r.debit - r.credit else 0.0 }
  ghost function RowTeam(): Row -> TeamId { (r: Row) => r.team }

  /** `CheckEntry` on a loaded transaction: total debit against total credit over its rows. */
  ghost predicate CheckEntry(j: multiset<Row>, tx: TxId) {
    Close(Sum(j, TxDebit(tx)), Sum(j, TxCredit(tx)))
  }

  /** The difference `CheckEntry` looks at is the total of the books' imbalances, so that total is what it bounds. */
  lemma CheckedDifference(j: multiset<Row>, tx: TxId, imbalance: TeamId -> real)
    requires forall t :: imbalance(t) == Imbalance(j, tx, t)
    ensures Sum(j, TxDebit(tx)) - Sum(j, TxCredit(tx)) == Sum(multiset(TeamsOf(j, tx)), imbalance)
    ensures CheckEntry(j, tx) <==> -0.0001 < Sum(multiset(TeamsOf(j, tx)), imbalance) < 0.0001
  {
    SumMinus(j, TxDebit(tx), TxCredit(tx), TxRaw(tx));
    SumByGroup(j, TxRaw(tx), RowTeam(), TeamsOf(j, tx));
    forall t | t in TeamsOf(j, tx)
      ensures GroupTotal(j, TxRaw(tx), RowTeam())(t) == imbalance(t)
    {
      SumSame(j, Group(TxRaw(tx), RowTeam(), t), Raw(InTx(tx, t)));
    }
    SumSame(multiset(TeamsOf(j, tx)), GroupTotal(j, TxRaw(tx), RowTeam()), imbalance);
  }

  /** After a rollback every book of the transaction is exactly balanced, and `CheckEntry` finds equal totals. */
  lemma RollbackBalances(l: Ledger, tx: TxId, order: seq<TeamId>, day: Day)
    requires ValidLedger(l) && Enumerates(order, TeamsOf(l.journal, tx))
    ensures var (l', e) := RollbackSpec(l, tx, order, day);
            e.None? ==>
              && (forall team :: Imbalance(l'.journal, tx, team) == 0.0)
              && Sum(l'.journal, TxDebit(tx)) == Sum(l'.journal, TxCredit(tx))
              && CheckEntry(l'.journal, tx)
  {
    hide RollbackSpec, ValidLedger;
    RollbackIsExact(l, tx, order, day);
    if RollbackSpec(l, tx, order, day).1.Some? {
      return;
    }
    var j := RollbackSpec(l, tx, order, day).0.journal;
    var zero := (a: AccountRef) => 0.0;
    forall team
      ensures Imbalance(j, tx, team) == 0.0
    {
      ImbalanceIsNets(j, tx, team, {}, zero);
    }
    var imbalance := (t: TeamId) => Imbalance(j, tx, t);
    CheckedDifference(j, tx, imbalance);
    SumZero(multiset(TeamsOf(j, tx)), imbalance);
  }
}

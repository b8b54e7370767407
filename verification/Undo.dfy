/** What a rollback leaves of a transaction in the daily index, which takes flagged rows back from the opposite
    columns. */
module Undo {
  import opened Sums
  import opened Accounts
  import opened Journal
  import opened Books
  import opened Nets
  import opened Rollback
  import opened DailyTable
  import opened AsyncIndex
  import Flags

  /** What a row of the account, in the team's book of the transaction, adds to the debit column of the index. */
  ghost function DebitColumn(tx: TxId, team: TeamId, a: AccountRef): Row -> real {
    (r: Row) => if r.tx == tx && r.team == team && r.account == a then AdjustedDebit(r) else 0.0
  }

  ghost function CreditColumn(tx: TxId, team: TeamId, a: AccountRef): Row -> real {
    (r: Row) => if r.tx == tx && r.team == team && r.account == a then AdjustedCredit(r) else 0.0
  }

  ghost function Debits(j: multiset<Row>, tx: TxId, team: TeamId, a: AccountRef): real {
    Sum(j, DebitColumn(tx, team, a))
  }

  ghost function Credits(j: multiset<Row>, tx: TxId, team: TeamId, a: AccountRef): real {
    Sum(j, CreditColumn(tx, team, a))
  }

  function Min(x: real, y: real): real { if x < y then x else y }

  /** The columns differ by the net. */
  lemma ColumnsDiffer(j: multiset<Row>, tx: TxId, team: TeamId, a: AccountRef)
    ensures Debits(j, tx, team, a) - Credits(j, tx, team, a) == Net(j, tx, team, a)
  {
    SumMinus(j, DebitColumn(tx, team, a), CreditColumn(tx, team, a), Raw(At(tx, team, a)));
  }

  ghost function ColumnAt(items: map<AccountRef, Item>, team: TeamId, day: Day, f: Row -> real): AccountRef -> real {
    (k: AccountRef) => if k in items then f(RowOf(k, items[k], team, ROLLBACK, day)) else 0.0
  }

  /** A book of entries that are neither dropped nor split adds one row for each. */
  lemma ColumnOfItems(items: map<AccountRef, Item>, team: TeamId, day: Day, f: Row -> real, a: AccountRef)
    requires forall k :: k in items ==> !Skipped(items[k], ROLLBACK) && !TwoSided(items[k], ROLLBACK)
    requires forall r: Row :: r.account != a ==> f(r) == 0.0
    ensures Sum(CommitRows(items, team, ROLLBACK, day), f) ==
      if a in items then f(RowOf(a, items[a], team, ROLLBACK, day)) else 0.0
  {
    var h := ColumnAt(items, team, day, f);
    forall k | k in items.Keys
      ensures Sum(RowsAt(items, team, ROLLBACK, day)(k), f) == h(k)
    {
      var row := RowOf(k, items[k], team, ROLLBACK, day);
      assert RowsOf(k, items[k], team, ROLLBACK, day) == multiset{row};
      SumSingle(row, f);
    }
    SumBag(items.Keys, RowsAt(items, team, ROLLBACK, day), f, h);
    SumPoint(items.Keys, a, h);
  }

  lemma ReversedItem(l: Ledger, tx: TxId, team: TeamId, k: AccountRef)
    requires k in BookItems(ReverseBook(l, tx, team), tx)
    ensures var i := BookItems(ReverseBook(l, tx, team), tx)[k];
            !Skipped(i, ROLLBACK) && !TwoSided(i, ROLLBACK) && i == Reverse(Net(l.journal, tx, team, k)).(tx := tx)
  {
  }

  lemma ReversedKeys(l: Ledger, tx: TxId, team: TeamId, k: AccountRef)
    requires ValidLedger(l)
    ensures k in BookItems(ReverseBook(l, tx, team), tx) <==> Net(l.journal, tx, team, k) != 0.0
  {
    ReverseItemsAt(l, tx, team, k);
  }

  /** What the reversing book of a team adds to the columns of an account: minus its debit excess in the debit column,
      or minus its credit excess in the credit column. */
  lemma ReversedColumns(l: Ledger, tx: TxId, t: TeamId, day: Day, team: TeamId, a: AccountRef)
    requires ValidLedger(l)
    ensures var rows, net := BookRows(ReverseBook(l, tx, t), tx, day), Net(l.journal, tx, team, a);
            && Debits(rows, tx, team, a) == (if t == team && net > 0.0 then -net else 0.0)
            && Credits(rows, tx, team, a) == (if t == team && net < 0.0 then net else 0.0)
  {
    hide Net, ValidLedger, ReverseBook;
    var items := BookItems(ReverseBook(l, tx, t), tx);
    forall k | k in items { ReversedItem(l, tx, t, k); }
    ReversedKeys(l, tx, t, a);
    SavedReverse(l, tx, t);
    assert BookRows(ReverseBook(l, tx, t), tx, day) == CommitRows(items, t, ROLLBACK, day);
    hide BookItems, BookRows;
    ColumnOfItems(items, t, day, DebitColumn(tx, team, a), a);
    ColumnOfItems(items, t, day, CreditColumn(tx, team, a), a);
  }

  lemma SavedReverse(l: Ledger, tx: TxId, t: TeamId)
    ensures var b := ReverseBook(l, tx, t); b.saves && b.team == t && b.opts == ROLLBACK
  {
  }

  lemma {:induction false} ReversedBooksColumns(l: Ledger, tx: TxId, order: seq<TeamId>, day: Day, team: TeamId,
                                                a: AccountRef)
    requires ValidLedger(l) && forall i, j :: 0 <= i < j < |order| ==> order[i] != order[j]
    ensures var rows, net := BooksRows(ReverseBooks(l, tx, order), tx, day), Net(l.journal, tx, team, a);
            && Debits(rows, tx, team, a) == (if team in order && net > 0.0 then -net else 0.0)
            && Credits(rows, tx, team, a) == (if team in order && net < 0.0 then net else 0.0)
    decreases |order|
  {
    hide Net, ValidLedger, ReverseBook, BookRows;
    if order != [] {
      var t, rest := order[0], order[1..];
      assert forall u :: u in order <==> u == t || u in rest;
      assert ReverseBooks(l, tx, order)[1..] == ReverseBooks(l, tx, rest);
      ReversedBooksColumns(l, tx, rest, day, team, a);
      ReversedColumns(l, tx, t, day, team, a);
      SumUnion(BookRows(ReverseBook(l, tx, t), tx, day), BooksRows(ReverseBooks(l, tx, rest), tx, day),
               DebitColumn(tx, team, a));
      SumUnion(BookRows(ReverseBook(l, tx, t), tx, day), BooksRows(ReverseBooks(l, tx, rest), tx, day),
               CreditColumn(tx, team, a));
    }
  }

  /** After a rollback both columns of every account of the transaction hold the smaller of what they held before: the
      larger side gives up its excess, and no turnover is added to the other. */
  lemma RollbackTurnover(l: Ledger, tx: TxId, order: seq<TeamId>, day: Day, team: TeamId, a: AccountRef)
    requires ValidLedger(l) && Enumerates(order, TeamsOf(l.journal, tx))
    ensures var (l', e), j := RollbackSpec(l, tx, order, day), l.journal;
            var kept := Min(Debits(j, tx, team, a), Credits(j, tx, team, a));
            e.None? ==> Debits(l'.journal, tx, team, a) == kept && Credits(l'.journal, tx, team, a) == kept
  {
    hide RollbackSpec, TeamsOf, Net, ReverseBooks, BooksRows, ValidLedger, Reversible, Message, DebitColumn;
    hide CreditColumn;
    RollbackAccepted(l, tx, order, day);
    var rows := BooksRows(ReverseBooks(l, tx, order), tx, day);
    SumUnion(l.journal, rows, DebitColumn(tx, team, a));
    SumUnion(l.journal, rows, CreditColumn(tx, team, a));
    ReversedBooksColumns(l, tx, order, day, team, a);
    ColumnsDiffer(l.journal, tx, team, a);
    if team !in order { NoTeamNoNet(l.journal, tx, team, a); }
  }

  lemma NoTeamNoNet(j: multiset<Row>, tx: TxId, team: TeamId, a: AccountRef)
    requires team !in TeamsOf(j, tx)
    ensures Net(j, tx, team, a) == 0.0
  {
    NoRowNoNet(j, tx, team, a);
  }

  /** The rows of the account in the team's book of the transaction. */
  ghost predicate IsOf(r: Row, tx: TxId, team: TeamId, a: AccountRef) { r.tx == tx && r.team == team && r.account == a }

  /** The account is booked on one side only. */
  ghost predicate OnOneSide(j: multiset<Row>, tx: TxId, team: TeamId, a: AccountRef) {
    || (forall r :: r in j && IsOf(r, tx, team, a) ==> r.debit == 0.0)
    || (forall r :: r in j && IsOf(r, tx, team, a) ==> r.credit == 0.0)
  }

  /** The smaller column of unflagged rows is zero exactly when the account is on one side. */
  lemma SmallerColumn(j: multiset<Row>, tx: TxId, team: TeamId, a: AccountRef)
    requires forall r :: r in j && r.tx == tx ==> OneSided(r) && !r.rollback
    ensures Min(Debits(j, tx, team, a), Credits(j, tx, team, a)) == 0.0 <==> OnOneSide(j, tx, team, a)
    ensures Debits(j, tx, team, a) >= 0.0 && Credits(j, tx, team, a) >= 0.0
  {
    SumNonneg(j, DebitColumn(tx, team, a));
    SumNonneg(j, CreditColumn(tx, team, a));
    if OnOneSide(j, tx, team, a) {
      if forall r :: r in j && IsOf(r, tx, team, a) ==> r.debit == 0.0 {
        SumZero(j, DebitColumn(tx, team, a));
      } else {
        SumZero(j, CreditColumn(tx, team, a));
      }
    } else {
      var r :| r in j && IsOf(r, tx, team, a) && r.debit != 0.0;
      var s :| s in j && IsOf(s, tx, team, a) && s.credit != 0.0;
      assert DebitColumn(tx, team, a)(r) > 0.0 && CreditColumn(tx, team, a)(s) > 0.0;
    }
  }

  /** The index law of a rollback: of a transaction with no flagged rows, the index counts nothing any more, in either
      column of an account, exactly when the account was booked on one side only; otherwise both columns keep the
      smaller side. */
  lemma TurnoverUndone(l: Ledger, tx: TxId, order: seq<TeamId>, day: Day, team: TeamId, a: AccountRef)
    requires ValidLedger(l) && Enumerates(order, TeamsOf(l.journal, tx))
    requires forall r :: r in l.journal && r.tx == tx ==> OneSided(r) && !r.rollback
    ensures var (l', e) := RollbackSpec(l, tx, order, day);
            e.None? ==>
              && Debits(l'.journal, tx, team, a) == Credits(l'.journal, tx, team, a)
              && (Debits(l'.journal, tx, team, a) == 0.0 <==> OnOneSide(l.journal, tx, team, a))
  {
    hide RollbackSpec, ValidLedger, Enumerates;
    RollbackTurnover(l, tx, order, day, team, a);
    SmallerColumn(l.journal, tx, team, a);
  }

  lemma SumOfDetails(chart: Chart, rows: multiset<Row>, f: Delivery<DetailKey> -> real, column: Row -> real, c: bool)
    requires forall r :: r in rows ==> f(ToDetail(chart, r)) == if c then column(r) else 0.0
    ensures Sum(Details(chart, rows), f) == if c then Sum(rows, column) else 0.0
  {
    hide ToDetail;
    var h := (r: Row) => f(ToDetail(chart, r));
    SumImage(rows, DetailOf(chart), f, h);
    if c {
      SumSame(rows, h, column);
    } else {
      SumZero(rows, h);
    }
  }

  /** Rows of one transaction and day count in a slot as they do in the columns of its account. */
  lemma SlotIsColumn(chart: Chart, rows: multiset<Row>, tx: TxId, day: Day, s: Slot<DetailKey>)
    requires forall r :: r in rows ==> r.tx == tx && r.day == day
    ensures Sum(Details(chart, rows), DebitAt(s)) ==
      if s.day == day then Debits(rows, tx, s.key.team, s.key.account) else 0.0
    ensures Sum(Details(chart, rows), CreditAt(s)) ==
      if s.day == day then Credits(rows, tx, s.key.team, s.key.account) else 0.0
  {
    hide Details;
    SumOfDetails(chart, rows, DebitAt(s), DebitColumn(tx, s.key.team, s.key.account), s.day == day);
    SumOfDetails(chart, rows, CreditAt(s), CreditColumn(tx, s.key.team, s.key.account), s.day == day);
  }

  /** What a rollback means for the index, slot by slot: on its own day the account's debit turnover falls by the debit
      excess of the transaction, or its credit turnover by the credit excess, and on every other day nothing changes. */
  lemma RollbackSlot(l: Ledger, tx: TxId, order: seq<TeamId>, day: Day, s: Slot<DetailKey>)
    requires ValidLedger(l) && Enumerates(order, TeamsOf(l.journal, tx))
    ensures var (l', e) := RollbackSpec(l, tx, order, day);
            var before, after := Details(l.chart, l.journal), Details(l.chart, l'.journal);
            var net := if s.day == day then Net(l.journal, tx, s.key.team, s.key.account) else 0.0;
            e.None? ==>
              && Sum(after, DebitAt(s)) == Sum(before, DebitAt(s)) - (if net > 0.0 then net else 0.0)
              && Sum(after, CreditAt(s)) == Sum(before, CreditAt(s)) + (if net < 0.0 then net else 0.0)
  {
    hide RollbackSpec, TeamsOf, Net, ReverseBooks, BooksRows, Debits, Credits, ValidLedger, Reversible, Message;
    var team, a, rows := s.key.team, s.key.account, BooksRows(ReverseBooks(l, tx, order), tx, day);
    RollbackAccepted(l, tx, order, day);
    forall r | r in rows { Flags.ReverseRows(l, tx, order, day, r); }
    SlotIsColumn(l.chart, rows, tx, day, s);
    ReversedBooksColumns(l, tx, order, day, team, a);
    if team !in order { NoTeamNoNet(l.journal, tx, team, a); }
    ImageUnion(l.journal, rows, DetailOf(l.chart));
    SumUnion(Details(l.chart, l.journal), Details(l.chart, rows), DebitAt(s));
    SumUnion(Details(l.chart, l.journal), Details(l.chart, rows), CreditAt(s));
  }
}

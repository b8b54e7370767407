/** The rows that each call of a handler adds: one-sided, on the call's day, in one transaction, and flagged as rollback
    rows exactly when they undo something. */
module Flags {
  import opened Sums
  import opened Accounts
  import opened Journal
  import opened Books
  import opened Nets
  import opened Rollback
  import opened Equation
  import opened DailyTable
  import opened AsyncIndex
  import opened Orders
  import opened Inbound
  import opened Register
  import opened Calls
  import Acceptance
  import Payments
  import Revenue
  import StockEffects

  lemma {:induction false} RowsOfBooks(bs: seq<Book>, tx: TxId, day: Day, r: Row)
    requires r in BooksRows(bs, tx, day)
    ensures exists b :: b in bs && r in BookRows(b, tx, day)
    decreases |bs|
  {
    hide BookRows;
    if r in BookRows(bs[0], tx, day) {
      assert bs[0] in bs;
    } else {
      RowsOfBooks(bs[1..], tx, day, r);
      assert forall b :: b in bs[1..] ==> b in bs;
    }
  }

  /** The rows a call adds under the flag. */
  ghost predicate Added(r: Row, tx: TxId, day: Day, rollback: bool) {
    OneSided(r) && r.tx == tx && r.day == day && r.rollback == rollback
  }

  ghost predicate Unflagged(bs: seq<Book>) {
    forall b :: b in bs ==> !b.opts.rollback
  }

  /** Books of To and From calls add rows without the flag. */
  lemma PostedRows(chart: Chart, bs: seq<Book>, tx: TxId, day: Day, r: Row)
    requires PostedBooks(chart, bs) && Unflagged(bs) && r in BooksRows(bs, tx, day)
    ensures Added(r, tx, day, false)
  {
    hide BookRows, PostAll;
    RowsOfBooks(bs, tx, day, r);
    var b :| b in bs && r in BookRows(b, tx, day);
    var ps :| b.draft == PostAll(chart, ps);
    PostedBookRow(chart, b, ps, tx, day, r);
  }

  lemma PostedBookRow(chart: Chart, b: Book, ps: seq<Post>, tx: TxId, day: Day, r: Row)
    requires b.draft == PostAll(chart, ps) && r in BookRows(b, tx, day)
    ensures Added(r, tx, day, b.opts.rollback) && r.team == b.team
  {
    hide PostAll;
    CommitRowsFrom(BookItems(b, tx), b.team, b.opts, day, r);
    PostedItem(chart, ps, r.account);
  }

  /** A reversing book adds flagged rows, in the team's book. */
  lemma ReverseRow(l: Ledger, tx: TxId, team: TeamId, day: Day, r: Row)
    requires r in BookRows(ReverseBook(l, tx, team), tx, day)
    ensures Added(r, tx, day, true) && r.team == team
  {
    var b := ReverseBook(l, tx, team);
    CommitRowsFrom(BookItems(b, tx), team, b.opts, day, r);
  }

  lemma ReverseRows(l: Ledger, tx: TxId, order: seq<TeamId>, day: Day, r: Row)
    requires r in BooksRows(ReverseBooks(l, tx, order), tx, day)
    ensures Added(r, tx, day, true) && r.team in order
  {
    hide BookRows, ReverseBook;
    var bs := ReverseBooks(l, tx, order);
    RowsOfBooks(bs, tx, day, r);
    var b :| b in bs && r in BookRows(b, tx, day);
    var i :| 0 <= i < |order| && b == bs[i];
    ReverseRow(l, tx, order[i], day, r);
  }

  lemma {:induction false} CrossUnflagged(chart: Chart, pay: OrderPayload, borrows: seq<Borrow>)
    ensures Unflagged(CrossBooks(chart, pay, borrows))
    decreases |borrows|
  {
    hide PostAll;
    if borrows != [] { CrossUnflagged(chart, pay, borrows[..|borrows| - 1]); }
  }

  lemma UnflaggedAppend(bs: seq<Book>, cs: seq<Book>)
    requires Unflagged(bs) && Unflagged(cs)
    ensures Unflagged(bs + cs)
  {
  }

  lemma PartsUnflagged(chart: Chart, pay: OrderPayload)
    ensures Unflagged(WarehouseFeeBooks(chart, pay)) && Unflagged(OwnStockBooks(chart, pay))
    ensures Unflagged(RevenueBooks(chart, pay)) && Unflagged(AdditionalBooks(chart, pay))
  {
    hide PostAll, RevenueAmount;
  }

  lemma OrderUnflagged(chart: Chart, pay: OrderPayload)
    ensures Unflagged(OrderBooks(chart, pay))
  {
    PartsUnflagged(chart, pay);
    CrossUnflagged(chart, pay, pay.borrows);
    hide Unflagged, WarehouseFeeBooks, OwnStockBooks, CrossBooks, RevenueBooks, AdditionalBooks;
    var own, cross, rev, add := OwnStockBooks(chart, pay), CrossBooks(chart, pay, pay.borrows),
      RevenueBooks(chart, pay), AdditionalBooks(chart, pay);
    UnflaggedAppend(rev, add);
    UnflaggedAppend(cross, rev + add);
    UnflaggedAppend(own, cross + (rev + add));
    UnflaggedAppend(WarehouseFeeBooks(chart, pay), own + (cross + (rev + add)));
  }

  /** A call that opens a transaction posts books without the flag. */
  lemma OpenPosts(l: Ledger, call: Call)
    requires LegalCall(l, call) && !call.CancelCall? && !call.UpdateCall?
    ensures ActOf(l, call).Some? ==>
      var act := ActOf(l, call).value;
      act.Open? && PostedBooks(l.chart, act.books) && Unflagged(act.books) && act.day == call.day
  {
    hide PostAll, OrderBooks;
    match call
    case OrderCall(pay, day) =>
      OrderBooksPosted(l.chart, pay);
      OrderUnflagged(l.chart, pay);
    case _ =>
  }

  lemma StepAdds(l: Ledger, act: Act)
    ensures var (l', e) := Step(l, act);
            && l.journal <= l'.journal && l.pending <= l'.pending
            && l'.pending - l.pending <= l'.journal - l.journal
            && (e.Some? ==> l' == l)
            && (e.None? ==> l'.journal - l.journal == BooksRows(ActBooks(l, act), ActTx(l, act), act.day))
  {
    hide BooksRows, OpenSpec, Accepts, CreateError, Message, ReverseBooks;
    ActConserves(l, act);
    StepRows(l, act);
  }

  lemma StepRows(l: Ledger, act: Act)
    ensures var (l', e) := Step(l, act);
            && (e.Some? ==> l' == l)
            && (e.None? ==> l'.journal == l.journal + BooksRows(ActBooks(l, act), ActTx(l, act), act.day))
  {
    hide BooksRows, OpenSpec, Accepts, CreateError, Message, ReverseBooks;
    match act
    case Open(c, bs, tail, day) => TransactionEffect(l, WithTransaction(l, c), l.nextTx, bs, tail, day);
    case Amend(ref, bs, day) =>
      if ref in l.txs { TransactionEffect(l, l, l.txs[ref], bs, None, day); }
    case Cancel(tx, order, day) => TransactionEffect(l, l, tx, ReverseBooks(l, tx, order), None, day);
  }

  /** Every call but an update: the rows it adds are one-sided, on its day and in its transaction, the new one or, for a
      cancelling, the order's; and they carry the rollback flag exactly when the call is a cancelling. What it queues is
      among what it adds. */
  lemma CallRows(l: Ledger, call: Call)
    requires LegalCall(l, call) && !call.UpdateCall?
    ensures var l' := Effect(l, call);
            var tx := if call.CancelCall? && OrderRef(call.orderId) in l.txs then l.txs[OrderRef(call.orderId)]
                      else l.nextTx;
            && l.journal <= l'.journal && l.pending <= l'.pending
            && l'.pending - l.pending <= l'.journal - l.journal
            && forall r :: r in l'.journal - l.journal ==> Added(r, tx, call.day, call.CancelCall?)
  {
    hide Effect, Legal, Step, BooksRows, ReverseBooks, PostedBooks, Added, OrderBooks, Unflagged;
    CallIsAct(l, call);
    if ActOf(l, call).Some? {
      var act := ActOf(l, call).value;
      StepAdds(l, act);
      if call.CancelCall? {
        forall r | r in BooksRows(ReverseBooks(l, act.tx, act.order), act.tx, act.day) {
          ReverseRows(l, act.tx, act.order, act.day, r);
        }
      } else {
        OpenPosts(l, call);
        forall r | r in BooksRows(act.books, l.nextTx, act.day) {
          PostedRows(l.chart, act.books, l.nextTx, act.day, r);
        }
      }
    }
  }

  /** An accepted update adds the rows that reset the team's book, all flagged and together the reverse of what the
      transaction held there, and the rows of the new payload, none flagged. */
  lemma UpdateRows(l: Ledger, pay: InboundPayload, old1: Option<real>, old2: Option<real>, day: Day)
    requires ValidLedger(l)
    ensures var (l', e) := UpdateSpec(l, pay, old1, old2, day);
            e.None? ==>
              && UpdateRef(pay).Some? && UpdateRef(pay).value in l.txs
              && var tx := l.txs[UpdateRef(pay).value];
                 exists reset: multiset<Row>, booked: multiset<Row> ::
                   && l'.journal == l.journal + reset + booked
                   && (forall r :: r in reset ==> Added(r, tx, day, true) && r.team == pay.team)
                   && (forall r :: r in booked ==> Added(r, tx, day, false) && r.team == pay.team)
                   && (forall a :: Net(reset, tx, pay.team, a) == -Net(l.journal, tx, pay.team, a))
  {
    hide UpdateRef, BookRows, ReverseBook, ValidLedger, PostBook, Net, UpdateGoods, UpdateSpec, UpdateShipping;
    hide Added, UpdatePosts, OpenSpec, BooksRows, UpdateBooks, Message;
    StockEffects.UpdatePasses(l, pay, old1, old2, day);
    if UpdateSpec(l, pay, old1, old2, day).1.None? {
      var tx, ps := l.txs[UpdateRef(pay).value],
        UpdatePosts(pay, UpdateGoods(pay, old1).value, UpdateShipping(pay, old2));
      var reset := BookRows(ReverseBook(l, tx, pay.team), tx, day);
      var booked := BookRows(PostBook(l.chart, pay.team, ps), tx, day);
      TransactionEffect(l, l, tx, UpdateBooks(l, tx, pay, old1, old2), None, day);
      UpdateBooksRows(l, tx, pay, old1, old2, day);
      UnionAssoc(l.journal, reset, booked);
      forall r | r in reset { ReverseRow(l, tx, pay.team, day, r); }
      forall r | r in booked { PostsRow(l.chart, pay.team, ps, tx, day, r); }
      forall a { ResetRowsNet(l, tx, pay.team, day, a); }
    }
  }

  lemma UpdateBooksRows(l: Ledger, tx: TxId, pay: InboundPayload, old1: Option<real>, old2: Option<real>, day: Day)
    requires UpdateGoods(pay, old1).Some?
    ensures var ps := UpdatePosts(pay, UpdateGoods(pay, old1).value, UpdateShipping(pay, old2));
            BooksRows(UpdateBooks(l, tx, pay, old1, old2), tx, day) ==
            BookRows(ReverseBook(l, tx, pay.team), tx, day) + BookRows(PostBook(l.chart, pay.team, ps), tx, day)
  {
    hide BookRows, ReverseBook, PostBook, UpdatePosts, UpdateGoods, UpdateShipping;
    var bs := UpdateBooks(l, tx, pay, old1, old2);
    assert |bs| == 2 && bs[1..] == [bs[1]] && bs[1..][1..] == [];
    assert BooksRows(bs[1..], tx, day) == BookRows(bs[1], tx, day);
  }

  lemma PostsRow(chart: Chart, team: TeamId, ps: seq<Post>, tx: TxId, day: Day, r: Row)
    requires r in BookRows(PostBook(chart, team, ps), tx, day)
    ensures Added(r, tx, day, false) && r.team == team
  {
    hide PostAll, BookRows;
    PostedBookRow(chart, PostBook(chart, team, ps), ps, tx, day, r);
  }

  lemma ResetRowsNet(l: Ledger, tx: TxId, team: TeamId, day: Day, a: AccountRef)
    requires ValidLedger(l)
    ensures Net(BookRows(ReverseBook(l, tx, team), tx, day), tx, team, a) == -Net(l.journal, tx, team, a)
  {
    hide Net, ValidLedger, BookRows;
    NetOfBook(ReverseBook(l, tx, team), tx, day, tx, team, a);
    ReverseItemsNet(l, tx, team, a);
  }

  /** A cancelling, and any rollback, queues exactly the rows it adds: each is in a team of the transaction, under its
      id, on the given day, and flagged. */
  lemma RollbackRows(l: Ledger, tx: TxId, order: seq<TeamId>, day: Day)
    requires ValidLedger(l) && Enumerates(order, TeamsOf(l.journal, tx))
    ensures var (l', e) := RollbackSpec(l, tx, order, day);
            e.None? ==>
              && l.journal <= l'.journal && l'.pending == l.pending + (l'.journal - l.journal)
              && forall r :: r in l'.journal - l.journal ==>
                   Added(r, tx, day, true) && r.team in TeamsOf(l.journal, tx)
  {
    hide RollbackSpec, ValidLedger, ReverseBooks, BooksRows, Reversible, Message, Added;
    RollbackAccepted(l, tx, order, day);
    var bs, l' := ReverseBooks(l, tx, order), RollbackSpec(l, tx, order, day).0;
    RollbackQueues(l, tx, order, day);
    if RollbackSpec(l, tx, order, day).1.None? {
      assert l'.journal - l.journal == BooksRows(bs, tx, day);
    }
    forall r | r in BooksRows(bs, tx, day)
      ensures Added(r, tx, day, true) && r.team in order
    {
      ReverseRows(l, tx, order, day, r);
    }
  }

  lemma RollbackQueues(l: Ledger, tx: TxId, order: seq<TeamId>, day: Day)
    ensures Message(ReverseBooks(l, tx, order), tx, day) == BooksRows(ReverseBooks(l, tx, order), tx, day)
  {
    ReverseBooksUnequal(l, tx, order);
    ReverseOneSided(l, tx, order);
    hide ReverseBooks, BooksRows, BooksEmitted, BooksHalves;
    NoHalves(ReverseBooks(l, tx, order), tx, day);
    BooksSavedParts(ReverseBooks(l, tx, order), tx, day);
  }

  lemma ReverseOneSided(l: Ledger, tx: TxId, order: seq<TeamId>)
    ensures NoneTwoSided(ReverseBooks(l, tx, order))
  {
  }

  // ---- the rows that no message carries ---------------------------------------------------

  /** An unflagged row with a debit and no credit. */
  ghost predicate DebitRow(r: Row) { r.debit > 0.0 && r.credit == 0.0 && !r.rollback }

  lemma {:induction false} HalvesOfBooks(bs: seq<Book>, tx: TxId, day: Day, r: Row)
    requires r in BooksHalves(bs, tx, day)
    ensures exists b :: b in bs && r in BookHalves(b, tx, day)
    decreases |bs|
  {
    hide BookHalves;
    if r in BookHalves(bs[0], tx, day) {
      assert bs[0] in bs;
    } else {
      HalvesOfBooks(bs[1..], tx, day, r);
      assert forall b :: b in bs[1..] ==> b in bs;
    }
  }

  /** The split-off half of an entry is its debit. */
  lemma HalfIsDebit(b: Book, tx: TxId, day: Day, r: Row)
    requires r in BookHalves(b, tx, day)
    ensures r.debit > 0.0 && r.credit == 0.0 && r.rollback == b.opts.rollback
    ensures exists a :: a in b.draft.items && TwoSided(b.draft.items[a], b.opts)
  {
    var items := BookItems(b, tx);
    BagMember(items.Keys, HalvesAt(items, b.team, b.opts, day), r);
    var a :| a in items && r in HalvesAt(items, b.team, b.opts, day)(a);
    assert TwoSided(b.draft.items[a], b.opts);
  }

  /** A reversing book splits nothing. */
  lemma ReverseNotSplit(l: Ledger, tx: TxId, team: TeamId, day: Day, r: Row)
    ensures r !in BookHalves(ReverseBook(l, tx, team), tx, day)
  {
    if r in BookHalves(ReverseBook(l, tx, team), tx, day) { HalfIsDebit(ReverseBook(l, tx, team), tx, day, r); }
  }

  /** A book of an act: one of To and From calls, or one that reverses a team's part of the transaction. */
  lemma BookOfAct(l: Ledger, call: Call, b: Book)
    requires LegalCall(l, call) && ActOf(l, call).Some? && b in ActBooks(l, ActOf(l, call).value)
    ensures !b.opts.rollback || exists team :: b == ReverseBook(l, ActTx(l, ActOf(l, call).value), team)
  {
    hide PostAll, OrderBooks, ReverseBook;
    var act := ActOf(l, call).value;
    match act
    case Open(_, _, _, _) => OpenPosts(l, call);
    case Cancel(tx, order, _) =>
      var i :| 0 <= i < |order| && b == ReverseBooks(l, tx, order)[i];
      assert ActTx(l, act) == tx && b == ReverseBook(l, ActTx(l, act), order[i]);
    case Amend(_, _, _) =>
      assert b != UpdateBooks(l, ActTx(l, act), call.update, call.old1, call.old2)[0] ==> !b.opts.rollback;
  }

  /** What a call saves without sending it is debits, none of them flagged. */
  lemma CallMisses(l: Ledger, call: Call, r: Row)
    requires LegalCall(l, call) && ActOf(l, call).Some?
    ensures r in ActHalves(l, ActOf(l, call).value) ==> DebitRow(r)
  {
    hide ActOf, LegalCall, BookHalves, ReverseBook, BooksHalves, ActBooks, Step;
    var act := ActOf(l, call).value;
    var bs, tx := ActBooks(l, act), ActTx(l, act);
    if r in BooksHalves(bs, tx, act.day) {
      HalvesOfBooks(bs, tx, act.day, r);
      var b :| b in bs && r in BookHalves(b, tx, act.day);
      BookOfAct(l, call, b);
      HalfIsDebit(b, tx, act.day, r);
      if b.opts.rollback {
        var team :| b == ReverseBook(l, tx, team);
        ReverseNotSplit(l, tx, team, act.day, r);
      }
    }
  }

  ghost predicate MissesDebits(s: System) { forall r :: r in s.missed ==> DebitRow(r) }

  lemma StepMisses(s: System, h: Happening)
    requires Possible(View(s), h) && MissesDebits(s)
    ensures var es := EventsOf(s.ledger, h); MissesDebits(if es == [] then s else Next(s, es[0]))
  {
    hide ActOf, LegalCall, ActHalves, DebitRow, Step;
    if h.Called? && ActOf(s.ledger, h.call).Some? {
      var halves := ActHalves(s.ledger, ActOf(s.ledger, h.call).value);
      forall r | r in halves { CallMisses(s.ledger, h.call, r); }
    }
  }

  lemma {:induction false} ServiceMisses(s0: System, hs: seq<Happening>)
    requires PossibleRun(View(s0), hs) && MissesDebits(s0)
    ensures MissesDebits(After(s0, EventsOfRun(View(s0), hs)))
    decreases |hs|
  {
    hide LegalCall, Happen, Next, EventsOf, MissesDebits, Runs;
    if hs != [] {
      var init, h := hs[..|hs| - 1], hs[|hs| - 1];
      ServiceMisses(s0, init);
      ServiceRunsAreRuns(s0, init);
      var s := After(s0, EventsOfRun(View(s0), init));
      StepMisses(s, h);
      HappeningIsEvent(s, h);
      if EventsOf(s.ledger, h) == [] {
        assert EventsOfRun(View(s0), init) + [] == EventsOfRun(View(s0), init);
      } else {
        assert EventsOf(s.ledger, h) == [EventsOf(s.ledger, h)[0]];
        OneMoreEvent(s0, EventsOfRun(View(s0), init), EventsOf(s.ledger, h)[0]);
      }
    }
  }

  /** In every state of the service, whatever was called and counted and in whatever order: what the index has stored
      and what is queued make up the journal's credit turnover exactly, and never more than its debit turnover, for the
      only rows that no message carries are debit halves. As long as no call books an account on both sides, it is the
      debit turnover exactly as well. */
  lemma ServiceTurnover(l: Ledger, hs: seq<Happening>, s: Slot<DetailKey>)
    requires NothingBooked(l) && PossibleRun(View(Start(l)), hs)
    ensures var w := AfterAll(View(Start(l)), hs);
            && StoredCredit(w.detail, s) + Sum(Details(l.chart, w.ledger.pending), CreditAt(s))
               == Sum(Details(l.chart, w.ledger.journal), CreditAt(s))
            && StoredDebit(w.detail, s) + Sum(Details(l.chart, w.ledger.pending), DebitAt(s))
               <= Sum(Details(l.chart, w.ledger.journal), DebitAt(s))
            && (QuietService(View(Start(l)), hs) ==>
                  StoredDebit(w.detail, s) + Sum(Details(l.chart, w.ledger.pending), DebitAt(s))
                  == Sum(Details(l.chart, w.ledger.journal), DebitAt(s)))
  {
    hide PossibleRun, AfterAll, EventsOfRun, Runs, After, Inv, QuietService, QuietRun;
    StartIsConsistent(l);
    ServiceRunsAreRuns(Start(l), hs);
    ServiceMisses(Start(l), hs);
    var es := EventsOfRun(View(Start(l)), hs);
    AsynchronousAgreement(Start(l), es, s);
    DebitsOnly(l.chart, After(Start(l), es).missed, s);
    if QuietService(View(Start(l)), hs) { NothingMissed(Start(l), es); }
  }

  lemma DebitsOnly(chart: Chart, rows: multiset<Row>, s: Slot<DetailKey>)
    requires forall r :: r in rows ==> DebitRow(r)
    ensures Sum(Details(chart, rows), CreditAt(s)) == 0.0 && Sum(Details(chart, rows), DebitAt(s)) >= 0.0
  {
    var debit := (r: Row) => DebitAt(s)(ToDetail(chart, r));
    var credit := (r: Row) => CreditAt(s)(ToDetail(chart, r));
    SumImage(rows, DetailOf(chart), DebitAt(s), debit);
    SumImage(rows, DetailOf(chart), CreditAt(s), credit);
    SumNonneg(rows, debit);
    SumZero(rows, credit);
  }
}

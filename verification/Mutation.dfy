/** Working on an existing transaction: its balances, its check and its cancelling
    (accounting_core/transaction.go, `AccountBalance` in accounting_core/model.go). */
module Mutation {
  import opened Sums
  import opened Accounts
  import opened Journal
  import opened Books
  import opened Nets
  import opened Rollback
  import opened Engine

  ghost function DebitOn(a: AccountRef): Row -> real { (r: Row) => if r.account == a then r.debit else 0.0 }
  ghost function CreditOn(a: AccountRef): Row -> real { (r: Row) => if r.account == a then r.credit else 0.0 }

  /** The map holds the two totals of every account the rows are on. */
  ghost predicate Balances(chart: Chart, rows: multiset<Row>, m: map<AccountRef, ChangeBalance>) {
    && (forall a :: a in m <==> exists r :: r in rows && r.account == a)
    && (forall a :: a in m ==> a in chart && m[a] == ChangeBalance(chart[a], Sum(rows, DebitOn(a)),
                                                                   Sum(rows, CreditOn(a))))
  }

  function AddBalance(m: map<AccountRef, ChangeBalance>, side: BalanceType, r: Row): map<AccountRef, ChangeBalance> {
    var ch := if r.account in m then m[r.account] else ChangeBalance(side, 0.0, 0.0);
    m[r.account := ch.(debit := ch.debit + r.debit, credit := ch.credit + r.credit)]
  }

  lemma BalanceAddAt(chart: Chart, rows: multiset<Row>, m: map<AccountRef, ChangeBalance>, r: Row, a: AccountRef)
    requires Balances(chart, rows, m) && r.account in chart && a in AddBalance(m, chart[r.account], r)
    ensures var rows' := rows + multiset{r};
            AddBalance(m, chart[r.account], r)[a] ==
              ChangeBalance(chart[a], Sum(rows', DebitOn(a)), Sum(rows', CreditOn(a)))
  {
    SumAdd(rows, r, DebitOn(a));
    SumAdd(rows, r, CreditOn(a));
    if a !in m {
      SumZero(rows, DebitOn(a));
      SumZero(rows, CreditOn(a));
    }
  }

  lemma BalanceAddKey(chart: Chart, rows: multiset<Row>, m: map<AccountRef, ChangeBalance>, r: Row, a: AccountRef)
    requires Balances(chart, rows, m) && r.account in chart
    ensures a in AddBalance(m, chart[r.account], r) <==> exists q :: q in rows + multiset{r} && q.account == a
  {
    var rows' := rows + multiset{r};
    assert r in rows';
    if a in m {
      var q :| q in rows && q.account == a;
      assert q in rows';
    }
  }

  lemma BalancesAdd(chart: Chart, rows: multiset<Row>, m: map<AccountRef, ChangeBalance>, r: Row)
    requires Balances(chart, rows, m) && r.account in chart
    ensures Balances(chart, rows + multiset{r}, AddBalance(m, chart[r.account], r))
  {
    var rows', m' := rows + multiset{r}, AddBalance(m, chart[r.account], r);
    assert m'.Keys == m.Keys + {r.account};
    hide AddBalance, DebitOn, CreditOn;
    forall a
      ensures a in m' <==> exists q :: q in rows' && q.account == a
    {
      BalanceAddKey(chart, rows, m, r, a);
    }
    forall a | a in m'
      ensures a in chart && m'[a] == ChangeBalance(chart[a], Sum(rows', DebitOn(a)), Sum(rows', CreditOn(a)))
    {
      BalanceAddAt(chart, rows, m, r, a);
    }
  }

  /** `AccountBalance`: the rows in no particular order; an entry whose account cannot be loaded is an error. */
  method AccountBalance(chart: Chart, rows: multiset<Row>) returns (ok: bool, m: map<AccountRef, ChangeBalance>)
    ensures ok <==> forall r :: r in rows ==> r.account in chart
    ensures ok ==> Balances(chart, rows, m)
  {
    var todo := rows;
    ghost var done: multiset<Row> := multiset{};
    m := map[];
    while todo != multiset{}
      invariant done + todo == rows
      invariant forall r :: r in done ==> r.account in chart
      invariant Balances(chart, done, m)
      decreases |todo|
    {
      var r :| r in todo;
      if r.account !in chart {
        return false, m;
      }
      BalancesAdd(chart, done, m, r);
      m := AddBalance(m, chart[r.account], r);
      done, todo := done + multiset{r}, todo - multiset{r};
    }
    assert done == rows;
    ok := true;
  }

  ghost function OfTx(tx: TxId): Row -> bool { (r: Row) => r.tx == tx }
  ghost function OfTxAndTeam(tx: TxId, team: TeamId): Row -> bool { (r: Row) => r.tx == tx && r.team == team }

  /** `where transaction_id = ?`, and with a team `where team_id = ? and transaction_id = ?`. */
  method FindEntries(j: multiset<Row>, tx: TxId, team: Option<TeamId>) returns (rows: multiset<Row>)
    ensures team.None? ==> rows == Filter(j, OfTx(tx))
    ensures team.Some? ==> rows == Filter(j, OfTxAndTeam(tx, team.value))
  {
    var todo := j;
    rows := multiset{};
    while todo != multiset{}
      invariant forall r :: todo[r] == 0 || todo[r] == j[r]
      invariant forall r ::
        rows[r] == if todo[r] == 0 && r.tx == tx && (team.Some? ==> r.team == team.value) then j[r] else 0
      decreases |todo|
    {
      var r :| r in todo;
      if r.tx == tx && (team.Some? ==> r.team == team.value) {
        rows := rows[r := j[r]];
      }
      todo := todo[r := 0];
    }
    forall r
      ensures team.None? ==> rows[r] == Filter(j, OfTx(tx))[r]
      ensures team.Some? ==> rows[r] == Filter(j, OfTxAndTeam(tx, team.value))[r]
    {
      FilterAt(j, OfTx(tx), r);
      if team.Some? { FilterAt(j, OfTxAndTeam(tx, team.value), r); }
    }
  }

  /** The balances of a team's rows are its nets. */
  lemma BalancesAreNets(chart: Chart, j: multiset<Row>, tx: TxId, team: TeamId, m: map<AccountRef, ChangeBalance>,
                        a: AccountRef)
    requires Balances(chart, Filter(j, OfTxAndTeam(tx, team)), m)
    ensures a in m <==> a in AccountsOf(j, tx, team)
    ensures a in m ==> m[a].debit - m[a].credit == Net(j, tx, team, a)
  {
    var rows := Filter(j, OfTxAndTeam(tx, team));
    forall r: Row
      ensures r in rows <==> r in j && r.tx == tx && r.team == team
    {
      FilterAt(j, OfTxAndTeam(tx, team), r);
    }
    if a in m {
      var both := (r: Row) => if r.account == a then r.debit - r.credit else 0.0;
      SumMinus(rows, DebitOn(a), CreditOn(a), both);
      SumFilter(j, OfTxAndTeam(tx, team), both, Raw(At(tx, team, a)));
    }
  }

  // ---- a reset book: Rollback of a map of balances --------------------------------------

  lemma {:induction false} OnlyPost(ps: seq<Post>, p: Post, f: Post -> real)
    requires p in ps && forall i, j :: 0 <= i < j < |ps| ==> ps[i].account != ps[j].account
    requires forall q :: q in ps && q.account != p.account ==> f(q) == 0.0
    ensures Sum(multiset(ps), f) == f(p)
    decreases |ps|
  {
    var init, q := ps[..|ps| - 1], ps[|ps| - 1];
    assert ps == init + [q];
    SumAdd(multiset(init), q, f);
    if p in init {
      OnlyPost(init, p, f);
    } else {
      SumZero(multiset(init), f);
    }
  }

  function SingleItem(side: BalanceType, amount: real): Item {
    if OnDebit(side, amount) then Item(Abs(amount), 0.0, 0) else Item(0.0, Abs(amount), 0)
  }

  /** The only call on an account makes the entry alone. */
  lemma PostedOnce(chart: Chart, ps: seq<Post>, p: Post)
    requires p in ps && forall i, j :: 0 <= i < j < |ps| ==> ps[i].account != ps[j].account
    requires PostError(chart, p).None?
    ensures p.account in PostAll(chart, ps).items
    ensures PostAll(chart, ps).items[p.account] == SingleItem(chart[p.account], p.amount)
  {
    PostAllKeys(chart, ps, p.account);
    PostAllAt(chart, ps, p.account);
    OnlyPost(ps, p, DebitPart(chart, p.account));
    OnlyPost(ps, p, CreditPart(chart, p.account));
  }

  lemma UndoingReverses(side: BalanceType, debit: real, credit: real)
    requires side != OtherBalance && debit != credit
    ensures Natural(side, debit, credit) != 0.0
    ensures SingleItem(side, -Natural(side, debit, credit)) == Reverse(debit - credit)
  {
  }

  ghost predicate SameAt(x: map<AccountRef, Item>, y: map<AccountRef, Item>, a: AccountRef) {
    (a in x <==> a in y) && (a in x ==> x[a] == y[a])
  }

  lemma SameEverywhere(x: map<AccountRef, Item>, y: map<AccountRef, Item>)
    requires forall a :: SameAt(x, y, a)
    ensures x == y
  {
    assert forall a :: SameAt(x, y, a) ==> (a in x <==> a in y);
  }

  lemma ResetItemIn(l: Ledger, tx: TxId, team: TeamId, m: map<AccountRef, ChangeBalance>, ps: seq<Post>, a: AccountRef)
    requires Balances(l.chart, Filter(l.journal, OfTxAndTeam(tx, team)), m) && Reverses(m, ps)
    requires forall p :: p in ps ==> PostError(l.chart, p).None?
    requires a in ReverseItems(l.chart, l.journal, tx, team)
    ensures SameAt(PostAll(l.chart, ps).items, ReverseItems(l.chart, l.journal, tx, team), a)
  {
    BalancesAreNets(l.chart, l.journal, tx, team, m, a);
    UndoingReverses(l.chart[a], m[a].debit, m[a].credit);
    PostedOnce(l.chart, ps, Post(a, -m[a].Change()));
  }

  lemma ResetItemOut(l: Ledger, tx: TxId, team: TeamId, m: map<AccountRef, ChangeBalance>, ps: seq<Post>, a: AccountRef)
    requires Balances(l.chart, Filter(l.journal, OfTxAndTeam(tx, team)), m) && Reverses(m, ps)
    requires a !in ReverseItems(l.chart, l.journal, tx, team)
    ensures a !in PostAll(l.chart, ps).items
  {
    BalancesAreNets(l.chart, l.journal, tx, team, m, a);
    PostAllKeys(l.chart, ps, a);
    if a in m && Known(l.chart, a) { assert m[a].Change() == 0.0; }
  }

  lemma ResetPostsFound(l: Ledger, tx: TxId, team: TeamId, m: map<AccountRef, ChangeBalance>, ps: seq<Post>)
    requires ValidLedger(l) && Balances(l.chart, Filter(l.journal, OfTxAndTeam(tx, team)), m) && Reverses(m, ps)
    ensures forall p :: p in ps ==> PostError(l.chart, p).None?
  {
    forall p | p in ps
      ensures PostError(l.chart, p).None?
    {
      BalancesAreNets(l.chart, l.journal, tx, team, m, p.account);
      assert Known(l.chart, p.account);
    }
  }

  /** Undoing the balances of a team's book, in any order, drafts exactly the reversing entries. */
  lemma ResetIsReverse(l: Ledger, tx: TxId, team: TeamId, m: map<AccountRef, ChangeBalance>, ps: seq<Post>)
    requires ValidLedger(l) && Balances(l.chart, Filter(l.journal, OfTxAndTeam(tx, team)), m) && Reverses(m, ps)
    ensures PostAll(l.chart, ps) == ReverseBook(l, tx, team).draft
  {
    ResetPostsFound(l, tx, team, m, ps);
    PostAllAccepts(l.chart, ps);
    var x, y := PostAll(l.chart, ps).items, ReverseItems(l.chart, l.journal, tx, team);
    forall a
      ensures SameAt(x, y, a)
    {
      if a in y { ResetItemIn(l, tx, team, m, ps, a); } else { ResetItemOut(l, tx, team, m, ps, a); }
    }
    SameEverywhere(x, y);
  }

  // ---- the reversing entries of one team, set account by account -------------------------

  /** One account of `RollbackEntry`: set the entry that brings it back to zero, in the sign of its side. */
  method SetReverse(entry: EntryBuilder, a: AccountRef, balance: ChangeBalance)
    requires a in entry.books.db.ledger.chart && a !in entry.entries
    modifies entry
    ensures entry.err == old(entry.err)
    ensures entry.entries == if balance.Change() == 0.0 then old(entry.entries)
                             else old(entry.entries)[a := Reverse(balance.debit - balance.credit)]
  {
    var diff := balance.Change();
    match balance.side {
      case DebitBalance =>
        if diff > 0.0 { entry.Set(a, diff, 0.0); }
        if diff < 0.0 { entry.Set(a, 0.0, Abs(diff)); }
      case CreditBalance =>
        if diff > 0.0 { entry.Set(a, 0.0, diff); }
        if diff < 0.0 { entry.Set(a, Abs(diff), 0.0); }
      case OtherBalance =>
    }
  }

  /** The reversing entries of some balances. */
  function ReversedItems(m: map<AccountRef, ChangeBalance>): map<AccountRef, Item> {
    map a | a in m && m[a].Change() != 0.0 :: Reverse(m[a].debit - m[a].credit)
  }

  lemma ReversedItemIs(l: Ledger, tx: TxId, team: TeamId, m: map<AccountRef, ChangeBalance>, a: AccountRef)
    requires ValidLedger(l) && Balances(l.chart, Filter(l.journal, OfTxAndTeam(tx, team)), m)
    ensures SameAt(ReversedItems(m), ReverseItems(l.chart, l.journal, tx, team), a)
  {
    hide Balances, Net, AccountsOf;
    BalancesAreNets(l.chart, l.journal, tx, team, m, a);
    if a in m {
      AccountKnown(l, tx, team, a);
      BalanceSide(l.chart, Filter(l.journal, OfTxAndTeam(tx, team)), m, a);
    }
  }

  lemma BalanceSide(chart: Chart, rows: multiset<Row>, m: map<AccountRef, ChangeBalance>, a: AccountRef)
    requires Balances(chart, rows, m) && a in m && Known(chart, a)
    ensures m[a].Change() != 0.0 <==> m[a].debit - m[a].credit != 0.0
  {
  }

  lemma AccountKnown(l: Ledger, tx: TxId, team: TeamId, a: AccountRef)
    requires ValidLedger(l) && a in AccountsOf(l.journal, tx, team)
    ensures Known(l.chart, a)
  {
  }

  lemma ReversedItemsAre(l: Ledger, tx: TxId, team: TeamId, m: map<AccountRef, ChangeBalance>)
    requires ValidLedger(l) && Balances(l.chart, Filter(l.journal, OfTxAndTeam(tx, team)), m)
    ensures ReversedItems(m) == ReverseItems(l.chart, l.journal, tx, team)
  {
    forall a { ReversedItemIs(l, tx, team, m, a); }
    SameEverywhere(ReversedItems(m), ReverseItems(l.chart, l.journal, tx, team));
  }

  /** All the accounts of a team, in no particular order. */
  method SetReverses(entry: EntryBuilder, m: map<AccountRef, ChangeBalance>)
    requires entry.State() == EMPTY
    requires forall a :: a in m ==> a in entry.books.db.ledger.chart
    modifies entry
    ensures entry.State() == Draft(ReversedItems(m), None)
  {
    var todo := m.Keys;
    while todo != {}
      invariant todo <= m.Keys
      invariant forall a :: a in entry.entries <==> a in ReversedItems(m) && a !in todo
      invariant forall a :: a in entry.entries ==> entry.entries[a] == ReversedItems(m)[a]
      invariant entry.err == None
    {
      var a :| a in todo;
      SetReverse(entry, a, m[a]);
      todo := todo - {a};
    }
  }

  /** A team's part of `RollbackEntry`: its balances, the reversing entries, and their commit. */
  method ReverseTeam(books: BookManager, entries: multiset<Row>, tx: TxId, team: TeamId,
                     day: Day) returns (err: Option<Error>)
    requires ValidLedger(books.before) && books.db.ledger.chart == books.before.chart
    requires entries == Filter(books.before.journal, OfTx(tx))
    modifies books, books.db
    ensures (books.State(), err) == RunBook(old(books.State()), ReverseBook(books.before, tx, team), tx, day)
    ensures books.db.ledger.chart == books.before.chart
  {
    hide CommitSpec, ReverseItems, ReversedItems;
    var mine := FindEntries(entries, tx, Some(team));
    FilterTwice(books.before.journal, tx, team);
    EntriesKnown(books.before, tx, team);
    var ok, m := AccountBalance(books.db.ledger.chart, mine);
    var entry := books.NewCreateEntry(team);
    SetReverses(entry, m);
    ReversedItemsAre(books.before, tx, team, m);
    entry.Transaction(tx);
    entry.Commit(ROLLBACK, day);
    err := entry.err;
  }

  lemma FilterTwice(j: multiset<Row>, tx: TxId, team: TeamId)
    ensures Filter(Filter(j, OfTx(tx)), OfTxAndTeam(tx, team)) == Filter(j, OfTxAndTeam(tx, team))
  {
    forall r
      ensures Filter(Filter(j, OfTx(tx)), OfTxAndTeam(tx, team))[r] == Filter(j, OfTxAndTeam(tx, team))[r]
    {
      FilterAt(Filter(j, OfTx(tx)), OfTxAndTeam(tx, team), r);
      FilterAt(j, OfTx(tx), r);
      FilterAt(j, OfTxAndTeam(tx, team), r);
    }
  }

  lemma EntriesKnown(l: Ledger, tx: TxId, team: TeamId)
    requires ValidLedger(l)
    ensures forall r: Row :: r in Filter(l.journal, OfTxAndTeam(tx, team)) ==> r.account in l.chart
  {
    forall r: Row | r in Filter(l.journal, OfTxAndTeam(tx, team))
      ensures r in l.journal
    {
      FilterAt(l.journal, OfTxAndTeam(tx, team), r);
    }
  }

  lemma FilterRows(j: multiset<Row>, tx: TxId, r: Row)
    ensures r in Filter(j, OfTx(tx)) <==> r in j && r.tx == tx
  {
    FilterAt(j, OfTx(tx), r);
  }

  /** A finite set can be ranged over in some order. */
  lemma {:induction false} SomeOrder(s: set<TeamId>) returns (order: seq<TeamId>)
    ensures Enumerates(order, s) && |order| == |s|
    decreases |s|
  {
    if t :| t in s {
      var rest := SomeOrder(s - {t});
      order := [t] + rest;
      assert forall u :: u in order <==> u == t || u in rest;
    } else {
      order := [];
    }
  }

  lemma OrderOf(visited: seq<TeamId>, rest: seq<TeamId>, todo: set<TeamId>, teams: set<TeamId>)
    requires Enumerates(visited, teams - todo) && todo <= teams && Enumerates(rest, todo)
    ensures Enumerates(visited + rest, teams)
  {
    var order := visited + rest;
    assert forall u :: u in order <==> u in visited || u in rest;
    forall i, j | 0 <= i < j < |order|
      ensures order[i] != order[j]
    {
      assert order[i] in if i < |visited| then visited else rest;
      assert order[j] in if j < |visited| then visited else rest;
    }
  }

  lemma ReverseBooksAppend(l: Ledger, tx: TxId, a: seq<TeamId>, b: seq<TeamId>)
    ensures ReverseBooks(l, tx, a + b) == ReverseBooks(l, tx, a) + ReverseBooks(l, tx, b)
  {
  }

  lemma VisitOne(l: Ledger, tx: TxId, day: Day, s0: Session, visited: seq<TeamId>, team: TeamId, s: Session)
    requires RunBooks(s0, ReverseBooks(l, tx, visited), tx, day) == (s, None)
    ensures RunBooks(s0, ReverseBooks(l, tx, visited + [team]), tx, day) ==
      RunBook(s, ReverseBook(l, tx, team), tx, day)
  {
    ReverseBooksAppend(l, tx, visited, [team]);
    assert ReverseBooks(l, tx, [team]) == [ReverseBook(l, tx, team)];
    RunBooksAppend(s0, ReverseBooks(l, tx, visited), [ReverseBook(l, tx, team)], tx, day);
    RunOneBook(s, ReverseBook(l, tx, team), tx, day);
  }

  lemma OneMoreTeam(visited: seq<TeamId>, team: TeamId, todo: set<TeamId>, teams: set<TeamId>)
    requires todo <= teams && team in todo && Enumerates(visited, teams - todo)
    ensures Enumerates(visited + [team], teams - (todo - {team}))
  {
    assert forall u :: u in visited + [team] <==> u in visited || u == team;
  }

  /** The remaining teams only matter to the order: a run that failed before them ends the same. */
  lemma RestOfOrder(l: Ledger, tx: TxId, day: Day, s0: Session, visited: seq<TeamId>, todo: set<TeamId>,
                    teams: set<TeamId>)
    returns (order: seq<TeamId>)
    requires Enumerates(visited, teams - todo) && todo <= teams
    requires RunBooks(s0, ReverseBooks(l, tx, visited), tx, day).1.None? ==> todo == {}
    ensures Enumerates(order, teams)
    ensures RunBooks(s0, ReverseBooks(l, tx, order), tx, day) == RunBooks(s0, ReverseBooks(l, tx, visited), tx, day)
  {
    var rest := SomeOrder(todo);
    order := visited + rest;
    OrderOf(visited, rest, todo, teams);
    ReverseBooksAppend(l, tx, visited, rest);
    RunBooksAppend(s0, ReverseBooks(l, tx, visited), ReverseBooks(l, tx, rest), tx, day);
    if todo == {} {
      assert order == visited;
    }
  }

  /** The loop over the teams, in no particular order, up to the first that fails. */
  method ReverseTeams(books: BookManager, entries: multiset<Row>, tx: TxId, teams: set<TeamId>, day: Day)
    returns (failure: Option<Error>, ghost order: seq<TeamId>)
    requires ValidLedger(books.before) && books.db.ledger.chart == books.before.chart
    requires entries == Filter(books.before.journal, OfTx(tx))
    modifies books, books.db
    ensures Enumerates(order, teams)
    ensures (books.State(), failure) == RunBooks(old(books.State()), ReverseBooks(books.before, tx, order), tx, day)
  {
    ghost var l, s0 := books.before, books.State();
    ghost var visited: seq<TeamId> := [];
    var todo := teams;
    failure := None;
    while todo != {} && failure.None?
      invariant todo <= teams && Enumerates(visited, teams - todo)
      invariant books.db.ledger.chart == books.before.chart
      invariant (books.State(), failure) == RunBooks(s0, ReverseBooks(l, tx, visited), tx, day)
      decreases todo
    {
      var team :| team in todo;
      ghost var soFar := books.State();
      failure := ReverseTeam(books, entries, tx, team, day);
      VisitOne(l, tx, day, s0, visited, team, soFar);
      OneMoreTeam(visited, team, todo, teams);
      visited := visited + [team];
      todo := todo - {team};
    }
    order := RestOfOrder(l, tx, day, s0, visited, todo, teams);
  }

  method ReverseInTransaction(db: Database, entries: multiset<Row>, tx: TxId, teams: set<TeamId>, day: Day)
    returns (e: Option<Error>, ghost order: seq<TeamId>)
    requires ValidLedger(db.ledger) && entries == Filter(db.ledger.journal, OfTx(tx))
    modifies db
    ensures Enumerates(order, teams)
    ensures (db.ledger, e) ==
      OpenSpec(old(db.ledger), old(db.ledger), tx, ReverseBooks(old(db.ledger), tx, order), None, day)
  {
    var books := new BookManager.Begin(db);
    var failure;
    failure, order := ReverseTeams(books, entries, tx, teams, day);
    RunNeverSkips(Session(old(db.ledger), multiset{}), ReverseBooks(old(db.ledger), tx, order), tx, day);
    e := books.End(failure);
  }

  class TransactionMutation {
    const db: Database
    /** The transaction looked up: None before any lookup, id 0 when it was not found. */
    var data: Option<TxId>
    var err: Option<Error>

    constructor (db: Database)
      ensures this.db == db && data == None && err == None
    {
      this.db, data, err := db, None, None;
    }

    method SetErr(e: Error)
      modifies this
      ensures data == old(data) && err == if old(err).Some? then old(err) else Some(e)
    {
      if err.None? {
        err := Some(e);
      }
    }

    method ByRefID(ref: RefId)
      modifies this
      ensures data == Some(if ref in db.ledger.txs then db.ledger.txs[ref] else 0)
      ensures err == if old(err).None? && ref !in db.ledger.txs then Some(TransactionNotFound) else old(err)
    {
      if ref in db.ledger.txs {
        data := Some(db.ledger.txs[ref]);
      } else {
        data := Some(0);
        SetErr(TransactionNotFound);
      }
    }

    /** Total debit against total credit over the transaction's accounts. */
    method CheckEntry()
      modifies this
      ensures data == old(data)
      ensures data.None? ==> err.Some?
      ensures data.Some? && (forall r :: r in db.ledger.journal ==> r.account in db.ledger.chart) ==>
        err == if old(err).Some? || Rollback.CheckEntry(db.ledger.journal, data.value) then old(err)
          else Some(EntryInvalid)
    {
      if data.None? {
        SetErr(TransactionNotFound);
        return;
      }
      var entries := FindEntries(db.ledger.journal, data.value, None);
      forall r { FilterRows(db.ledger.journal, data.value, r); }
      var ok, m := AccountBalance(db.ledger.chart, entries);
      if !ok {
        SetErr(AccountNotFound);
        return;
      }
      var debit, credit := TotalBalances(m);
      BalanceTotals(db.ledger.chart, db.ledger.journal, data.value, m);
      if !Close(debit, credit) {
        SetErr(EntryInvalid);
      }
    }

    /** Each team's book is reversed, in some order of the teams, inside one transaction. */
    method RollbackEntry(day: Day) returns (ghost order: seq<TeamId>)
      requires ValidLedger(db.ledger)
      modifies this, db
      ensures data == old(data)
      ensures data.None? ==> db.ledger == old(db.ledger) && err.Some?
      ensures data.Some? ==>
        && Enumerates(order, TeamsOf(old(db.ledger).journal, data.value))
        && var (l, e) := RollbackSpec(old(db.ledger), data.value, order, day);
           db.ledger == l && err == if old(err).Some? then old(err) else e
    {
      order := [];
      if data.None? {
        SetErr(TransactionNotFound);
        return;
      }
      var tx := data.value;
      var entries := FindEntries(db.ledger.journal, tx, None);
      EntriesOfTx(db.ledger.journal, tx);
      if entries == multiset{} {
        SetErr(TransactionHasNoEntries);
        return;
      }
      var e;
      e, order := ReverseInTransaction(db, entries, tx, set r | r in entries :: r.team, day);
      if e.Some? {
        SetErr(e.value);
      }
    }
  }

  ghost function AllDebit(): Row -> real { (r: Row) => r.debit }
  ghost function AllCredit(): Row -> real { (r: Row) => r.credit }

  ghost function BalanceDebit(m: map<AccountRef, ChangeBalance>): AccountRef -> real {
    (a: AccountRef) => if a in m then m[a].debit else 0.0
  }

  ghost function BalanceCredit(m: map<AccountRef, ChangeBalance>): AccountRef -> real {
    (a: AccountRef) => if a in m then m[a].credit else 0.0
  }

  lemma ColumnTotal(rows: multiset<Row>, keys: set<AccountRef>, column: Row -> real, total: AccountRef -> real)
    requires forall r :: r in rows ==> r.account in keys
    requires forall a :: a in keys ==> total(a) == Sum(rows, Group(column, RowAccount(), a))
    ensures Sum(multiset(keys), total) == Sum(rows, column)
  {
    SumByGroup(rows, column, RowAccount(), keys);
    SumSame(multiset(keys), GroupTotal(rows, column, RowAccount()), total);
  }

  lemma DebitTotals(chart: Chart, rows: multiset<Row>, m: map<AccountRef, ChangeBalance>)
    requires Balances(chart, rows, m)
    ensures Sum(multiset(m.Keys), BalanceDebit(m)) == Sum(rows, AllDebit())
  {
    forall a | a in m.Keys { SumSame(rows, Group(AllDebit(), RowAccount(), a), DebitOn(a)); }
    ColumnTotal(rows, m.Keys, AllDebit(), BalanceDebit(m));
  }

  lemma CreditTotals(chart: Chart, rows: multiset<Row>, m: map<AccountRef, ChangeBalance>)
    requires Balances(chart, rows, m)
    ensures Sum(multiset(m.Keys), BalanceCredit(m)) == Sum(rows, AllCredit())
  {
    forall a | a in m.Keys { SumSame(rows, Group(AllCredit(), RowAccount(), a), CreditOn(a)); }
    ColumnTotal(rows, m.Keys, AllCredit(), BalanceCredit(m));
  }

  /** Totalling the balances of a transaction's accounts totals its rows. */
  lemma BalanceTotals(chart: Chart, j: multiset<Row>, tx: TxId, m: map<AccountRef, ChangeBalance>)
    requires Balances(chart, Filter(j, OfTx(tx)), m)
    ensures Sum(multiset(m.Keys), BalanceDebit(m)) == Sum(j, TxDebit(tx))
    ensures Sum(multiset(m.Keys), BalanceCredit(m)) == Sum(j, TxCredit(tx))
  {
    DebitTotals(chart, Filter(j, OfTx(tx)), m);
    CreditTotals(chart, Filter(j, OfTx(tx)), m);
    SumFilter(j, OfTx(tx), AllDebit(), TxDebit(tx));
    SumFilter(j, OfTx(tx), AllCredit(), TxCredit(tx));
  }

  method TotalBalances(m: map<AccountRef, ChangeBalance>) returns (debit: real, credit: real)
    ensures debit == Sum(multiset(m.Keys), BalanceDebit(m))
    ensures credit == Sum(multiset(m.Keys), BalanceCredit(m))
  {
    var todo := m.Keys;
    debit, credit := 0.0, 0.0;
    while todo != {}
      invariant todo <= m.Keys
      invariant debit + Sum(multiset(todo), BalanceDebit(m)) == Sum(multiset(m.Keys), BalanceDebit(m))
      invariant credit + Sum(multiset(todo), BalanceCredit(m)) == Sum(multiset(m.Keys), BalanceCredit(m))
    {
      var a :| a in todo;
      SumPickKey(todo, BalanceDebit(m), a);
      SumPickKey(todo, BalanceCredit(m), a);
      debit, credit := debit + m[a].debit, credit + m[a].credit;
      todo := todo - {a};
    }
    assert multiset(todo) == multiset{};
  }

  lemma EntriesOfTx(j: multiset<Row>, tx: TxId)
    ensures (set r | r in Filter(j, OfTx(tx)) :: r.team) == TeamsOf(j, tx)
    ensures Filter(j, OfTx(tx)) == multiset{} <==> TeamsOf(j, tx) == {}
  {
    forall r { FilterRows(j, tx, r); }
    if r :| r in Filter(j, OfTx(tx)) {
      assert r.team in TeamsOf(j, tx);
    }
  }
}

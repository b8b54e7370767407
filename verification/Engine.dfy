/** The journal engine as objects: the database, the book manager of an open transaction and the entry builder
    (accounting_core/journal_entries.go, accounting_core/accounting_manage.go). */
module Engine {
  import opened Sums
  import opened Accounts
  import opened Journal
  import opened Books

  class Database {
    var ledger: Ledger

    constructor (ledger: Ledger)
      ensures this.ledger == ledger
    {
      this.ledger := ledger;
    }
  }

  /** An open transaction: where to roll back to, and the entries of the committed books. */
  class BookManager {
    const db: Database
    const before: Ledger
    var entries: multiset<Emitted>

    constructor Begin(db: Database)
      ensures this.db == db && before == db.ledger && entries == multiset{}
    {
      this.db, before, entries := db, db.ledger, multiset{};
    }

    ghost function State(): Session
      reads this, db
    {
      Session(db.ledger, entries)
    }

    /** A new transaction with its labels: `NewTransaction().Create(tran).AddShopID(id).AddTags(tags)`. */
    method CreateTransaction(c: Creation) returns (err: Option<Error>, tx: TxId)
      modifies db
      ensures err == CreateError(old(db.ledger), c) && err != Some(SkipTransaction)
      ensures err.None? ==> tx == old(db.ledger).nextTx && db.ledger == WithTransaction(old(db.ledger), c)
    {
      var builder := new TransactionBuilder(db);
      builder.Create(c.ref);
      if c.shop.Some? {
        builder.AddShopID(c.shop.value);
      }
      builder.AddTags(c.tags);
      err, tx := builder.err, builder.tran;
    }

    method NewCreateEntry(team: TeamId) returns (entry: EntryBuilder)
      ensures fresh(entry) && entry.books == this && entry.team == team
      ensures entry.State() == EMPTY && entry.posted == [] && entry.Posting(db.ledger.chart)
    {
      entry := new EntryBuilder(this, team);
    }

    /** Every entry left in a committed builder, whether it got an id or not. */
    method AfterCommit(items: map<AccountRef, Item>, saved: set<AccountRef>, team: TeamId, opts: CommitOptions,
                       day: Day)
      modifies this
      ensures entries == old(entries) + Bag(items.Keys, KeptAt(items, saved, team, opts, day))
    {
      hide KeptAt;
      ghost var kept := KeptAt(items, saved, team, opts, day);
      ghost var done: set<AccountRef> := {};
      var todo := items.Keys;
      var added: multiset<Emitted> := multiset{};
      while todo != {}
        invariant forall a :: a in items <==> a in done || a in todo
        invariant forall a :: a in done ==> a !in todo
        invariant added == Bag(done, kept)
        invariant entries == old(entries)
      {
        var a :| a in todo;
        BagAdd(done, kept, a);
        KeptOne(items, saved, team, opts, day, a);
        added := added + multiset{Emitted(RowOf(a, items[a], team, opts, day), a in saved)};
        done, todo := done + {a}, todo - {a};
      }
      assert done == items.Keys;
      entries := entries + added;
    }

    /** The check that every entry got an id. */
    method EveryEntrySaved() returns (ok: bool)
      ensures ok <==> AllSaved(entries)
    {
      var todo := entries;
      while todo != multiset{}
        invariant todo <= entries
        invariant forall e :: e in entries && e !in todo ==> e.saved
        decreases |todo|
      {
        var e :| e in todo;
        if !e.saved {
          return false;
        }
        todo := todo[e := 0];
      }
      return true;
    }

    method DailyUpdateData() returns (message: multiset<Row>)
      ensures message == Image(entries, RowOfEmitted())
    {
      var todo := entries;
      message := multiset{};
      while todo != multiset{}
        invariant todo <= entries
        invariant message == Image(entries - todo, RowOfEmitted())
        decreases |todo|
      {
        var e :| e in todo;
        ImageAdd(entries - todo, e, RowOfEmitted());
        message := message + multiset{e.row};
        TakeOne(entries, todo, e);
        todo := todo - multiset{e};
      }
      assert entries - todo == entries;
    }

    /** The end of `OpenTransaction`: roll back on an error, an empty or an unsaved entry list; otherwise commit and
        queue one message. A skip rolls back without an error. */
    method End(err: Option<Error>) returns (r: Option<Error>)
      modifies db
      ensures err == Some(SkipTransaction) ==> r.None? && db.ledger == before
      ensures err != Some(SkipTransaction) ==> (db.ledger, r) == EndSpec(before, old(State()), err)
    {
      if err.Some? {
        db.ledger := before;
        return if err == Some(SkipTransaction) then None else err;
      }
      if entries == multiset{} {
        db.ledger := before;
        return Some(NoEntries);
      }
      var ok := EveryEntrySaved();
      if !ok {
        db.ledger := before;
        return Some(EntryNotSaved);
      }
      var message := DailyUpdateData();
      db.ledger := db.ledger.(pending := db.ledger.pending + message);
      return None;
    }
  }

  /** Creates a transaction and labels it. The error is sticky, and without a transaction every label fails. */
  class TransactionBuilder {
    const db: Database
    var tran: TxId
    var err: Option<Error>

    constructor (db: Database)
      ensures this.db == db && tran == 0 && err == None
    {
      this.db, tran, err := db, 0, None;
    }

    method SetErr(e: Error)
      modifies this
      ensures tran == old(tran) && err == if old(err).Some? then old(err) else Some(e)
    {
      if err.None? {
        err := Some(e);
      }
    }

    /** The reference is unique. */
    method Create(ref: RefId)
      requires tran == 0 && err.None?
      modifies this, db
      ensures ref in old(db.ledger).txs ==>
        tran == 0 && err == Some(TransactionAlreadyExist) && db.ledger == old(db.ledger)
      ensures ref !in old(db.ledger).txs ==>
        && tran == old(db.ledger).nextTx && err.None?
        && db.ledger == old(db.ledger).(txs := old(db.ledger).txs[ref := tran], nextTx := tran + 1)
    {
      if ref in db.ledger.txs {
        SetErr(TransactionAlreadyExist);
        return;
      }
      tran := db.ledger.nextTx;
      db.ledger := db.ledger.(txs := db.ledger.txs[ref := tran], nextTx := tran + 1);
    }

    /** The shop must exist; its marketplace becomes a tag. */
    method AddShopID(shop: nat)
      modifies this, db
      ensures tran == old(tran)
      ensures var l := old(db.ledger);
              var failure := if tran == 0 then Some(TransactionNotCreated) else ShopError(l, Some(shop));
              && err == (if old(err).Some? then old(err) else failure)
              && db.ledger == l.(tags := if failure.Some? then l.tags else KnownTags(l, Some(shop)))
    {
      if tran == 0 {
        SetErr(TransactionNotCreated);
        return;
      }
      if shop == 0 {
        SetErr(ShopIsNull);
        return;
      }
      if shop !in db.ledger.shops {
        SetErr(ShopNotFound);
        return;
      }
      AddTags([db.ledger.shops[shop]]);
    }

    /** The names not found when the loop starts are inserted one by one; the name of a tag is unique. An error takes
        the tags back. */
    method AddTags(names: seq<string>)
      modifies this, db
      ensures tran == old(tran)
      ensures var l := old(db.ledger);
              var failure := if tran == 0 then Some(TransactionNotCreated)
                             else if RepeatsNewTag(l.tags, names) then Some(TagAlreadyExist) else None;
              && err == (if old(err).Some? then old(err) else failure)
              && db.ledger == l.(tags := l.tags + if failure.Some? then {} else set t | t in names)
    {
      if tran == 0 {
        SetErr(TransactionNotCreated);
        return;
      }
      var found, tags := db.ledger.tags, db.ledger.tags;
      var i := 0;
      while i < |names|
        invariant 0 <= i <= |names| && db.ledger == old(db.ledger) && err == old(err) && tran == old(tran)
        invariant tags == found + set t | t in names[..i]
        invariant !RepeatsNewTag(found, names[..i])
      {
        assert names[..i + 1] == names[..i] + [names[i]];
        if names[i] !in found {
          if names[i] in tags {
            assert names[i] in names[..i];
            var j :| 0 <= j < i && names[j] == names[i];
            assert RepeatsNewTag(found, names);
            SetErr(TagAlreadyExist);
            return;
          }
          tags := tags + {names[i]};
        }
        i := i + 1;
      }
      assert names[..i] == names;
      db.ledger := db.ledger.(tags := tags);
    }
  }

  ghost function KeptAt(items: map<AccountRef, Item>, saved: set<AccountRef>, team: TeamId, opts: CommitOptions,
                        day: Day): AccountRef -> multiset<Emitted> {
    (a: AccountRef) => if a in items then multiset{Emitted(RowOf(a, items[a], team, opts, day), a in saved)}
      else multiset{}
  }

  lemma KeptOne(items: map<AccountRef, Item>, saved: set<AccountRef>, team: TeamId, opts: CommitOptions, day: Day,
                a: AccountRef)
    requires a in items
    ensures KeptAt(items, saved, team, opts, day)(a) ==
      multiset{Emitted(RowOf(a, items[a], team, opts, day), a in saved)}
  {
  }

  /** The two sides of an account over some rows, and its balance in the account's own sign. */
  datatype ChangeBalance = ChangeBalance(side: BalanceType, debit: real, credit: real) {
    function Change(): real { Natural(side, debit, credit) }
  }

  /** One call per account that is not at zero, with the amount that undoes it. */
  ghost predicate ReversesSome(olds: map<AccountRef, ChangeBalance>, done: set<AccountRef>, ps: seq<Post>) {
    && (forall i, j :: 0 <= i < j < |ps| ==> ps[i].account != ps[j].account)
    && (forall p :: p in ps ==> p.account in olds && p.account in done)
    && (forall p :: p in ps ==> p.amount == -olds[p.account].Change() && p.amount != 0.0)
    && (forall a :: a in olds && a in done && olds[a].Change() != 0.0 ==> Post(a, -olds[a].Change()) in ps)
  }

  ghost predicate Reverses(olds: map<AccountRef, ChangeBalance>, ps: seq<Post>) {
    ReversesSome(olds, olds.Keys, ps)
  }

  ghost function Undoing(a: AccountRef, amount: real): seq<Post> {
    if amount != 0.0 then [Post(a, -amount)] else []
  }

  lemma ReverseOne(olds: map<AccountRef, ChangeBalance>, done: set<AccountRef>, ps: seq<Post>, a: AccountRef)
    requires ReversesSome(olds, done, ps) && a in olds && a !in done
    ensures ReversesSome(olds, done + {a}, ps + Undoing(a, olds[a].Change()))
  {
    var p := Post(a, -olds[a].Change());
    assert forall q :: q in ps + [p] <==> q in ps || q == p;
    assert forall i :: 0 <= i < |ps| ==> ps[i] in ps;
  }

  /** Builds one team's book. The error is sticky: the first one stays, and the calls after it go on. */
  class EntryBuilder {
    const books: BookManager
    const team: TeamId
    var entries: map<AccountRef, Item>
    var err: Option<Error>
    /** The accounts that `Set` has looked up. */
    var tried: set<AccountRef>
    ghost var posted: seq<Post>

    constructor (books: BookManager, team: TeamId)
      ensures this.books == books && this.team == team
      ensures State() == EMPTY && posted == []
    {
      this.books, this.team, entries, err, tried, posted := books, team, map[], None, {}, [];
    }

    ghost function State(): Draft
      reads this
    {
      Draft(entries, err)
    }

    /** The draft is what the chain of posts so far makes of a fresh builder. */
    ghost predicate Posting(chart: Chart)
      reads this
    {
      State() == PostAll(chart, posted)
    }

    method SetErr(e: Error)
      modifies this
      ensures State() == Fail(old(State()), e) && posted == old(posted) && tried == old(tried)
    {
      if err.None? {
        err := Some(e);
      }
    }

    method MergeEntry(account: AccountRef, debit: real, credit: real)
      modifies this
      ensures entries == Merge(old(entries), account, debit, credit) && err == old(err) && posted == old(posted)
      ensures tried == old(tried)
    {
      if account in entries {
        var e := entries[account];
        entries := entries[account := Item(e.debit + debit, e.credit + credit, e.tx)];
      } else {
        entries := entries[account := Item(debit, credit, 0)];
      }
    }

    method To(account: AccountRef, amount: real)
      modifies this
      ensures State() == ToSpec(books.db.ledger.chart, old(State()), Post(account, amount))
      ensures posted == old(posted) + [Post(account, amount)]
      ensures old(Posting(books.db.ledger.chart)) ==> Posting(books.db.ledger.chart)
    {
      ghost var p := Post(account, amount);
      assert (posted + [p])[..|posted|] == posted;
      var chart := books.db.ledger.chart;
      if account !in chart {
        SetErr(AccountNotFound);
      } else if amount == 0.0 {
        SetErr(ZeroAmount);
      } else {
        match chart[account] {
          case CreditBalance =>
            if amount > 0.0 { MergeEntry(account, 0.0, Abs(amount)); } else { MergeEntry(account, Abs(amount), 0.0); }
          case DebitBalance =>
            if amount > 0.0 { MergeEntry(account, Abs(amount), 0.0); } else { MergeEntry(account, 0.0, Abs(amount)); }
          case OtherBalance =>
            SetErr(InvalidAccountType);
        }
      }
      posted := posted + [p];
    }

    method From(account: AccountRef, amount: real)
      modifies this
      ensures State() == ToSpec(books.db.ledger.chart, old(State()), Post(account, -amount))
      ensures posted == old(posted) + [Post(account, -amount)]
      ensures old(Posting(books.db.ledger.chart)) ==> Posting(books.db.ledger.chart)
    {
      To(account, -amount);
    }

    method UndoOne(a: AccountRef, amount: real)
      modifies this
      ensures posted == old(posted) + Undoing(a, amount)
      ensures old(Posting(books.db.ledger.chart)) ==> Posting(books.db.ledger.chart)
    {
      if amount > 0.0 {
        From(a, amount);
      }
      if amount < 0.0 {
        To(a, Abs(amount));
      }
    }

    /** Undo a map of balances, one account after another in no particular order. */
    method Rollback(olds: map<AccountRef, ChangeBalance>) returns (ghost ps: seq<Post>)
      modifies this
      ensures Reverses(olds, ps) && posted == old(posted) + ps
      ensures old(Posting(books.db.ledger.chart)) ==> Posting(books.db.ledger.chart)
    {
      ghost var done := {};
      var todo := olds.Keys;
      ps := [];
      while todo != {}
        invariant forall a :: a in olds <==> a in done || a in todo
        invariant forall a :: a in done ==> a !in todo
        invariant ReversesSome(olds, done, ps)
        invariant posted == old(posted) + ps
        invariant old(Posting(books.db.ledger.chart)) ==> Posting(books.db.ledger.chart)
      {
        var a :| a in todo;
        UndoOne(a, olds[a].Change());
        ReverseOne(olds, done, ps, a);
        ps := ps + Undoing(a, olds[a].Change());
        done, todo := done + {a}, todo - {a};
      }
    }

    method Set(account: AccountRef, credit: real, debit: real)
      modifies this
      ensures State() == SetSpec(books.db.ledger.chart, old(tried), old(State()), account, credit, debit)
      ensures tried == old(tried) + {account} && posted == old(posted)
    {
      if account !in tried {
        tried := tried + {account};
        if account !in books.db.ledger.chart {
          SetErr(AccountNotFound);
          return;
        }
      }
      MergeEntry(account, debit, credit);
    }

    method Transaction(tx: TxId)
      modifies this
      ensures State() == TransactionSpec(old(State()), tx) && posted == old(posted)
    {
      if entries == map[] {
        SetErr(EmptyEntry);
      } else {
        entries := map a | a in entries :: entries[a].(tx := tx);
      }
    }

    /** One entry at commit: dropped when its sides are equal, split when it has both, saved as it is otherwise. */
    method CommitEntry(a: AccountRef, opts: CommitOptions, day: Day) returns (rows: multiset<Row>, saved: bool)
      requires a in entries
      modifies this
      ensures rows == RowsOf(a, old(entries)[a], team, opts, day) && saved == !Skipped(old(entries)[a], opts)
      ensures entries == old(entries)[a := Settle(old(entries)[a], opts)] && err == old(err) && posted == old(posted)
    {
      var entry := entries[a];
      if !opts.includeEqual && entry.debit == entry.credit {
        return multiset{}, false;
      }
      rows := multiset{};
      if entry.debit > 0.0 && entry.credit > 0.0 {
        rows := multiset{RowOf(a, entry.(credit := 0.0), team, opts, day)};
        entry := entry.(debit := 0.0);
        entries := entries[a := entry];
      }
      rows := rows + multiset{RowOf(a, entry, team, opts, day)};
      saved := true;
    }

    /** The loop of `Commit` over the entry map, in no particular order. */
    method CommitEntries(opts: CommitOptions, day: Day)
      returns (debit: real, credit: real, rows: multiset<Row>, saved: set<AccountRef>)
      modifies this
      ensures debit == TotalDebit(old(entries)) && credit == TotalCredit(old(entries))
      ensures rows == CommitRows(old(entries), team, opts, day)
      ensures entries == SettleAll(old(entries), opts) && err == old(err) && posted == old(posted)
      ensures SavedKeys(old(entries), saved, opts)
    {
      hide Counted, Settled, SavedKeys, Settle, RowsOf, Skipped, SettleAll, TotalDebit, TotalCredit, CommitRows;
      ghost var items, done := entries, {};
      debit, credit, rows, saved := 0.0, 0.0, multiset{}, {};
      var todo := entries.Keys;
      NoneDone(items, team, opts, day);
      while todo != {}
        invariant forall a :: a in items <==> a in done || a in todo
        invariant forall a :: a in done ==> a !in todo
        invariant Counted(items, done, team, opts, day, debit, credit, rows)
        invariant Settled(items, done, entries, saved, opts)
        invariant err == old(err) && posted == old(posted)
      {
        var a :| a in todo;
        CountOne(items, done, a, team, opts, day, debit, credit, rows);
        SettleOne(items, done, a, entries, saved, opts);
        debit, credit := debit + entries[a].debit, credit + entries[a].credit;
        var entryRows, entrySaved := CommitEntry(a, opts, day);
        rows := rows + entryRows;
        if entrySaved {
          saved := saved + {a};
        }
        done, todo := done + {a}, todo - {a};
      }
      AllDone(items, done, team, opts, day, debit, credit, rows, entries, saved);
    }

    /** Total both sides, drop equal-sided entries, split two-sided ones, check the balance, save, and hand the
        entries to the book manager. */
    method Commit(opts: CommitOptions, day: Day)
      modifies this, books, books.db
      ensures (books.State(), State()) == CommitSpec(old(books.State()), team, old(State()), opts, day)
      ensures books.db.ledger.chart == old(books.db.ledger.chart)
    {
      ghost var items := entries;
      if entries == map[] {
        SetErr(EmptyEntry);
        return;
      }
      var debit, credit, rows, saved := CommitEntries(opts, day);
      if !Close(debit, credit) {
        SetErr(EntryInvalid);
        return;
      }
      if rows == multiset{} {
        SetErr(EmptyBook);
        return;
      }
      books.db.ledger := books.db.ledger.(journal := books.db.ledger.journal + rows);
      books.AfterCommit(entries, saved, team, opts, day);
      KeptIsEmitted(items, saved, team, opts, day);
    }
  }

  lemma KeptIsEmitted(items: map<AccountRef, Item>, saved: set<AccountRef>, team: TeamId, opts: CommitOptions, day: Day)
    requires SavedKeys(items, saved, opts)
    ensures var settled := SettleAll(items, opts);
            Bag(settled.Keys, KeptAt(settled, saved, team, opts, day)) == CommitEmitted(items, team, opts, day)
  {
    var settled := SettleAll(items, opts);
    assert settled.Keys == items.Keys;
    BagSame(items.Keys, KeptAt(settled, saved, team, opts, day), EmittedAt(items, team, opts, day));
  }

  /** The end of a chain of calls: set the transaction, commit, and look at the error. */
  method CommitBook(entry: EntryBuilder, tx: TxId, day: Day) returns (err: Option<Error>)
    requires entry.Posting(entry.books.db.ledger.chart)
    modifies entry, entry.books, entry.books.db
    ensures (entry.books.State(), err) ==
      RunBooks(old(entry.books.State()), [PostBook(old(entry.books.db.ledger.chart), entry.team, old(entry.posted))],
               tx, day)
    ensures entry.books.db.ledger.chart == old(entry.books.db.ledger.chart)
  {
    RunOneBook(entry.books.State(), PostBook(entry.books.db.ledger.chart, entry.team, entry.posted), tx, day);
    entry.Transaction(tx);
    entry.Commit(NO_OPTIONS, day);
    err := entry.err;
  }

  /** A book of two calls, the commonest chain: `NewCreateEntry(team).To(p).To(q).Transaction(tx).Commit().Err()`. */
  method BookPair(books: BookManager, team: TeamId, p: Post, q: Post, tx: TxId, day: Day) returns (err: Option<Error>)
    modifies books, books.db
    ensures (books.State(), err) ==
      RunBooks(old(books.State()), [PostBook(old(books.db.ledger.chart), team, [p, q])], tx, day)
    ensures books.db.ledger.chart == old(books.db.ledger.chart)
  {
    var entry := books.NewCreateEntry(team);
    entry.To(p.account, p.amount);
    entry.To(q.account, q.amount);
    assert entry.posted == [p, q];
    err := CommitBook(entry, tx, day);
  }

  ghost predicate SavedKeys(items: map<AccountRef, Item>, saved: set<AccountRef>, opts: CommitOptions) {
    forall a :: a in saved <==> a in items && !Skipped(items[a], opts)
  }

  /** The totals and rows of the entries done so far. */
  ghost predicate Counted(items: map<AccountRef, Item>, done: set<AccountRef>, team: TeamId, opts: CommitOptions,
                          day: Day,
                          debit: real, credit: real, rows: multiset<Row>) {
    && debit == Sum(multiset(done), DebitOf(items))
    && credit == Sum(multiset(done), CreditOf(items))
    && rows == Bag(done, RowsAt(items, team, opts, day))
  }

  /** The builder's entries part way: those done are settled, the others as they were. */
  ghost predicate Settled(items: map<AccountRef, Item>, done: set<AccountRef>, entries: map<AccountRef, Item>,
                          saved: set<AccountRef>, opts: CommitOptions) {
    && entries.Keys == items.Keys
    && (forall a :: a in items ==> entries[a] == if a in done then Settle(items[a], opts) else items[a])
    && (forall a :: a in saved <==> a in done && a in items && !Skipped(items[a], opts))
  }

  lemma CountOne(items: map<AccountRef, Item>, done: set<AccountRef>, a: AccountRef, team: TeamId, opts: CommitOptions,
                 day: Day,
                 debit: real, credit: real, rows: multiset<Row>)
    requires a in items && a !in done && Counted(items, done, team, opts, day, debit, credit, rows)
    ensures Counted(items, done + {a}, team, opts, day, debit + items[a].debit, credit + items[a].credit,
                    rows + RowsOf(a, items[a], team, opts, day))
  {
    assert multiset(done + {a}) == multiset(done) + multiset{a};
    SumAdd(multiset(done), a, DebitOf(items));
    SumAdd(multiset(done), a, CreditOf(items));
    BagAdd(done, RowsAt(items, team, opts, day), a);
  }

  lemma NoneDone(items: map<AccountRef, Item>, team: TeamId, opts: CommitOptions, day: Day)
    ensures Counted(items, {}, team, opts, day, 0.0, 0.0, multiset{})
    ensures Settled(items, {}, items, {}, opts)
  {
    var none: set<AccountRef> := {};
    assert multiset(none) == multiset{};
  }

  lemma AllDone(items: map<AccountRef, Item>, done: set<AccountRef>, team: TeamId, opts: CommitOptions, day: Day,
                debit: real, credit: real, rows: multiset<Row>, entries: map<AccountRef, Item>, saved: set<AccountRef>)
    requires forall a :: a in items <==> a in done
    requires Counted(items, done, team, opts, day, debit, credit, rows) && Settled(items, done, entries, saved, opts)
    ensures debit == TotalDebit(items) && credit == TotalCredit(items) && rows == CommitRows(items, team, opts, day)
    ensures entries == SettleAll(items, opts) && SavedKeys(items, saved, opts)
  {
    assert done == items.Keys;
  }

  lemma SettleOne(items: map<AccountRef, Item>, done: set<AccountRef>, a: AccountRef, entries: map<AccountRef, Item>,
                  saved: set<AccountRef>, opts: CommitOptions)
    requires a in items && a !in done && Settled(items, done, entries, saved, opts)
    ensures a in entries && entries[a] == items[a]
    ensures Settled(items, done + {a}, entries[a := Settle(items[a], opts)],
                    if Skipped(items[a], opts) then saved else saved + {a}, opts)
  {
  }
}

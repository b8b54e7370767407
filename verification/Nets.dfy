/** Balances read off the journal: the net of an account in one book of one transaction, the imbalance
    of a book, and what an accepted transaction does to them. */
module Nets {
  import opened Sums
  import opened Accounts
  import opened Journal
  import opened Books

  /** One account, in one team's book, of one transaction. */
  ghost function At(tx: TxId, team: TeamId, a: AccountRef): (TxId, TeamId, AccountRef) -> bool {
    (x: TxId, t: TeamId, b: AccountRef) => x == tx && t == team && b == a
  }

  /** One account in one team's book, over all transactions. */
  ghost function InBook(team: TeamId, a: AccountRef): (TxId, TeamId, AccountRef) -> bool {
    (x: TxId, t: TeamId, b: AccountRef) => t == team && b == a
  }

  /** One team's book of one transaction. */
  ghost function InTx(tx: TxId, team: TeamId): (TxId, TeamId, AccountRef) -> bool {
    (x: TxId, t: TeamId, b: AccountRef) => x == tx && t == team
  }

  ghost function InTeam(team: TeamId): (TxId, TeamId, AccountRef) -> bool {
    (x: TxId, t: TeamId, b: AccountRef) => t == team
  }

  /** Debit minus credit of an account in a team's book of a transaction. */
  ghost function Net(j: multiset<Row>, tx: TxId, team: TeamId, a: AccountRef): real {
    Sum(j, Raw(At(tx, team, a)))
  }

  /** The same over all transactions. */
  ghost function BookBalance(j: multiset<Row>, team: TeamId, a: AccountRef): real {
    Sum(j, Raw(InBook(team, a)))
  }

  /** What a transaction leaves unbalanced in a team's book. */
  ghost function Imbalance(j: multiset<Row>, tx: TxId, team: TeamId): real {
    Sum(j, Raw(InTx(tx, team)))
  }

  ghost function BookNet(b: Book, team: TeamId, a: AccountRef): real {
    if b.saves && b.team == team && a in b.draft.items then b.draft.items[a].debit - b.draft.items[a].credit else 0.0
  }

  ghost function BooksNet(bs: seq<Book>, team: TeamId, a: AccountRef): real {
    if bs == [] then 0.0 else BookNet(bs[0], team, a) + BooksNet(bs[1..], team, a)
  }

  lemma {:induction false} BooksNetAppend(bs: seq<Book>, cs: seq<Book>, team: TeamId, a: AccountRef)
    ensures BooksNet(bs + cs, team, a) == BooksNet(bs, team, a) + BooksNet(cs, team, a)
    decreases |bs|
  {
    if bs == [] {
      assert bs + cs == cs;
    } else {
      assert (bs + cs)[1..] == bs[1..] + cs;
      BooksNetAppend(bs[1..], cs, team, a);
    }
  }

  lemma ItemsNet(items: map<AccountRef, Item>, book: TeamId, sel: (TxId, TeamId, AccountRef) -> bool, a: AccountRef)
    requires forall c :: c in items && c != a ==> !sel(items[c].tx, book, c)
    ensures Sum(multiset(items.Keys), ItemRaw(items, book, sel)) ==
      if a in items then ItemRaw(items, book, sel)(a) else 0.0
  {
    SumPoint(items.Keys, a, ItemRaw(items, book, sel));
  }

  lemma NetOfItems(items: map<AccountRef, Item>, book: TeamId, opts: CommitOptions, day: Day, x: TxId, team: TeamId,
                   a: AccountRef)
    ensures Net(CommitRows(items, book, opts, day), x, team, a) ==
      if a in items && items[a].tx == x && book == team then items[a].debit - items[a].credit else 0.0
  {
    CommitKeepsRaw(items, book, opts, day, At(x, team, a));
    ItemsNet(items, book, At(x, team, a), a);
  }

  lemma NetOfBook(b: Book, tx: TxId, day: Day, x: TxId, team: TeamId, a: AccountRef)
    ensures Net(BookRows(b, tx, day), x, team, a) == if x == tx then BookNet(b, team, a) else 0.0
  {
    if b.saves {
      NetOfItems(BookItems(b, tx), b.team, b.opts, day, x, team, a);
    }
  }

  lemma {:induction false} NetOfBooks(bs: seq<Book>, tx: TxId, day: Day, x: TxId, team: TeamId, a: AccountRef)
    ensures Net(BooksRows(bs, tx, day), x, team, a) == if x == tx then BooksNet(bs, team, a) else 0.0
    decreases |bs|
  {
    if bs != [] {
      NetOfBook(bs[0], tx, day, x, team, a);
      NetOfBooks(bs[1..], tx, day, x, team, a);
      SumUnion(BookRows(bs[0], tx, day), BooksRows(bs[1..], tx, day), Raw(At(x, team, a)));
    }
  }

  lemma BalanceOfItems(items: map<AccountRef, Item>, book: TeamId, opts: CommitOptions, day: Day, team: TeamId,
                       a: AccountRef)
    ensures BookBalance(CommitRows(items, book, opts, day), team, a) ==
      if a in items && book == team then items[a].debit - items[a].credit else 0.0
  {
    CommitKeepsRaw(items, book, opts, day, InBook(team, a));
    ItemsNet(items, book, InBook(team, a), a);
  }

  lemma BalanceOfBook(b: Book, tx: TxId, day: Day, team: TeamId, a: AccountRef)
    ensures BookBalance(BookRows(b, tx, day), team, a) == BookNet(b, team, a)
  {
    if b.saves {
      BalanceOfItems(BookItems(b, tx), b.team, b.opts, day, team, a);
    }
  }

  lemma {:induction false} BalanceOfBooks(bs: seq<Book>, tx: TxId, day: Day, team: TeamId, a: AccountRef)
    ensures BookBalance(BooksRows(bs, tx, day), team, a) == BooksNet(bs, team, a)
    decreases |bs|
  {
    if bs != [] {
      BalanceOfBook(bs[0], tx, day, team, a);
      BalanceOfBooks(bs[1..], tx, day, team, a);
      SumUnion(BookRows(bs[0], tx, day), BooksRows(bs[1..], tx, day), Raw(InBook(team, a)));
    }
  }

  /** How many of the saved books are the team's. */
  ghost function BookCount(bs: seq<Book>, team: TeamId): nat {
    if bs == [] then 0 else (if bs[0].saves && bs[0].team == team then 1 else 0) + BookCount(bs[1..], team)
  }

  /** |v| stays under n tolerances, and is exactly zero for none. */
  predicate Within(v: real, n: nat) {
    if n == 0 then v == 0.0 else Abs(v) < n as real * 0.0001
  }

  lemma WithinAdd(v: real, n: nat, w: real, m: nat)
    requires Within(v, n) && Within(w, m)
    ensures Within(v + w, n + m)
  {
  }

  ghost function CountIn(bs: seq<Book>, tx: TxId, x: TxId, team: TeamId): nat {
    if x == tx then BookCount(bs, team) else 0
  }

  lemma ImbalanceOfBook(b: Book, tx: TxId, day: Day, x: TxId, team: TeamId)
    requires Passes(b, tx, day)
    ensures Within(Imbalance(BookRows(b, tx, day), x, team), CountIn([b], tx, x, team))
  {
    assert BookCount([b], team) == if b.saves && b.team == team then 1 else 0;
    if b.saves {
      var items := BookItems(b, tx);
      CommitKeepsRaw(items, b.team, b.opts, day, InTx(x, team));
      if x == tx && b.team == team {
        BookRaw(items, b.team, InTx(x, team));
        assert Close(TotalDebit(items), TotalCredit(items));
      } else {
        SumZero(multiset(items.Keys), ItemRaw(items, b.team, InTx(x, team)));
      }
    }
  }

  /** Each accepted book of a team adds less than one tolerance to its imbalance. */
  lemma {:induction false} ImbalanceOfBooks(bs: seq<Book>, tx: TxId, day: Day, x: TxId, team: TeamId)
    requires AllPass(bs, tx, day)
    ensures Within(Imbalance(BooksRows(bs, tx, day), x, team), CountIn(bs, tx, x, team))
    decreases |bs|
  {
    if bs != [] {
      var b, rest := bs[0], bs[1..];
      assert b in bs;
      ImbalanceOfBook(b, tx, day, x, team);
      assert AllPass(rest, tx, day);
      ImbalanceOfBooks(rest, tx, day, x, team);
      SumUnion(BookRows(b, tx, day), BooksRows(rest, tx, day), Raw(InTx(x, team)));
      assert bs == [b] + rest;
      CountStep(b, rest, tx, x, team);
      WithinAdd(Imbalance(BookRows(b, tx, day), x, team), CountIn([b], tx, x, team),
                Imbalance(BooksRows(rest, tx, day), x, team), CountIn(rest, tx, x, team));
    }
  }

  lemma CountStep(b: Book, rest: seq<Book>, tx: TxId, x: TxId, team: TeamId)
    ensures CountIn([b] + rest, tx, x, team) == CountIn([b], tx, x, team) + CountIn(rest, tx, x, team)
  {
    assert ([b] + rest)[0] == b && ([b] + rest)[1..] == rest;
    assert [b][1..] == [] && BookCount([], team) == 0;
    assert BookCount([b], team) == (if b.saves && b.team == team then 1 else 0) + BookCount([b][1..], team);
  }

  // ---- a book made of To and From calls ------------------------------------------------

  /** A positive amount raises the account: debit for a debit-side account, credit for a credit-side one. */
  function RawAmount(side: BalanceType, amount: real): real {
    if side == DebitBalance then amount else -amount
  }

  ghost function PostRaw(chart: Chart, a: AccountRef): Post -> real {
    (p: Post) => if p.account == a && PostError(chart, p).None? then RawAmount(chart[a], p.amount) else 0.0
  }

  lemma PostBookNet(chart: Chart, book: TeamId, ps: seq<Post>, team: TeamId, a: AccountRef)
    ensures BookNet(PostBook(chart, book, ps), team, a) == if team ==
      book then Sum(multiset(ps), PostRaw(chart, a)) else 0.0
  {
    PostAllAt(chart, ps, a);
    SumMinus(multiset(ps), DebitPart(chart, a), CreditPart(chart, a), PostRaw(chart, a));
  }

  /** Signed amounts: what was posted to debit-side accounts, less what was posted to credit-side ones. */
  ghost function PostSigned(chart: Chart): Post -> real {
    (p: Post) => if PostError(chart, p).None? then RawAmount(chart[p.account], p.amount) else 0.0
  }

  ghost function AccountOf(): Post -> AccountRef { (p: Post) => p.account }

  lemma PostGroup(chart: Chart, ps: seq<Post>, a: AccountRef)
    ensures var items := PostAll(chart, ps).items;
            Sum(multiset(ps), Group(PostSigned(chart), AccountOf(), a)) == DebitOf(items)(a) - CreditOf(items)(a)
  {
    PostAllAt(chart, ps, a);
    SumMinus(multiset(ps), DebitPart(chart, a), CreditPart(chart, a), Group(PostSigned(chart), AccountOf(), a));
  }

  lemma PostBookTotal(chart: Chart, ps: seq<Post>)
    ensures var items := PostAll(chart, ps).items;
            TotalDebit(items) - TotalCredit(items) == Sum(multiset(ps), PostSigned(chart))
  {
    var keys, f := PostAll(chart, ps).items.Keys, PostSigned(chart);
    forall p | p in multiset(ps)
      ensures AccountOf()(p) in keys || f(p) == 0.0
    {
      assert p in ps;
      PostAllKeys(chart, ps, p.account);
    }
    SumByGroup(multiset(ps), f, AccountOf(), keys);
    forall a | a in keys { PostGroup(chart, ps, a); }
    var items := PostAll(chart, ps).items;
    SumMinus(multiset(keys), DebitOf(items), CreditOf(items), GroupTotal(multiset(ps), f, AccountOf()));
  }

  ghost predicate OneSided(r: Row) {
    (r.debit > 0.0 && r.credit == 0.0) || (r.debit == 0.0 && r.credit > 0.0)
  }

  /** The entries of a chain of calls hold no negative side, and not two zero sides. */
  lemma PostedItem(chart: Chart, ps: seq<Post>, a: AccountRef)
    requires a in PostAll(chart, ps).items
    ensures var i := PostAll(chart, ps).items[a]; i.debit >= 0.0 && i.credit >= 0.0 && i.debit + i.credit > 0.0
    ensures a in chart && chart[a] != OtherBalance
  {
    PostAllAt(chart, ps, a);
    PostAllKeys(chart, ps, a);
    SumNonneg(multiset(ps), DebitPart(chart, a));
    SumNonneg(multiset(ps), CreditPart(chart, a));
    var p :| p in ps && p.account == a && PostError(chart, p).None?;
    assert p in multiset(ps);
  }

  /** Commit is faithful: when a book of `To`/`From` calls passes, every saved row is one-sided, each account
      moves by exactly the signed amounts posted to it, and debit-side postings meet credit-side ones
      within the tolerance. */
  lemma CommitIsFaithful(chart: Chart, team: TeamId, ps: seq<Post>, tx: TxId, day: Day)
    requires Passes(PostBook(chart, team, ps), tx, day)
    ensures var rows := BookRows(PostBook(chart, team, ps), tx, day);
            && (forall r :: r in rows ==> OneSided(r) && r.team == team && r.tx == tx)
            && (forall a :: Net(rows, tx, team, a) == Sum(multiset(ps), PostRaw(chart, a)))
            && Abs(Sum(multiset(ps), PostSigned(chart))) < EPSILON
            && Imbalance(rows, tx, team) == Sum(multiset(ps), PostSigned(chart))
  {
    var b := PostBook(chart, team, ps);
    var items := BookItems(b, tx);
    forall r | r in BookRows(b, tx, day)
      ensures OneSided(r) && r.team == team && r.tx == tx
    {
      CommitRowsFrom(items, team, NO_OPTIONS, day, r);
      PostedItem(chart, ps, r.account);
    }
    forall a
      ensures Net(BookRows(b, tx, day), tx, team, a) == Sum(multiset(ps), PostRaw(chart, a))
    {
      NetOfBook(b, tx, day, tx, team, a);
      PostBookNet(chart, team, ps, team, a);
    }
    CommitKeepsRaw(items, team, NO_OPTIONS, day, InTx(tx, team));
    BookRaw(items, team, InTx(tx, team));
    TotalsIgnoreTx(b.draft, tx);
    PostBookTotal(chart, ps);
  }

  lemma TotalsIgnoreTx(d: Draft, tx: TxId)
    ensures TotalDebit(TransactionSpec(d, tx).items) == TotalDebit(d.items)
    ensures TotalCredit(TransactionSpec(d, tx).items) == TotalCredit(d.items)
  {
    var i := TransactionSpec(d, tx).items;
    assert i.Keys == d.items.Keys;
    SumSame(multiset(i.Keys), DebitOf(i), DebitOf(d.items));
    SumSame(multiset(i.Keys), CreditOf(i), CreditOf(d.items));
  }

  /** Commit is order-independent: permuting the calls of a book changes neither its acceptance nor a saved row. */
  lemma CommitOrderIrrelevant(chart: Chart, team: TeamId, ps: seq<Post>, qs: seq<Post>, tx: TxId, day: Day)
    requires multiset(ps) == multiset(qs)
    ensures var b, c := PostBook(chart, team, ps), PostBook(chart, team, qs);
            && (Passes(b, tx, day) <==> Passes(c, tx, day))
            && BookRows(b, tx, day) == BookRows(c, tx, day)
            && BookEmitted(b, tx, day) == BookEmitted(c, tx, day)
  {
    PostOrderIrrelevant(chart, ps, qs);
  }
}

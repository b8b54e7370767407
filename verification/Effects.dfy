/** What an accepted transaction does to every account of every book, read off the journal. */
module Effects {
  import opened Accounts
  import opened Journal
  import opened Books
  import opened Nets
  import opened Rollback
  import opened Moves
  import opened LandedCost

  /** An account in a team's book. */
  datatype Cell = Cell(book: TeamId, key: AccountKey, team: TeamId)

  function Account(c: Cell): AccountRef { AccountRef(c.key, c.team) }

  /** The amount, on one account of one book only. */
  function On(c: Cell, d: Cell, amount: real): real { if c == d then amount else 0.0 }

  /** From l to l' the account moves by the amount, in its own sign, all of it in the transaction tx, where it had
      nothing. */
  ghost predicate Gains(l: Ledger, l': Ledger, tx: TxId, c: Cell, amount: real) {
    var raw := if SeedSide(c.key) == DebitBalance then amount else -amount;
    && BookBalance(l'.journal, c.book, Account(c)) == BookBalance(l.journal, c.book, Account(c)) + raw
    && Net(l'.journal, tx, c.book, Account(c)) == raw
    && forall x :: x != tx ==> Net(l'.journal, x, c.book, Account(c)) == Net(l.journal, x, c.book, Account(c))
  }

  /** The account moves by the amount in some books, in its own sign. */
  ghost predicate BooksMove(bs: seq<Book>, c: Cell, amount: real) {
    BooksNet(bs, c.book, Account(c)) == RawAmount(SeedSide(c.key), amount)
  }

  /** An accepted transaction moves an account by what its books move it by. */
  lemma PostGains(l: Ledger, c: Creation, bs: seq<Book>, tail: Option<Error>, day: Day, d: Cell, amount: real)
    requires ValidLedger(l) && (AllPass(bs, l.nextTx, day) ==> BooksMove(bs, d, amount))
    ensures var (l', e) := PostSpec(l, c, bs, tail, day); e.None? ==> Gains(l, l', l.nextTx, d, amount)
  {
    hide OpenSpec, Net, BookBalance, ValidLedger, CreateError, BooksNet, Passes;
    PostAccepted(l, c, bs, tail, day);
    if PostSpec(l, c, bs, tail, day).1.None? {
      var l1, a := WithTransaction(l, c), Account(d);
      forall x { NetAfterOpen(l, l1, l.nextTx, bs, tail, day, x, d.book, a); }
      BalanceAfterOpen(l, l1, l.nextTx, bs, tail, day, d.book, a);
      NewTransactionEmpty(l, d.book, a);
    }
  }

  /** What a has to receive from b: a debit-side balance in a's book. */
  ghost function NetReceivable(j: multiset<Row>, a: TeamId, b: TeamId): real {
    BookBalance(j, a, AccountRef(Receivable, b))
  }

  /** What b has to pay to a: a credit-side balance in b's book. */
  ghost function NetPayable(j: multiset<Row>, b: TeamId, a: TeamId): real {
    -BookBalance(j, b, AccountRef(Payable, a))
  }

  lemma NoBooksMove(c: Cell)
    ensures BooksMove([], c, 0.0)
  {
  }

  lemma BooksMoveAppend(bs: seq<Book>, cs: seq<Book>, c: Cell, x: real, y: real)
    requires BooksMove(bs, c, x) && BooksMove(cs, c, y)
    ensures BooksMove(bs + cs, c, x + y)
  {
    BooksNetAppend(bs, cs, c.book, Account(c));
  }

  lemma PassParts(bs: seq<Book>, cs: seq<Book>, tx: TxId, day: Day)
    requires AllPass(bs + cs, tx, day)
    ensures AllPass(bs, tx, day) && AllPass(cs, tx, day)
  {
    hide Passes;
    assert forall b :: b in bs || b in cs ==> b in bs + cs;
  }

  /** One book of posts. */
  lemma OneMoves(chart: Chart, book: TeamId, ps: seq<Post>, tx: TxId, day: Day, c: Cell)
    requires Seeded(chart) && AllPass([PostBook(chart, book, ps)], tx, day)
    ensures BooksMove([PostBook(chart, book, ps)], c, if c.book == book then Moved(ps, Account(c)) else 0.0)
  {
    hide PostBook, Passes, Seeded;
    assert PostBook(chart, book, ps) in [PostBook(chart, book, ps)];
    BookMoves(chart, book, ps, tx, day, c.book, Account(c));
    OneBookNet(PostBook(chart, book, ps), c.book, Account(c));
  }

  /** One book of two posts. */
  lemma PairMoved(chart: Chart, book: TeamId, p: Post, q: Post, tx: TxId, day: Day, c: Cell)
    requires Seeded(chart) && AllPass([PostBook(chart, book, [p, q])], tx, day)
    ensures BooksMove([PostBook(chart, book, [p, q])], c,
                      On(c, Cell(book, p.account.key, p.account.team), p.amount)
                      + On(c, Cell(book, q.account.key, q.account.team), q.amount))
  {
    hide PostBook, AllPass, Seeded, BooksMove;
    OneMoves(chart, book, [p, q], tx, day, c);
    MovedTwo(p, q, Account(c));
  }

  /** Two books of posts. */
  lemma TwoMove(chart: Chart, t: TeamId, ps: seq<Post>, u: TeamId, qs: seq<Post>, tx: TxId, day: Day, c: Cell)
    requires Seeded(chart) && AllPass([PostBook(chart, t, ps), PostBook(chart, u, qs)], tx, day)
    ensures BooksMove([PostBook(chart, t, ps), PostBook(chart, u, qs)], c,
                      (if c.book == t then Moved(ps, Account(c)) else 0.0)
                      + (if c.book == u then Moved(qs, Account(c)) else 0.0))
  {
    hide PostBook, AllPass, Seeded, BooksMove;
    var b, d := PostBook(chart, t, ps), PostBook(chart, u, qs);
    assert [b, d] == [b] + [d];
    PassParts([b], [d], tx, day);
    OneMoves(chart, t, ps, tx, day, c);
    OneMoves(chart, u, qs, tx, day, c);
    BooksMoveAppend([b], [d], c, if c.book == t then Moved(ps, Account(c)) else 0.0,
                    if c.book == u then Moved(qs, Account(c)) else 0.0);
  }
}

/** A transaction over the database: books committed one after another, all or nothing, with one
    update message at the end (accounting_core/accounting_manage.go, accounting_core/transaction.go). */
module Books {
  import opened Sums
  import opened Accounts
  import opened Journal

  type RefId = string

  /** Ids are given from 1 on. */
  type NewId = n: nat | 0 < n witness 1

  /** The tables a transaction reads and touches, and the entries of the update messages not yet delivered. Each shop
      is kept with the tag of its marketplace. */
  datatype Ledger = Ledger(chart: Chart, shops: map<nat, string>, tags: set<string>, journal: multiset<Row>,
                           txs: map<RefId, TxId>, nextTx: NewId, pending: multiset<Row>)

  /** What a transaction is created with: its reference, the shop if one is added, and the names of its tags. */
  datatype Creation = Creation(ref: RefId, shop: Option<nat>, tags: seq<string>)

  function Plain(ref: RefId): Creation { Creation(ref, None, []) }

  /** A running transaction: the tables as it sees them, and the entries its books emitted. */
  datatype Session = Session(ledger: Ledger, emitted: multiset<Emitted>)

  /** A book of a transaction. A book that is not saved is drafted and checked, never committed. */
  datatype Book = Book(team: TeamId, draft: Draft, opts: CommitOptions, saves: bool)

  function PostBook(chart: Chart, team: TeamId, ps: seq<Post>): Book {
    Book(team, PostAll(chart, ps), NO_OPTIONS, true)
  }

  function SettleAll(items: map<AccountRef, Item>, opts: CommitOptions): map<AccountRef, Item> {
    map a | a in items :: Settle(items[a], opts)
  }

  ghost function CommitSpec(s: Session, team: TeamId, d: Draft, opts: CommitOptions, day: Day): (Session, Draft) {
    var settled := d.(items := SettleAll(d.items, opts));
    match CommitError(d.items, team, opts, day)
    case Some(e) => (s, Fail(settled, e))
    case None => (Session(s.ledger.(journal := s.ledger.journal + CommitRows(d.items, team, opts, day)),
                          s.emitted + CommitEmitted(d.items, team, opts, day)), settled)
  }

  ghost function RunBook(s: Session, b: Book, tx: TxId, day: Day): (Session, Option<Error>) {
    var d := TransactionSpec(b.draft, tx);
    if !b.saves then (s, d.err)
    else
      var (s', d') := CommitSpec(s, b.team, d, b.opts, day);
      (s', d'.err)
  }

  /** The books in turn, up to the first error. */
  ghost function RunBooks(s: Session, bs: seq<Book>, tx: TxId, day: Day): (Session, Option<Error>)
    decreases |bs|
  {
    if bs == [] then (s, None)
    else
      var (s', e) := RunBook(s, bs[0], tx, day);
      if e.Some? then (s', e) else RunBooks(s', bs[1..], tx, day)
  }

  /** The end of `OpenTransaction`: roll back to l0, or commit and queue the message. */
  ghost function EndSpec(l0: Ledger, s: Session, err: Option<Error>): (Ledger, Option<Error>) {
    if err.Some? then (l0, err)
    else if s.emitted == multiset{} then (l0, Some(NoEntries))
    else if !AllSaved(s.emitted) then (l0, Some(EntryNotSaved))
    else (s.ledger.(pending := s.ledger.pending + Image(s.emitted, RowOfEmitted())), None)
  }

  /** A transaction from l that starts from l1 and runs the books under tx, then meets tail. */
  ghost function OpenSpec(l: Ledger, l1: Ledger, tx: TxId, bs: seq<Book>, tail: Option<Error>,
                          day: Day): (Ledger, Option<Error>) {
    var (s, e) := RunBooks(Session(l1, multiset{}), bs, tx, day);
    EndSpec(l, s, if e.Some? then e else tail)
  }

  /** `AddShopID` wants a shop that exists. */
  function ShopError(l: Ledger, shop: Option<nat>): Option<Error> {
    match shop
    case None => None
    case Some(id) => if id == 0 then Some(ShopIsNull) else if id !in l.shops then Some(ShopNotFound) else None
  }

  /** The tags that exist once the shop is added. */
  function KnownTags(l: Ledger, shop: Option<nat>): set<string> {
    if shop.Some? && shop.value in l.shops then l.tags + {l.shops[shop.value]} else l.tags
  }

  /** A new tag given twice is inserted twice, which its unique name refuses. */
  predicate RepeatsNewTag(known: set<string>, names: seq<string>) {
    exists i, j :: 0 <= i < j < |names| && names[i] == names[j] && names[i] !in known
  }

  /** Why the creation is refused, if it is. */
  function CreateError(l: Ledger, c: Creation): Option<Error> {
    if c.ref in l.txs then Some(TransactionAlreadyExist)
    else if ShopError(l, c.shop).Some? then ShopError(l, c.shop)
    else if RepeatsNewTag(KnownTags(l, c.shop), c.tags) then Some(TagAlreadyExist)
    else None
  }

  function WithTransaction(l: Ledger, c: Creation): Ledger {
    l.(txs := l.txs[c.ref := l.nextTx], nextTx := l.nextTx + 1, tags := KnownTags(l, c.shop) + set t | t in c.tags)
  }

  /** A transaction that first creates its reference, which must be new, and its labels. */
  ghost function PostSpec(l: Ledger, c: Creation, bs: seq<Book>, tail: Option<Error>,
                          day: Day): (Ledger, Option<Error>) {
    match CreateError(l, c)
    case Some(e) => (l, Some(e))
    case None => OpenSpec(l, WithTransaction(l, c), l.nextTx, bs, tail, day)
  }

  lemma PlainCreation(l: Ledger, ref: RefId)
    ensures CreateError(l, Plain(ref)) == if ref in l.txs then Some(TransactionAlreadyExist) else None
    ensures WithTransaction(l, Plain(ref)) == l.(txs := l.txs[ref := l.nextTx], nextTx := l.nextTx + 1)
  {
    assert l.tags + {} == l.tags;
  }

  /** A transaction that adds books under an existing reference. */
  ghost function AmendSpec(l: Ledger, ref: RefId, bs: seq<Book>, day: Day): (Ledger, Option<Error>) {
    if ref !in l.txs then (l, Some(TransactionNotFound))
    else OpenSpec(l, l, l.txs[ref], bs, None, day)
  }

  // ---- what an accepted run of books adds ----------------------------------------------

  ghost function BookItems(b: Book, tx: TxId): map<AccountRef, Item> {
    TransactionSpec(b.draft, tx).items
  }

  ghost function BookRows(b: Book, tx: TxId, day: Day): multiset<Row> {
    if b.saves then CommitRows(BookItems(b, tx), b.team, b.opts, day) else multiset{}
  }

  ghost function BookHalves(b: Book, tx: TxId, day: Day): multiset<Row> {
    if b.saves then CommitHalves(BookItems(b, tx), b.team, b.opts, day) else multiset{}
  }

  ghost function BookEmitted(b: Book, tx: TxId, day: Day): multiset<Emitted> {
    if b.saves then CommitEmitted(BookItems(b, tx), b.team, b.opts, day) else multiset{}
  }

  ghost function BooksRows(bs: seq<Book>, tx: TxId, day: Day): multiset<Row> {
    if bs == [] then multiset{} else BookRows(bs[0], tx, day) + BooksRows(bs[1..], tx, day)
  }

  ghost function BooksHalves(bs: seq<Book>, tx: TxId, day: Day): multiset<Row> {
    if bs == [] then multiset{} else BookHalves(bs[0], tx, day) + BooksHalves(bs[1..], tx, day)
  }

  ghost function BooksEmitted(bs: seq<Book>, tx: TxId, day: Day): multiset<Emitted> {
    if bs == [] then multiset{} else BookEmitted(bs[0], tx, day) + BooksEmitted(bs[1..], tx, day)
  }

  /** The book passes: no call failed and, if it is saved, its commit is accepted. */
  ghost predicate Passes(b: Book, tx: TxId, day: Day) {
    && b.draft.err.None?
    && b.draft.items != map[]
    && (b.saves ==> CommitError(BookItems(b, tx), b.team, b.opts, day).None?)
  }

  ghost predicate AllPass(bs: seq<Book>, tx: TxId, day: Day) {
    forall b :: b in bs ==> Passes(b, tx, day)
  }

  ghost function Grown(s: Session, rows: multiset<Row>, emitted: multiset<Emitted>): Session {
    Session(s.ledger.(journal := s.ledger.journal + rows), s.emitted + emitted)
  }

  lemma RunBookEffect(s: Session, b: Book, tx: TxId, day: Day)
    ensures var (s', e) := RunBook(s, b, tx, day);
            && (e.None? <==> Passes(b, tx, day))
            && (e.None? ==> s' == Grown(s, BookRows(b, tx, day), BookEmitted(b, tx, day)))
  {
    assert s.ledger.journal + multiset{} == s.ledger.journal;
    assert s.emitted + multiset{} == s.emitted;
  }

  lemma {:induction false} RunBooksEffect(s: Session, bs: seq<Book>, tx: TxId, day: Day)
    ensures var (s', e) := RunBooks(s, bs, tx, day);
            && (e.None? <==> AllPass(bs, tx, day))
            && (e.None? ==> s' == Grown(s, BooksRows(bs, tx, day), BooksEmitted(bs, tx, day)))
    decreases |bs|
  {
    if bs == [] {
      assert Grown(s, multiset{}, multiset{}) == s;
    } else {
      var b, rest := bs[0], bs[1..];
      assert bs == [b] + rest;
      RunBookEffect(s, b, tx, day);
      var (s', e) := RunBook(s, b, tx, day);
      if e.None? {
        RunBooksEffect(s', rest, tx, day);
        UnionAssoc(s.ledger.journal, BookRows(b, tx, day), BooksRows(rest, tx, day));
        UnionAssoc(s.emitted, BookEmitted(b, tx, day), BooksEmitted(rest, tx, day));
      }
    }
  }

  /** A run of more books goes on from where the first ones ended, unless they failed. */
  lemma {:induction false} RunBooksAppend(s: Session, bs: seq<Book>, cs: seq<Book>, tx: TxId, day: Day)
    ensures var (s', e) := RunBooks(s, bs, tx, day);
            RunBooks(s, bs + cs, tx, day) == if e.Some? then (s', e) else RunBooks(s', cs, tx, day)
    decreases |bs|
  {
    if bs == [] {
      assert bs + cs == cs;
    } else {
      assert (bs + cs)[0] == bs[0] && (bs + cs)[1..] == bs[1..] + cs;
      RunBooksAppend(RunBook(s, bs[0], tx, day).0, bs[1..], cs, tx, day);
    }
  }

  ghost predicate NoSkip(bs: seq<Book>) {
    forall b :: b in bs ==> b.draft.err != Some(SkipTransaction)
  }

  /** Only a handler asks to skip; a book never does. */
  lemma {:induction false} RunNeverSkips(s: Session, bs: seq<Book>, tx: TxId, day: Day)
    requires NoSkip(bs)
    ensures RunBooks(s, bs, tx, day).1 != Some(SkipTransaction)
    decreases |bs|
  {
    if bs != [] {
      assert bs[0] in bs;
      RunNeverSkips(RunBook(s, bs[0], tx, day).0, bs[1..], tx, day);
    }
  }

  lemma RunNoBooks(s: Session, tx: TxId, day: Day)
    ensures RunBooks(s, [], tx, day) == (s, None)
  {
  }

  lemma RunUnsavedBook(s: Session, b: Book, tx: TxId, day: Day)
    requires !b.saves
    ensures RunBooks(s, [b], tx, day) == (s, TransactionSpec(b.draft, tx).err)
  {
    RunOneBook(s, b, tx, day);
  }

  /** The book is drafted by To and From calls on a fresh builder. */
  ghost predicate Posted(chart: Chart, b: Book) {
    exists ps :: b.draft == PostAll(chart, ps)
  }

  ghost predicate PostedBooks(chart: Chart, bs: seq<Book>) {
    forall b :: b in bs ==> Posted(chart, b)
  }

  lemma PostedAppend(chart: Chart, a: seq<Book>, b: seq<Book>)
    requires PostedBooks(chart, a) && PostedBooks(chart, b)
    ensures PostedBooks(chart, a + b)
  {
  }

  lemma {:induction false} PostAllNeverSkips(chart: Chart, ps: seq<Post>)
    ensures PostAll(chart, ps).err != Some(SkipTransaction)
    decreases |ps|
  {
    if ps != [] { PostAllNeverSkips(chart, ps[..|ps| - 1]); }
  }

  lemma PostedNeverSkips(s: Session, bs: seq<Book>, tx: TxId, day: Day)
    requires PostedBooks(s.ledger.chart, bs)
    ensures RunBooks(s, bs, tx, day).1 != Some(SkipTransaction)
  {
    forall b | b in bs
      ensures b.draft.err != Some(SkipTransaction)
    {
      var ps :| b.draft == PostAll(s.ledger.chart, ps);
      PostAllNeverSkips(s.ledger.chart, ps);
    }
    RunNeverSkips(s, bs, tx, day);
  }

  lemma RunOneBook(s: Session, b: Book, tx: TxId, day: Day)
    ensures RunBooks(s, [b], tx, day) == RunBook(s, b, tx, day)
  {
    var (s', e) := RunBook(s, b, tx, day);
    assert RunBooks(s', [b][1..], tx, day) == (s', None);
  }

  /** No entry of a committed book has equal sides. */
  ghost predicate NoneEqual(bs: seq<Book>) {
    forall b, a :: b in bs && b.saves && a in b.draft.items ==> !Skipped(b.draft.items[a], b.opts)
  }

  lemma BookEmittedSaved(b: Book, tx: TxId, day: Day)
    ensures AllSaved(BookEmitted(b, tx, day)) <==> NoneEqual([b])
  {
    if b.saves {
      var items := BookItems(b, tx);
      EmittedSavedIff(items, b.team, b.opts, day);
      assert forall a :: a in items <==> a in b.draft.items;
      assert forall a :: a in items ==> Skipped(items[a], b.opts) == Skipped(b.draft.items[a], b.opts);
    }
  }

  lemma {:induction false} BooksEmittedSaved(bs: seq<Book>, tx: TxId, day: Day)
    ensures AllSaved(BooksEmitted(bs, tx, day)) <==> NoneEqual(bs)
    decreases |bs|
  {
    if bs != [] {
      var b, rest := bs[0], bs[1..];
      assert forall c :: c in bs <==> c == b || c in rest;
      BookEmittedSaved(b, tx, day);
      BooksEmittedSaved(rest, tx, day);
      assert b in [b];
    }
  }

  lemma BookSavedParts(b: Book, tx: TxId, day: Day)
    requires NoneEqual([b])
    ensures BookRows(b, tx, day) == Image(BookEmitted(b, tx, day), RowOfEmitted()) + BookHalves(b, tx, day)
  {
    if b.saves {
      assert b in [b];
      SavedIsEmittedPlusHalves(BookItems(b, tx), b.team, b.opts, day);
    }
  }

  lemma {:induction false} BooksSavedParts(bs: seq<Book>, tx: TxId, day: Day)
    requires NoneEqual(bs)
    ensures BooksRows(bs, tx, day) == Image(BooksEmitted(bs, tx, day), RowOfEmitted()) + BooksHalves(bs, tx, day)
    decreases |bs|
  {
    if bs != [] {
      var b, rest := bs[0], bs[1..];
      assert forall c :: c in bs <==> c == b || c in rest;
      BooksSavedParts(rest, tx, day);
      ImageUnion(BookEmitted(b, tx, day), BooksEmitted(rest, tx, day), RowOfEmitted());
      BookSavedParts(b, tx, day);
      UnionPairs(Image(BookEmitted(b, tx, day), RowOfEmitted()), BookHalves(b, tx, day),
                 Image(BooksEmitted(rest, tx, day), RowOfEmitted()), BooksHalves(rest, tx, day));
    }
  }

  /** What the update message of a transaction carries. */
  ghost function Message(bs: seq<Book>, tx: TxId, day: Day): multiset<Row> {
    Image(BooksEmitted(bs, tx, day), RowOfEmitted())
  }

  ghost predicate Accepts(bs: seq<Book>, tx: TxId, tail: Option<Error>, day: Day) {
    tail.None? && AllPass(bs, tx, day) && BooksEmitted(bs, tx, day) != multiset{} && NoneEqual(bs)
  }

  lemma EndEffect(l: Ledger, s: Session, err: Option<Error>)
    ensures var (l', e) := EndSpec(l, s, err);
            && (e.None? <==> err.None? && s.emitted != multiset{} && AllSaved(s.emitted))
            && (e.Some? ==> l' == l)
            && (e.None? ==> l' == s.ledger.(pending := s.ledger.pending + Image(s.emitted, RowOfEmitted())))
  {
  }

  /** `OpenTransaction` accepts exactly when every book passes, nothing fails after them, an entry was emitted
      and none has equal sides. Then the journal gains the books' rows and the queue the message; otherwise
      nothing changes. */
  lemma TransactionEffect(l: Ledger, l1: Ledger, tx: TxId, bs: seq<Book>, tail: Option<Error>, day: Day)
    ensures var (l', e) := OpenSpec(l, l1, tx, bs, tail, day);
            && (e.None? <==> Accepts(bs, tx, tail, day))
            && (e.Some? ==> l' == l)
            && (e.None? ==> l' == l1.(journal := l1.journal + BooksRows(bs, tx, day),
                                      pending := l1.pending + Message(bs, tx, day)))
  {
    var s0 := Session(l1, multiset{});
    RunBooksEffect(s0, bs, tx, day);
    BooksEmittedSaved(bs, tx, day);
    var (s, e) := RunBooks(s0, bs, tx, day);
    assert e.None? ==> s.emitted == BooksEmitted(bs, tx, day);
    EndEffect(l, s, if e.Some? then e else tail);
  }

  /** Message fidelity: the message is the saved rows less the debit half of each split entry, and a book
      with an equal-sided entry aborts the whole transaction, rows and message. */
  lemma MessageFidelity(l: Ledger, l1: Ledger, tx: TxId, bs: seq<Book>, tail: Option<Error>, day: Day)
    ensures var (l', e) := OpenSpec(l, l1, tx, bs, tail, day);
            && (e.None? ==> exists saved, sent ::
                  && saved == sent + BooksHalves(bs, tx, day)
                  && l'.journal == l1.journal + saved
                  && l'.pending == l1.pending + sent)
            && (!NoneEqual(bs) ==> l' == l && e.Some?)
  {
    TransactionEffect(l, l1, tx, bs, tail, day);
    if NoneEqual(bs) {
      BooksSavedParts(bs, tx, day);
    }
  }

  /** An accepted transaction adds its reference, and only that. */
  lemma PostAddsRef(l: Ledger, c: Creation, bs: seq<Book>, tail: Option<Error>, day: Day)
    ensures var (l', e) := PostSpec(l, c, bs, tail, day);
            l'.txs == if e.None? then l.txs[c.ref := l.nextTx] else l.txs
  {
    hide OpenSpec, Accepts;
    if CreateError(l, c).None? {
      var l1 := WithTransaction(l, c);
      TransactionEffect(l, l1, l.nextTx, bs, tail, day);
      var (l', e) := OpenSpec(l, l1, l.nextTx, bs, tail, day);
      assert PostSpec(l, c, bs, tail, day) == (l', e);
    }
  }

  /** Such a transaction is accepted exactly when nothing refuses its creation and the books are. */
  lemma PostAccepted(l: Ledger, c: Creation, bs: seq<Book>, tail: Option<Error>, day: Day)
    ensures var (l', e) := PostSpec(l, c, bs, tail, day);
            && (e.None? <==> CreateError(l, c).None? && Accepts(bs, l.nextTx, tail, day))
            && (e.Some? ==> l' == l)
            && l'.chart == l.chart && l'.shops == l.shops
  {
    hide OpenSpec, Accepts, RepeatsNewTag;
    if CreateError(l, c).None? {
      var l1 := WithTransaction(l, c);
      TransactionEffect(l, l1, l.nextTx, bs, tail, day);
      var (l', e) := OpenSpec(l, l1, l.nextTx, bs, tail, day);
      assert PostSpec(l, c, bs, tail, day) == (l', e);
    }
  }
}

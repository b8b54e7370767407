/** Journal rows and the draft of one book: what `To`, `From`, `Set`, `Rollback` merge and what
    `Commit` saves and emits (accounting_core/journal_entries.go, accounting_core/model.go). */
module Journal {
  import opened Sums
  import opened Accounts

  type TxId = nat
  type Day = int

  /** A saved journal entry: a debit or credit on an account, in the book of a team. */
  datatype Row = Row(account: AccountRef, team: TeamId, tx: TxId, day: Day, debit: real, credit: real, rollback: bool)

  datatype Error =
    | AccountNotFound | ZeroAmount | InvalidAccountType
    | EmptyEntry | EntryInvalid | EmptyBook
    | NoEntries | EntryNotSaved
    | TransactionAlreadyExist | TransactionNotCreated | ShopIsNull | ShopNotFound | TagAlreadyExist
    | TransactionNotFound | TransactionHasNoEntries
    | SkipTransaction | NotAuthenticated | NotSupported | NotOwner | NotPending | NotFinite | PaymentNotFound

  /** An unsaved entry of a builder: at most one per account. tx 0 means not set. */
  datatype Item = Item(debit: real, credit: real, tx: TxId)

  /** The state of a `createEntryImpl`: its entry map and its first error. */
  datatype Draft = Draft(items: map<AccountRef, Item>, err: Option<Error>)

  /** One `To` call; `From` is the same call with the amount negated. */
  datatype Post = Post(account: AccountRef, amount: real)

  datatype CommitOptions = CommitOptions(rollback: bool, includeEqual: bool)

  const NO_OPTIONS := CommitOptions(false, false)
  const ROLLBACK := CommitOptions(true, false)
  const EMPTY := Draft(map[], None)

  function Fail(d: Draft, e: Error): Draft {
    if d.err.Some? then d else d.(err := Some(e))
  }

  function Merge(items: map<AccountRef, Item>, a: AccountRef, debit: real, credit: real): map<AccountRef, Item> {
    if a in items then items[a := Item(items[a].debit + debit, items[a].credit + credit, items[a].tx)]
    else items[a := Item(debit, credit, 0)]
  }

  function PostError(chart: Chart, p: Post): Option<Error> {
    if p.account !in chart then Some(AccountNotFound)
    else if p.amount == 0.0 then Some(ZeroAmount)
    else if chart[p.account] == OtherBalance then Some(InvalidAccountType)
    else None
  }

  /** Whether `SetAmountEntry` puts the amount on the debit side. */
  predicate OnDebit(side: BalanceType, amount: real) {
    (side == DebitBalance) == (amount > 0.0)
  }

  function ToSpec(chart: Chart, d: Draft, p: Post): Draft {
    match PostError(chart, p)
    case Some(e) => Fail(d, e)
    case None =>
      if OnDebit(chart[p.account], p.amount) then d.(items := Merge(d.items, p.account, Abs(p.amount), 0.0))
      else d.(items := Merge(d.items, p.account, 0.0, Abs(p.amount)))
  }

  /** A chain of `To`/`From` calls on a fresh builder. */
  function PostAll(chart: Chart, ps: seq<Post>): Draft {
    if ps == [] then EMPTY
    else ToSpec(chart, PostAll(chart, ps[..|ps| - 1]), ps[|ps| - 1])
  }

  /** A missing account is looked up once: `Set` fails on it the first time and merges after that. */
  function SetSpec(chart: Chart, tried: set<AccountRef>, d: Draft, a: AccountRef, credit: real, debit: real): Draft {
    if a !in chart && a !in tried then Fail(d, AccountNotFound)
    else d.(items := Merge(d.items, a, debit, credit))
  }

  /** `Transaction(tx)` and `TransactionID(tx)`. */
  function TransactionSpec(d: Draft, tx: TxId): Draft {
    if d.items == map[] then Fail(d, EmptyEntry)
    else d.(items := map a | a in d.items :: d.items[a].(tx := tx))
  }

  /** The entry is dropped at commit: both sides are equal and the option does not include it. */
  predicate Skipped(i: Item, opts: CommitOptions) {
    !opts.includeEqual && i.debit == i.credit
  }

  predicate TwoSided(i: Item, opts: CommitOptions) {
    !Skipped(i, opts) && i.debit > 0.0 && i.credit > 0.0
  }

  function RowOf(a: AccountRef, i: Item, team: TeamId, opts: CommitOptions, day: Day): Row {
    Row(a, team, i.tx, day, i.debit, i.credit, opts.rollback)
  }

  /** The debit half that a two-sided entry is split off. */
  function HalfOf(a: AccountRef, i: Item, team: TeamId, opts: CommitOptions, day: Day): multiset<Row> {
    if TwoSided(i, opts) then multiset{RowOf(a, i.(credit := 0.0), team, opts, day)} else multiset{}
  }

  /** What stays in the builder after `Commit`: a two-sided entry keeps its credit only. */
  function Settle(i: Item, opts: CommitOptions): Item {
    if TwoSided(i, opts) then i.(debit := 0.0) else i
  }

  function RowsOf(a: AccountRef, i: Item, team: TeamId, opts: CommitOptions, day: Day): multiset<Row> {
    if Skipped(i, opts) then multiset{}
    else HalfOf(a, i, team, opts, day) + multiset{RowOf(a, Settle(i, opts), team, opts, day)}
  }

  /** An entry as the book manager keeps it after commit; saved means it was given an id. */
  datatype Emitted = Emitted(row: Row, saved: bool)

  function EmittedOf(a: AccountRef, i: Item, team: TeamId, opts: CommitOptions, day: Day): multiset<Emitted> {
    multiset{Emitted(RowOf(a, Settle(i, opts), team, opts, day), !Skipped(i, opts))}
  }

  ghost function RowsAt(items: map<AccountRef, Item>, team: TeamId, opts: CommitOptions,
                        day: Day): AccountRef -> multiset<Row> {
    (a: AccountRef) => if a in items then RowsOf(a, items[a], team, opts, day) else multiset{}
  }

  ghost function HalvesAt(items: map<AccountRef, Item>, team: TeamId, opts: CommitOptions,
                          day: Day): AccountRef -> multiset<Row> {
    (a: AccountRef) => if a in items then HalfOf(a, items[a], team, opts, day) else multiset{}
  }

  ghost function EmittedAt(items: map<AccountRef, Item>, team: TeamId, opts: CommitOptions,
                           day: Day): AccountRef -> multiset<Emitted> {
    (a: AccountRef) => if a in items then EmittedOf(a, items[a], team, opts, day) else multiset{}
  }

  ghost function CommitRows(items: map<AccountRef, Item>, team: TeamId, opts: CommitOptions, day: Day): multiset<Row> {
    Bag(items.Keys, RowsAt(items, team, opts, day))
  }

  ghost function CommitHalves(items: map<AccountRef, Item>, team: TeamId, opts: CommitOptions,
                              day: Day): multiset<Row> {
    Bag(items.Keys, HalvesAt(items, team, opts, day))
  }

  ghost function CommitEmitted(items: map<AccountRef, Item>, team: TeamId, opts: CommitOptions,
                               day: Day): multiset<Emitted> {
    Bag(items.Keys, EmittedAt(items, team, opts, day))
  }

  ghost function DebitOf(items: map<AccountRef, Item>): AccountRef -> real {
    (a: AccountRef) => if a in items then items[a].debit else 0.0
  }

  ghost function CreditOf(items: map<AccountRef, Item>): AccountRef -> real {
    (a: AccountRef) => if a in items then items[a].credit else 0.0
  }

  ghost function TotalDebit(items: map<AccountRef, Item>): real {
    Sum(multiset(items.Keys), DebitOf(items))
  }

  ghost function TotalCredit(items: map<AccountRef, Item>): real {
    Sum(multiset(items.Keys), CreditOf(items))
  }

  /** The error `Commit` adds, if any. */
  ghost function CommitError(items: map<AccountRef, Item>, team: TeamId, opts: CommitOptions, day: Day): Option<Error> {
    if items == map[] then Some(EmptyEntry)
    else if !Close(TotalDebit(items), TotalCredit(items)) then Some(EntryInvalid)
    else if CommitRows(items, team, opts, day) == multiset{} then Some(EmptyBook)
    else None
  }

  // ---- what a chain of posts amounts to ------------------------------------------------

  ghost function DebitPart(chart: Chart, a: AccountRef): Post -> real {
    (p: Post) => if p.account == a && PostError(chart, p).None? && OnDebit(chart[a], p.amount) then Abs(p.amount)
      else 0.0
  }

  ghost function CreditPart(chart: Chart, a: AccountRef): Post -> real {
    (p: Post) => if p.account == a && PostError(chart, p).None? && !OnDebit(chart[a], p.amount) then Abs(p.amount)
      else 0.0
  }

  lemma ToAt(chart: Chart, d: Draft, p: Post, a: AccountRef)
    ensures var items := ToSpec(chart, d, p).items;
            && DebitOf(items)(a) == DebitOf(d.items)(a) + DebitPart(chart, a)(p)
            && CreditOf(items)(a) == CreditOf(d.items)(a) + CreditPart(chart, a)(p)
            && (a in items ==> items[a].tx == if a in d.items then d.items[a].tx else 0)
  {
  }

  /** The entry of one account after a chain of calls, said without the order of the calls. */
  lemma {:induction false} PostAllAt(chart: Chart, ps: seq<Post>, a: AccountRef)
    ensures var items := PostAll(chart, ps).items;
            && DebitOf(items)(a) == Sum(multiset(ps), DebitPart(chart, a))
            && CreditOf(items)(a) == Sum(multiset(ps), CreditPart(chart, a))
            && (a in items ==> items[a].tx == 0)
    decreases |ps|
  {
    if ps != [] {
      var init, p := ps[..|ps| - 1], ps[|ps| - 1];
      assert ps == init + [p];
      PostAllAt(chart, init, a);
      ToAt(chart, PostAll(chart, init), p, a);
      SumAdd(multiset(init), p, DebitPart(chart, a));
      SumAdd(multiset(init), p, CreditPart(chart, a));
    }
  }

  lemma {:induction false} PostAllAccepts(chart: Chart, ps: seq<Post>)
    ensures PostAll(chart, ps).err.None? <==> forall p :: p in ps ==> PostError(chart, p).None?
    decreases |ps|
  {
    if ps != [] {
      PostAllAccepts(chart, ps[..|ps| - 1]);
      assert ps == ps[..|ps| - 1] + [ps[|ps| - 1]];
    }
  }

  lemma {:induction false} PostAllKeys(chart: Chart, ps: seq<Post>, a: AccountRef)
    ensures a in PostAll(chart, ps).items <==> exists p :: p in ps && p.account == a && PostError(chart, p).None?
    decreases |ps|
  {
    if ps != [] {
      PostAllKeys(chart, ps[..|ps| - 1], a);
      assert ps == ps[..|ps| - 1] + [ps[|ps| - 1]];
    }
  }

  /** Two chains with the same calls in any order leave the same entries, and fail alike. */
  lemma PostOrderIrrelevant(chart: Chart, ps: seq<Post>, qs: seq<Post>)
    requires multiset(ps) == multiset(qs)
    ensures PostAll(chart, ps).items == PostAll(chart, qs).items
    ensures PostAll(chart, ps).err.None? <==> PostAll(chart, qs).err.None?
  {
    assert forall p :: p in ps <==> p in multiset(ps);
    assert forall p :: p in ps <==> p in qs;
    PostAllAccepts(chart, ps);
    PostAllAccepts(chart, qs);
    var i, j := PostAll(chart, ps).items, PostAll(chart, qs).items;
    forall a
      ensures a in i <==> a in j
      ensures a in i ==> i[a] == j[a]
    {
      PostAllKeys(chart, ps, a);
      PostAllKeys(chart, qs, a);
      PostAllAt(chart, ps, a);
      PostAllAt(chart, qs, a);
      assert a in i ==> DebitOf(i)(a) == i[a].debit && CreditOf(i)(a) == i[a].credit;
      assert a in j ==> DebitOf(j)(a) == j[a].debit && CreditOf(j)(a) == j[a].credit;
    }
  }

  // ---- what a commit saves and emits ---------------------------------------------------

  /** Debit minus credit, on the rows whose transaction, book and account are selected. */
  ghost function Raw(sel: (TxId, TeamId, AccountRef) -> bool): Row -> real {
    (r: Row) => if sel(r.tx, r.team, r.account) then r.debit - r.credit else 0.0
  }

  ghost function ItemRaw(items: map<AccountRef, Item>, team: TeamId,
                         sel: (TxId, TeamId, AccountRef) -> bool): AccountRef -> real {
    (a: AccountRef) => if a in items && sel(items[a].tx, team, a) then items[a].debit - items[a].credit else 0.0
  }

  lemma EntryKeepsRaw(a: AccountRef, i: Item, team: TeamId, opts: CommitOptions, day: Day,
                      sel: (TxId, TeamId, AccountRef) -> bool)
    ensures Sum(RowsOf(a, i, team, opts, day), Raw(sel)) == if sel(i.tx, team, a) then i.debit - i.credit else 0.0
  {
    SumSingle(RowOf(a, i.(credit := 0.0), team, opts, day), Raw(sel));
    SumSingle(RowOf(a, Settle(i, opts), team, opts, day), Raw(sel));
    SumUnion(HalfOf(a, i, team, opts, day), multiset{RowOf(a, Settle(i, opts), team, opts, day)}, Raw(sel));
  }

  /** Dropping equal-sided entries and splitting two-sided ones changes no balance. */
  lemma CommitKeepsRaw(items: map<AccountRef, Item>, team: TeamId, opts: CommitOptions, day: Day,
                       sel: (TxId, TeamId, AccountRef) -> bool)
    ensures Sum(CommitRows(items, team, opts, day), Raw(sel)) == Sum(multiset(items.Keys), ItemRaw(items, team, sel))
  {
    hide RowsOf, Raw;
    forall a | a in items.Keys
      ensures Sum(RowsAt(items, team, opts, day)(a), Raw(sel)) == ItemRaw(items, team, sel)(a)
    {
      EntryKeepsRaw(a, items[a], team, opts, day, sel);
    }
    SumBag(items.Keys, RowsAt(items, team, opts, day), Raw(sel), ItemRaw(items, team, sel));
  }

  /** The net of a whole book is its total debit less its total credit. */
  lemma BookRaw(items: map<AccountRef, Item>, team: TeamId, sel: (TxId, TeamId, AccountRef) -> bool)
    requires forall a :: a in items ==> sel(items[a].tx, team, a)
    ensures Sum(multiset(items.Keys), ItemRaw(items, team, sel)) == TotalDebit(items) - TotalCredit(items)
  {
    SumMinus(multiset(items.Keys), DebitOf(items), CreditOf(items), ItemRaw(items, team, sel));
  }

  ghost predicate AllSaved(es: multiset<Emitted>) {
    forall e :: e in es ==> e.saved
  }

  ghost function RowOfEmitted(): Emitted -> Row { (e: Emitted) => e.row }

  ghost function EmittedRowAt(items: map<AccountRef, Item>, team: TeamId, opts: CommitOptions,
                              day: Day): AccountRef -> multiset<Row> {
    (a: AccountRef) => if a in items then multiset{RowOf(a, Settle(items[a], opts), team, opts, day)} else multiset{}
  }

  lemma EmittedRows(items: map<AccountRef, Item>, team: TeamId, opts: CommitOptions, day: Day)
    ensures Image(CommitEmitted(items, team, opts, day), RowOfEmitted()) ==
      Bag(items.Keys, EmittedRowAt(items, team, opts, day))
  {
    forall a | a in items.Keys
      ensures EmittedRowAt(items, team, opts, day)(a) == Image(EmittedAt(items, team, opts, day)(a), RowOfEmitted())
    {
      ImageSingle(Emitted(RowOf(a, Settle(items[a], opts), team, opts, day), !Skipped(items[a], opts)), RowOfEmitted());
    }
    ImageBag(items.Keys, EmittedAt(items, team, opts, day), RowOfEmitted(), EmittedRowAt(items, team, opts, day));
  }

  /** When no entry is dropped, the saved rows are the emitted ones plus the split-off debit halves. */
  lemma SavedIsEmittedPlusHalves(items: map<AccountRef, Item>, team: TeamId, opts: CommitOptions, day: Day)
    requires forall a :: a in items ==> !Skipped(items[a], opts)
    ensures CommitRows(items, team, opts, day) ==
      Image(CommitEmitted(items, team, opts, day), RowOfEmitted()) + CommitHalves(items, team, opts, day)
  {
    EmittedRows(items, team, opts, day);
    BagUnion(items.Keys, EmittedRowAt(items, team, opts, day), HalvesAt(items, team, opts, day),
             RowsAt(items, team, opts, day));
  }

  /** Every emitted entry was saved exactly when no entry of the book has equal sides. */
  lemma EmittedSavedIff(items: map<AccountRef, Item>, team: TeamId, opts: CommitOptions, day: Day)
    ensures AllSaved(CommitEmitted(items, team, opts, day)) <==> forall a :: a in items ==> !Skipped(items[a], opts)
  {
    var g: AccountRef -> multiset<Emitted> := EmittedAt(items, team, opts, day);
    forall e: Emitted | e in Bag(items.Keys, g) && (forall a :: a in items ==> !Skipped(items[a], opts))
      ensures e.saved
    {
      BagMember(items.Keys, g, e);
    }
    forall a | a in items && AllSaved(CommitEmitted(items, team, opts, day))
      ensures !Skipped(items[a], opts)
    {
      var e := Emitted(RowOf(a, Settle(items[a], opts), team, opts, day), !Skipped(items[a], opts));
      assert e in g(a);
      BagMember(items.Keys, g, e);
    }
  }

  /** Which rows a commit can save: the book's own team and transaction, an account of the book. */
  lemma CommitRowsFrom(items: map<AccountRef, Item>, team: TeamId, opts: CommitOptions, day: Day, r: Row)
    requires r in CommitRows(items, team, opts, day)
    ensures r.account in items && r.tx == items[r.account].tx && r.team == team && r.rollback == opts.rollback
    ensures r.day == day
    ensures var i := items[r.account];
            && !Skipped(i, opts)
            && (if TwoSided(i, opts) then (r.debit, r.credit) in {(i.debit, 0.0), (0.0, i.credit)}
                else r.debit == i.debit && r.credit == i.credit)
  {
    BagMember(items.Keys, RowsAt(items, team, opts, day), r);
  }
}

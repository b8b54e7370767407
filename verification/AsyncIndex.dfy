/** The daily index as a protocol: transactions commit and queue their messages, entries of the queue are
    delivered one at a time in any order (report/daily_balance_update.go, `DailyUpdateBalance`). */
module AsyncIndex {
  import opened Sums
  import opened Accounts
  import opened Journal
  import opened Books
  import opened Nets
  import opened Rollback
  import opened Equation
  import opened DailyTable
  import opened Resync

  /** The key of the account table, and of the account-key table. */
  datatype DetailKey = DetailKey(account: AccountRef, team: TeamId)
  datatype GroupKey = GroupKey(key: AccountKey, team: TeamId)

  type DetailTable = map<Slot<DetailKey>, DayRow>
  type GroupTable = map<Slot<GroupKey>, DayRow>

  function SideOf(chart: Chart, a: AccountRef): BalanceType {
    if a in chart then chart[a] else OtherBalance
  }

  /** A rollback row takes its amounts back from the opposite columns. */
  function AdjustedDebit(r: Row): real { if r.rollback then -r.credit else r.debit }
  function AdjustedCredit(r: Row): real { if r.rollback then -r.debit else r.credit }
  function RowBalance(chart: Chart, r: Row): real { Natural(SideOf(chart, r.account), r.debit, r.credit) }

  function ToDetail(chart: Chart, r: Row): Delivery<DetailKey> {
    Delivery(DetailKey(r.account, r.team), r.day, AdjustedDebit(r), AdjustedCredit(r), RowBalance(chart, r))
  }

  function ToGroup(chart: Chart, r: Row): Delivery<GroupKey> {
    Delivery(GroupKey(r.account.key, r.team), r.day, AdjustedDebit(r), AdjustedCredit(r), RowBalance(chart, r))
  }

  ghost function DetailOf(chart: Chart): Row -> Delivery<DetailKey> { (r: Row) => ToDetail(chart, r) }
  ghost function GroupOf(chart: Chart): Row -> Delivery<GroupKey> { (r: Row) => ToGroup(chart, r) }

  /** The rows as the account table, and as the account-key table, should count them. */
  ghost function Details(chart: Chart, j: multiset<Row>): multiset<Delivery<DetailKey>> { Image(j, DetailOf(chart)) }
  ghost function Groups(chart: Chart, j: multiset<Row>): multiset<Delivery<GroupKey>> { Image(j, GroupOf(chart)) }

  /** Rolling back takes turnover away on the side it was on, and keeps the balance in the natural sign. */
  lemma AdjustmentKeepsBalance(chart: Chart, r: Row)
    ensures RowBalance(chart, r) == Natural(SideOf(chart, r.account), AdjustedDebit(r), AdjustedCredit(r))
  {
  }

  /** The database, the index, and two histories: what was delivered, and which saved rows no message carried. */
  datatype System = System(ledger: Ledger, detail: DetailTable, group: GroupTable, delivered: multiset<Row>,
                           missed: multiset<Row>)

  datatype Event =
    | Commit(act: Act)
    | Deliver(row: Row)

  ghost function ActBooks(l: Ledger, act: Act): seq<Book> {
    match act
    case Open(_, books, _, _) => books
    case Amend(_, books, _) => books
    case Cancel(tx, order, _) => ReverseBooks(l, tx, order)
  }

  ghost function ActTx(l: Ledger, act: Act): TxId {
    match act
    case Open(_, _, _, _) => l.nextTx
    case Amend(ref, _, _) => if ref in l.txs then l.txs[ref] else 0
    case Cancel(tx, _, _) => tx
  }

  /** The debit halves of the entries an act split: saved, but in no message. */
  ghost function ActHalves(l: Ledger, act: Act): multiset<Row> {
    if Step(l, act).1.None? then BooksHalves(ActBooks(l, act), ActTx(l, act), act.day) else multiset{}
  }

  ghost predicate Enabled(s: System, e: Event) {
    match e
    case Commit(act) => Legal(s.ledger, act)
    case Deliver(r) => r in s.ledger.pending
  }

  ghost function Next(s: System, e: Event): System {
    match e
    case Commit(act) => s.(ledger := Step(s.ledger, act).0, missed := s.missed + ActHalves(s.ledger, act))
    case Deliver(r) =>
      System(s.ledger.(pending := s.ledger.pending - multiset{r}),
             Update(s.detail, ToDetail(s.ledger.chart, r)), Update(s.group, ToGroup(s.ledger.chart, r)),
             s.delivered + multiset{r}, s.missed)
  }

  /** A database with its accounts, shops, tags and references, but nothing booked yet. */
  ghost predicate NothingBooked(l: Ledger) {
    ValidLedger(l) && l.journal == multiset{} && l.pending == multiset{}
  }

  /** The system over it, with empty tables. */
  ghost function Start(l: Ledger): System { System(l, map[], map[], multiset{}, multiset{}) }

  ghost function After(s0: System, es: seq<Event>): System
    decreases |es|
  {
    if es == [] then s0 else Next(After(s0, es[..|es| - 1]), es[|es| - 1])
  }

  ghost predicate Runs(s0: System, es: seq<Event>)
    decreases |es|
  {
    es != [] ==> Runs(s0, es[..|es| - 1]) && Enabled(After(s0, es[..|es| - 1]), es[|es| - 1])
  }

  /** Every saved row is delivered, queued or missed; and both tables count exactly what was delivered. */
  ghost predicate Inv(s: System) {
    && ValidLedger(s.ledger)
    && s.ledger.journal == s.delivered + s.ledger.pending + s.missed
    && TurnoverRight(s.detail, Details(s.ledger.chart, s.delivered))
    && TurnoverRight(s.group, Groups(s.ledger.chart, s.delivered))
  }

  /** A system with nothing booked is consistent, whatever accounts, shops and tags it has. */
  lemma StartIsConsistent(l: Ledger)
    requires NothingBooked(l)
    ensures Inv(Start(l)) && Start(l).missed == multiset{}
  {
    var none: multiset<Row> := multiset{};
    assert Details(l.chart, none) == multiset{} && Groups(l.chart, none) == multiset{};
    assert none + none + none == none;
  }

  /** An act adds the same rows to the journal as to the queue, but for the missed halves. */
  lemma ActConserves(l: Ledger, act: Act)
    ensures var l' := Step(l, act).0;
            l'.chart == l.chart && exists sent: multiset<Row> ::
              l'.pending == l.pending + sent && l'.journal == l.journal + (sent + ActHalves(l, act))
  {
    var bs, tx := ActBooks(l, act), ActTx(l, act);
    var (l', e) := Step(l, act);
    if e.Some? {
      ActRefused(l, act);
      assert l.journal + (multiset{} + multiset{}) == l.journal && l.pending + multiset{} == l.pending;
    } else {
      var l1 := if act.Open? then WithTransaction(l, act.creation) else l;
      var tail := if act.Open? then act.tail else None;
      assert (l', e) == OpenSpec(l, l1, tx, bs, tail, act.day);
      MessageFidelity(l, l1, tx, bs, tail, act.day);
      TransactionEffect(l, l1, tx, bs, tail, act.day);
    }
  }

  lemma ActRefused(l: Ledger, act: Act)
    requires Step(l, act).1.Some?
    ensures Step(l, act).0 == l
  {
    match act
    case Open(c, books, tail, day) => PostAccepted(l, c, books, tail, day);
    case Amend(ref, books, day) => if ref in l.txs { TransactionEffect(l, l, l.txs[ref], books, None, day); }
    case Cancel(tx, order, day) => TransactionEffect(l, l, tx, ReverseBooks(l, tx, order), None, day);
  }

  lemma Regroup(d: multiset<Row>, p: multiset<Row>, m: multiset<Row>, sent: multiset<Row>, halves: multiset<Row>)
    ensures (d + p + m) + (sent + halves) == d + (p + sent) + (m + halves)
  {
  }

  lemma InvStep(s: System, e: Event)
    requires Inv(s) && Enabled(s, e)
    ensures Inv(Next(s, e)) && Next(s, e).ledger.chart == s.ledger.chart
  {
    match e
    case Commit(act) =>
      StepKeepsValid(s.ledger, act);
      ActConserves(s.ledger, act);
      var l' := Step(s.ledger, act).0;
      var sent :| l'.pending == s.ledger.pending + sent
                  && l'.journal == s.ledger.journal + (sent + ActHalves(s.ledger, act));
      Regroup(s.delivered, s.ledger.pending, s.missed, sent, ActHalves(s.ledger, act));
    case Deliver(r) =>
      DeliverStep(s, r);
  }

  lemma MoveOne(d: multiset<Row>, p: multiset<Row>, m: multiset<Row>, r: Row)
    requires r in p
    ensures d + p + m == (d + multiset{r}) + (p - multiset{r}) + m
  {
  }

  lemma DeliverTurnover(chart: Chart, detail: DetailTable, group: GroupTable, d: multiset<Row>, r: Row)
    requires TurnoverRight(detail, Details(chart, d)) && TurnoverRight(group, Groups(chart, d))
    ensures TurnoverRight(Update(detail, ToDetail(chart, r)), Details(chart, d + multiset{r}))
    ensures TurnoverRight(Update(group, ToGroup(chart, r)), Groups(chart, d + multiset{r}))
  {
    UpdateTurnover(detail, Details(chart, d), ToDetail(chart, r));
    UpdateTurnover(group, Groups(chart, d), ToGroup(chart, r));
    ImageAdd(d, r, DetailOf(chart));
    ImageAdd(d, r, GroupOf(chart));
  }

  lemma DeliverStep(s: System, r: Row)
    requires Inv(s) && r in s.ledger.pending
    ensures Inv(Next(s, Deliver(r)))
  {
    DeliverTurnover(s.ledger.chart, s.detail, s.group, s.delivered, r);
    MoveOne(s.delivered, s.ledger.pending, s.missed, r);
  }

  lemma {:induction false} InvAlways(s0: System, es: seq<Event>)
    requires Inv(s0) && Runs(s0, es)
    ensures Inv(After(s0, es)) && After(s0, es).ledger.chart == s0.ledger.chart
    decreases |es|
  {
    if es != [] {
      InvAlways(s0, es[..|es| - 1]);
      InvStep(After(s0, es[..|es| - 1]), es[|es| - 1]);
    }
  }

  ghost function StoredDebit<K>(t: map<Slot<K>, DayRow>, s: Slot<K>): real { if s in t then t[s].debit else 0.0 }
  ghost function StoredCredit<K>(t: map<Slot<K>, DayRow>, s: Slot<K>): real { if s in t then t[s].credit else 0.0 }

  lemma StoredIsSum<K(!new)>(t: map<Slot<K>, DayRow>, d: multiset<Delivery<K>>, s: Slot<K>)
    requires TurnoverRight(t, d)
    ensures StoredDebit(t, s) == Sum(d, DebitAt(s)) && StoredCredit(t, s) == Sum(d, CreditAt(s))
  {
    if s !in t {
      assert !HasDelivery(d, s);
      SumZero(d, DebitAt(s));
      SumZero(d, CreditAt(s));
    }
  }

  lemma SplitThree<K(!new)>(a: multiset<Row>, b: multiset<Row>, c: multiset<Row>, g: Row -> Delivery<K>,
                            f: Delivery<K> -> real)
    ensures Sum(Image(a + b + c, g), f) == Sum(Image(a, g), f) + Sum(Image(b, g), f) + Sum(Image(c, g), f)
  {
    ImageUnion(a + b, c, g);
    ImageUnion(a, b, g);
    SumUnion(Image(a, g) + Image(b, g), Image(c, g), f);
    SumUnion(Image(a, g), Image(b, g), f);
  }

  /** Asynchronous agreement, exactly: in every reachable state the stored turnover of each slot, plus what is queued
      for it, plus the debit halves that no message carried, is the rollback-adjusted journal sum. */
  lemma AsynchronousAgreement(s0: System, es: seq<Event>, s: Slot<DetailKey>)
    requires Inv(s0) && Runs(s0, es)
    ensures var sys, chart := After(s0, es), s0.ledger.chart;
            && StoredDebit(sys.detail, s) + Sum(Details(chart, sys.ledger.pending), DebitAt(s))
               + Sum(Details(chart, sys.missed), DebitAt(s)) == Sum(Details(chart, sys.ledger.journal), DebitAt(s))
            && StoredCredit(sys.detail, s) + Sum(Details(chart, sys.ledger.pending), CreditAt(s))
               + Sum(Details(chart, sys.missed), CreditAt(s)) == Sum(Details(chart, sys.ledger.journal), CreditAt(s))
  {
    InvAlways(s0, es);
    var sys, chart := After(s0, es), s0.ledger.chart;
    StoredIsSum(sys.detail, Details(chart, sys.delivered), s);
    SplitThree(sys.delivered, sys.ledger.pending, sys.missed, DetailOf(chart), DebitAt(s));
    SplitThree(sys.delivered, sys.ledger.pending, sys.missed, DetailOf(chart), CreditAt(s));
  }

  /** No saved book has an account with both sides. */
  ghost predicate NoneTwoSided(bs: seq<Book>) {
    forall b, a :: b in bs && b.saves && a in b.draft.items ==> !TwoSided(b.draft.items[a], b.opts)
  }

  lemma {:induction false} NoHalves(bs: seq<Book>, tx: TxId, day: Day)
    requires NoneTwoSided(bs)
    ensures BooksHalves(bs, tx, day) == multiset{}
    decreases |bs|
  {
    if bs != [] {
      var b := bs[0];
      assert b in bs;
      NoHalves(bs[1..], tx, day);
      if b.saves {
        BookHasNoHalves(BookItems(b, tx), b.team, b.opts, day);
      }
    }
  }

  lemma BookHasNoHalves(items: map<AccountRef, Item>, team: TeamId, opts: CommitOptions, day: Day)
    requires forall a :: a in items ==> !TwoSided(items[a], opts)
    ensures CommitHalves(items, team, opts, day) == multiset{}
  {
    if r :| r in CommitHalves(items, team, opts, day) {
      BagMember(items.Keys, HalvesAt(items, team, opts, day), r);
      assert false;
    }
  }

  ghost predicate QuietRun(s0: System, es: seq<Event>)
    decreases |es|
  {
    es != [] ==>
      && QuietRun(s0, es[..|es| - 1])
      && (es[|es| - 1].Commit? ==> NoneTwoSided(ActBooks(After(s0, es[..|es| - 1]).ledger, es[|es| - 1].act)))
  }

  lemma {:induction false} NothingMissed(s0: System, es: seq<Event>)
    requires s0.missed == multiset{} && QuietRun(s0, es)
    ensures After(s0, es).missed == multiset{}
    decreases |es|
  {
    if es != [] {
      var s, e := After(s0, es[..|es| - 1]), es[|es| - 1];
      NothingMissed(s0, es[..|es| - 1]);
      if e.Commit? {
        NoHalves(ActBooks(s.ledger, e.act), ActTx(s.ledger, e.act), e.act.day);
      }
    }
  }

  /** With no two-sided account in any book and nothing queued, both tables are the group-by of the journal,
      row for row and column for column, whatever the order of commits and deliveries was. */
  lemma QuiescentAgreement(s0: System, es: seq<Event>)
    requires Inv(s0) && s0.missed == multiset{} && Runs(s0, es) && QuietRun(s0, es)
    requires After(s0, es).ledger.pending == multiset{}
    ensures var sys := After(s0, es);
            && TurnoverRight(sys.detail, Details(s0.ledger.chart, sys.ledger.journal))
            && TurnoverRight(sys.group, Groups(s0.ledger.chart, sys.ledger.journal))
  {
    InvAlways(s0, es);
    NothingMissed(s0, es);
    var sys := After(s0, es);
    assert sys.ledger.journal == sys.delivered;
  }

  /** So at quiescence a batch resync finds every row there, with the debit and credit it would write. */
  lemma QuiescentIsBatch(s0: System, es: seq<Event>, s: Slot<DetailKey>)
    requires Inv(s0) && s0.missed == multiset{} && Runs(s0, es) && QuietRun(s0, es)
    requires After(s0, es).ledger.pending == multiset{}
    ensures var sys := After(s0, es);
            var batch := Upsert(sys.detail, Details(s0.ledger.chart, sys.ledger.journal));
            && batch.Keys == sys.detail.Keys
            && (s in batch ==> batch[s].debit == sys.detail[s].debit && batch[s].credit == sys.detail[s].credit)
  {
    QuiescentAgreement(s0, es);
    var sys := After(s0, es);
    BatchAgrees(sys.detail, Details(s0.ledger.chart, sys.ledger.journal), s);
  }

  // ---- the account-key table against the account table ---------------------------------

  /** The accounts with the key that have a row for the team. */
  ghost function AccountsWith(t: DetailTable, k: GroupKey): set<AccountRef> {
    set s | s in t && s.key.team == k.team && s.key.account.key == k.key :: s.key.account
  }

  ghost function DetailDebit(t: DetailTable, team: TeamId, day: Day): AccountRef -> real {
    (a: AccountRef) => StoredDebit(t, Slot(DetailKey(a, team), day))
  }

  ghost function DetailCredit(t: DetailTable, team: TeamId, day: Day): AccountRef -> real {
    (a: AccountRef) => StoredCredit(t, Slot(DetailKey(a, team), day))
  }

  ghost function DetailBalance(t: DetailTable, team: TeamId, day: Day): AccountRef -> real {
    (a: AccountRef) => BalanceBefore(t, DetailKey(a, team), day)
  }

  ghost function DeliveredAccount(): Row -> AccountRef { (r: Row) => r.account }

  ghost function Through<T, U>(g: T -> U, f: U -> real): T -> real { (x: T) => f(g(x)) }

  lemma DeliveredAccountHasRow(chart: Chart, d: multiset<Row>, t: DetailTable, r: Row)
    requires TurnoverRight(t, Details(chart, d)) && r in d
    ensures r.account in AccountsWith(t, GroupKey(r.account.key, r.team))
  {
    ImageMember(d, DetailOf(chart), ToDetail(chart, r));
    assert DetailOf(chart)(r) == ToDetail(chart, r);
    var s := Slot(DetailKey(r.account, r.team), r.day);
    assert HasDelivery(Details(chart, d), s);
    assert s in t;
  }

  /** fg counts the key's rows only, and fd(a) counts of them those of account a. */
  ghost predicate Splits(chart: Chart, d: multiset<Row>, k: GroupKey, fg: Delivery<GroupKey> -> real,
                         fd: AccountRef -> (Delivery<DetailKey> -> real)) {
    && (forall r: Row :: r in d && GroupKey(r.account.key, r.team) != k ==> fg(ToGroup(chart, r)) == 0.0)
    && (forall r: Row, a: AccountRef :: r in d && a.key == k.key ==>
          fd(a)(ToDetail(chart, r)) == if r.account == a then fg(ToGroup(chart, r)) else 0.0)
  }

  lemma AccountPart(chart: Chart, d: multiset<Row>, k: GroupKey, fg: Delivery<GroupKey> -> real,
                    fd: AccountRef -> (Delivery<DetailKey> -> real), a: AccountRef)
    requires Splits(chart, d, k, fg, fd) && a.key == k.key
    ensures GroupTotal(d, Through(GroupOf(chart), fg), DeliveredAccount())(a) == Sum(Details(chart, d), fd(a))
  {
    SumImage(d, DetailOf(chart), fd(a), Group(Through(GroupOf(chart), fg), DeliveredAccount(), a));
  }

  lemma RowCounted(chart: Chart, d: multiset<Row>, t: DetailTable, k: GroupKey, fg: Delivery<GroupKey> -> real,
                   fd: AccountRef -> (Delivery<DetailKey> -> real), r: Row)
    requires TurnoverRight(t, Details(chart, d)) && Splits(chart, d, k, fg, fd) && r in d
    ensures DeliveredAccount()(r) in AccountsWith(t, k) || Through(GroupOf(chart), fg)(r) == 0.0
  {
    DeliveredAccountHasRow(chart, d, t, r);
  }

  /** A total over the account-key table's entries is the sum of a total over each account's entries. */
  lemma GroupIsSumOfDetails(chart: Chart, d: multiset<Row>, t: DetailTable, k: GroupKey, fg: Delivery<GroupKey> -> real,
                            fd: AccountRef -> (Delivery<DetailKey> -> real), h: AccountRef -> real)
    requires TurnoverRight(t, Details(chart, d)) && Splits(chart, d, k, fg, fd)
    requires forall a: AccountRef :: a in AccountsWith(t, k) ==> h(a) == Sum(Details(chart, d), fd(a))
    ensures Sum(Groups(chart, d), fg) == Sum(multiset(AccountsWith(t, k)), h)
  {
    var f, keys := Through(GroupOf(chart), fg), AccountsWith(t, k);
    SumImage(d, GroupOf(chart), fg, f);
    forall r | r in d { RowCounted(chart, d, t, k, fg, fd, r); }
    SumByGroup(d, f, DeliveredAccount(), keys);
    forall a | a in keys { AccountPart(chart, d, k, fg, fd, a); }
    SumSame(multiset(keys), GroupTotal(d, f, DeliveredAccount()), h);
  }

  ghost function DebitsOn(team: TeamId, day: Day): AccountRef -> (Delivery<DetailKey> -> real) {
    (a: AccountRef) => DebitAt(Slot(DetailKey(a, team), day))
  }

  ghost function CreditsOn(team: TeamId, day: Day): AccountRef -> (Delivery<DetailKey> -> real) {
    (a: AccountRef) => CreditAt(Slot(DetailKey(a, team), day))
  }

  ghost function AmountsBefore(team: TeamId, day: Day): AccountRef -> (Delivery<DetailKey> -> real) {
    (a: AccountRef) => AmountBefore(DetailKey(a, team), day)
  }

  lemma DebitsSplit(chart: Chart, d: multiset<Row>, k: GroupKey, day: Day)
    ensures Splits(chart, d, k, DebitAt(Slot(k, day)), DebitsOn(k.team, day))
    ensures Splits(chart, d, k, CreditAt(Slot(k, day)), CreditsOn(k.team, day))
  {
  }

  lemma StoredDetails(chart: Chart, d: multiset<Row>, detail: DetailTable, team: TeamId, day: Day)
    requires TurnoverRight(detail, Details(chart, d))
    ensures forall a: AccountRef ::
      DetailDebit(detail, team, day)(a) == Sum(Details(chart, d), DebitsOn(team, day)(a))
    ensures forall a: AccountRef ::
      DetailCredit(detail, team, day)(a) == Sum(Details(chart, d), CreditsOn(team, day)(a))
  {
    forall a: AccountRef
      ensures DetailDebit(detail, team, day)(a) == Sum(Details(chart, d), DebitsOn(team, day)(a))
      ensures DetailCredit(detail, team, day)(a) == Sum(Details(chart, d), CreditsOn(team, day)(a))
    {
      StoredIsSum(detail, Details(chart, d), Slot(DetailKey(a, team), day));
    }
  }

  /** The aggregate index equals the detail index: for every delivered bag, in whatever order it came, an account-key
      row's turnover is the sum over the accounts with that key. */
  lemma AggregateTurnover(chart: Chart, d: multiset<Row>, detail: DetailTable, group: GroupTable, k: GroupKey, day: Day)
    requires TurnoverRight(detail, Details(chart, d)) && TurnoverRight(group, Groups(chart, d))
    ensures StoredDebit(group, Slot(k, day)) == Sum(multiset(AccountsWith(detail, k)), DetailDebit(detail, k.team, day))
    ensures StoredCredit(group, Slot(k, day)) ==
      Sum(multiset(AccountsWith(detail, k)), DetailCredit(detail, k.team, day))
  {
    StoredIsSum(group, Groups(chart, d), Slot(k, day));
    DebitsSplit(chart, d, k, day);
    StoredDetails(chart, d, detail, k.team, day);
    GroupIsSumOfDetails(chart, d, detail, k, DebitAt(Slot(k, day)), DebitsOn(k.team, day),
                        DetailDebit(detail, k.team, day));
    GroupIsSumOfDetails(chart, d, detail, k, CreditAt(Slot(k, day)), CreditsOn(k.team, day),
                        DetailCredit(detail, k.team, day));
  }

  /** And where both tables keep the running-balance invariant, the key's balance before any day is the sum of its
      accounts' latest balances. */
  lemma AggregateBalance(chart: Chart, d: multiset<Row>, detail: DetailTable, group: GroupTable, k: GroupKey, day: Day)
    requires TurnoverRight(detail, Details(chart, d)) && TurnoverRight(group, Groups(chart, d))
    requires BalancesRight(group, Groups(chart, d), k)
    requires forall a: AccountRef :: a.key == k.key ==> BalancesRight(detail, Details(chart, d), DetailKey(a, k.team))
    ensures BalanceBefore(group, k, day) == Sum(multiset(AccountsWith(detail, k)), DetailBalance(detail, k.team, day))
  {
    BalanceBeforeIsSum(group, Groups(chart, d), k, day);
    forall a: AccountRef | a.key == k.key { BalanceBeforeIsSum(detail, Details(chart, d), DetailKey(a, k.team), day); }
    GroupIsSumOfDetails(chart, d, detail, k, AmountBefore(k, day), AmountsBefore(k.team, day),
                        DetailBalance(detail, k.team, day));
  }

  /** In every reachable state of the protocol the two tables agree on turnover. */
  lemma TablesAgreeAlways(s0: System, es: seq<Event>, k: GroupKey, day: Day)
    requires Inv(s0) && Runs(s0, es)
    ensures var s := After(s0, es);
            && StoredDebit(s.group, Slot(k, day)) == Sum(multiset(AccountsWith(s.detail, k)),
                                                         DetailDebit(s.detail, k.team, day))
            && StoredCredit(s.group, Slot(k, day)) == Sum(multiset(AccountsWith(s.detail, k)),
                                                          DetailCredit(s.detail, k.team, day))
  {
    InvAlways(s0, es);
    var s := After(s0, es);
    AggregateTurnover(s0.ledger.chart, s.delivered, s.detail, s.group, k, day);
  }
}

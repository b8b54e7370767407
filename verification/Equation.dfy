/** The accounting equation over whole runs of transactions, amendments and rollbacks. */
module Equation {
  import opened Sums
  import opened Accounts
  import opened Journal
  import opened Books
  import opened Nets
  import opened Rollback

  /** Everything that changes the journal: a transaction under a new reference, books added under an
      existing one, and the cancelling of one. */
  datatype Act =
    | Open(creation: Creation, books: seq<Book>, tail: Option<Error>, day: Day)
    | Amend(ref: RefId, books: seq<Book>, day: Day)
    | Cancel(tx: TxId, order: seq<TeamId>, day: Day)

  ghost function Step(l: Ledger, act: Act): (Ledger, Option<Error>) {
    match act
    case Open(c, books, tail, day) => PostSpec(l, c, books, tail, day)
    case Amend(ref, books, day) => AmendSpec(l, ref, books, day)
    case Cancel(tx, order, day) => RollbackSpec(l, tx, order, day)
  }

  /** Books only name accounts that were found, and a rollback visits each of the teams once. */
  ghost predicate Legal(l: Ledger, act: Act) {
    match act
    case Open(_, books, _, _) => BooksKnown(l.chart, books)
    case Amend(_, books, _) => BooksKnown(l.chart, books)
    case Cancel(tx, order, _) => Enumerates(order, TeamsOf(l.journal, tx))
  }

  ghost function Run(l: Ledger, acts: seq<Act>): Ledger
    decreases |acts|
  {
    if acts == [] then l else Step(Run(l, acts[..|acts| - 1]), acts[|acts| - 1]).0
  }

  ghost predicate LegalRun(l: Ledger, acts: seq<Act>)
    decreases |acts|
  {
    acts != [] ==> LegalRun(l, acts[..|acts| - 1]) && Legal(Run(l, acts[..|acts| - 1]), acts[|acts| - 1])
  }

  /** How many books of the team the accepted act leaves live in the transaction, given how many were. */
  ghost function LiveAfter(l: Ledger, act: Act, tx: TxId, team: TeamId, before: nat): nat {
    if Step(l, act).1.Some? then before
    else match act
      case Open(_, books, _, _) => before + CountIn(books, l.nextTx, tx, team)
      case Amend(ref, books, _) => before + if ref in l.txs then CountIn(books, l.txs[ref], tx, team) else 0
      case Cancel(x, _, _) => if x == tx then 0 else before
  }

  /** The team's committed books of the transaction that no later rollback has cancelled. */
  ghost function Live(l: Ledger, acts: seq<Act>, tx: TxId, team: TeamId): nat
    decreases |acts|
  {
    if acts == [] then 0
    else
      var init := acts[..|acts| - 1];
      LiveAfter(Run(l, init), acts[|acts| - 1], tx, team, Live(l, init, tx, team))
  }

  lemma OpenedImbalance(l: Ledger, l1: Ledger, tx: TxId, bs: seq<Book>, tail: Option<Error>, day: Day, x: TxId,
                        team: TeamId, n: nat)
    requires Within(Imbalance(l.journal, x, team), n) && l1.journal == l.journal
    ensures var (l', e) := OpenSpec(l, l1, tx, bs, tail, day);
            Within(Imbalance(l'.journal, x, team), if e.Some? then n else n + CountIn(bs, tx, x, team))
  {
    TransactionEffect(l, l1, tx, bs, tail, day);
    if OpenSpec(l, l1, tx, bs, tail, day).1.None? {
      ImbalanceOfBooks(bs, tx, day, x, team);
      SumUnion(l.journal, BooksRows(bs, tx, day), Raw(InTx(x, team)));
      WithinAdd(Imbalance(l.journal, x, team), n, Imbalance(BooksRows(bs, tx, day), x, team), CountIn(bs, tx, x, team));
    }
  }

  /** An imbalance only depends on the account nets. */
  lemma SameNetsSameImbalance(j: multiset<Row>, j': multiset<Row>, tx: TxId, team: TeamId)
    requires forall a :: Net(j', tx, team, a) == Net(j, tx, team, a)
    ensures Imbalance(j', tx, team) == Imbalance(j, tx, team)
  {
    var net := (a: AccountRef) => Net(j, tx, team, a);
    var keys := AccountsOf(j, tx, team) + AccountsOf(j', tx, team);
    ImbalanceIsNets(j, tx, team, keys, net);
    ImbalanceIsNets(j', tx, team, keys, net);
  }

  lemma StepKeepsValid(l: Ledger, act: Act)
    requires ValidLedger(l) && Legal(l, act)
    ensures ValidLedger(Step(l, act).0) && Step(l, act).0.chart == l.chart
  {
    match act
    case Open(c, books, tail, day) =>
      PostKeepsValid(l, c, books, tail, day);
      PostAccepted(l, c, books, tail, day);
    case Amend(ref, books, day) =>
      if ref in l.txs {
        OpenKeepsValid(l, l, l.txs[ref], books, None, day);
        TransactionEffect(l, l, l.txs[ref], books, None, day);
      }
    case Cancel(tx, order, day) =>
      RollbackKeepsValid(l, tx, order, day);
      RollbackAccepted(l, tx, order, day);
  }

  lemma StepImbalance(l: Ledger, act: Act, x: TxId, team: TeamId, n: nat)
    requires ValidLedger(l) && Legal(l, act)
    requires Within(Imbalance(l.journal, x, team), n)
    ensures Within(Imbalance(Step(l, act).0.journal, x, team), LiveAfter(l, act, x, team, n))
  {
    match act
    case Open(c, books, tail, day) =>
      if CreateError(l, c).None? {
        OpenedImbalance(l, WithTransaction(l, c), l.nextTx, books, tail, day, x, team, n);
      }
    case Amend(ref, books, day) =>
      if ref in l.txs {
        OpenedImbalance(l, l, l.txs[ref], books, None, day, x, team, n);
      }
    case Cancel(tx, order, day) =>
      RollbackAccepted(l, tx, order, day);
      if RollbackSpec(l, tx, order, day).1.None? {
        RollbackIsExact(l, tx, order, day);
        if x == tx {
          RollbackBalances(l, tx, order, day);
        } else {
          SameNetsSameImbalance(l.journal, RollbackSpec(l, tx, order, day).0.journal, x, team);
        }
      }
  }

  /** In every reachable state, each book's imbalance in each transaction is within its live commits. */
  lemma {:induction false} RunImbalance(l: Ledger, acts: seq<Act>, x: TxId, team: TeamId)
    requires ValidLedger(l) && l.journal == multiset{} && LegalRun(l, acts)
    ensures ValidLedger(Run(l, acts)) && Run(l, acts).chart == l.chart
    ensures Within(Imbalance(Run(l, acts).journal, x, team), Live(l, acts, x, team))
    decreases |acts|
  {
    if acts != [] {
      var init, act := acts[..|acts| - 1], acts[|acts| - 1];
      RunImbalance(l, init, x, team);
      StepKeepsValid(Run(l, init), act);
      StepImbalance(Run(l, init), act, x, team, Live(l, init, x, team));
    }
  }

  ghost function Count<K>(keys: set<K>, n: K -> nat): nat
    decreases |keys|
  {
    if keys == {} then 0
    else
      var k :| k in keys;
      n(k) + Count(keys - {k}, n)
  }

  lemma {:induction false} WithinSum<K>(keys: set<K>, v: K -> real, n: K -> nat)
    requires forall k :: k in keys ==> Within(v(k), n(k))
    ensures Within(Sum(multiset(keys), v), Count(keys, n))
    decreases |keys|
  {
    if keys != {} {
      var k :| k in keys && Count(keys, n) == n(k) + Count(keys - {k}, n);
      WithinSum(keys - {k}, v, n);
      SumPickKey(keys, v, k);
      WithinAdd(v(k), n(k), Sum(multiset(keys - {k}), v), Count(keys - {k}, n));
    }
  }

  ghost function TxsOf(j: multiset<Row>): set<TxId> { set r | r in j :: r.tx }
  ghost function RowTx(): Row -> TxId { (r: Row) => r.tx }

  ghost function LiveOf(l: Ledger, acts: seq<Act>, team: TeamId): TxId -> nat {
    (tx: TxId) => Live(l, acts, tx, team)
  }

  /** The team's committed books in transactions not rolled back since. */
  ghost function LiveBooks(l: Ledger, acts: seq<Act>, team: TeamId): nat {
    Count(TxsOf(Run(l, acts).journal), LiveOf(l, acts, team))
  }

  lemma TeamWithin(j: multiset<Row>, team: TeamId, n: TxId -> nat)
    requires forall tx :: tx in TxsOf(j) ==> Within(Imbalance(j, tx, team), n(tx))
    ensures Within(Sum(j, Raw(InTeam(team))), Count(TxsOf(j), n))
  {
    var f := Raw(InTeam(team));
    SumByGroup(j, f, RowTx(), TxsOf(j));
    forall tx | tx in TxsOf(j)
      ensures Within(GroupTotal(j, f, RowTx())(tx), n(tx))
    {
      SumSame(j, Group(f, RowTx(), tx), Raw(InTx(tx, team)));
    }
    WithinSum(TxsOf(j), GroupTotal(j, f, RowTx()), n);
  }

  lemma TeamWithinLive(l: Ledger, acts: seq<Act>, team: TeamId)
    requires ValidLedger(l) && l.journal == multiset{} && LegalRun(l, acts)
    ensures Within(Sum(Run(l, acts).journal, Raw(InTeam(team))), LiveBooks(l, acts, team))
  {
    forall tx { RunImbalance(l, acts, tx, team); }
    TeamWithin(Run(l, acts).journal, team, LiveOf(l, acts, team));
  }

  // ---- in the seeded chart -------------------------------------------------------------

  /** A row's amount in the natural sign of its account, if the account is of the class. */
  ghost function OfClass(chart: Chart, team: TeamId, coa: Coa): Row -> real {
    (r: Row) => if r.team == team && r.account in chart && SeedClass(r.account.key) == Some(coa)
                then Natural(chart[r.account], r.debit, r.credit) else 0.0
  }

  ghost function ClassTotal(chart: Chart, j: multiset<Row>, team: TeamId, coa: Coa): real {
    Sum(j, OfClass(chart, team, coa))
  }

  ghost function Equity(chart: Chart, j: multiset<Row>, team: TeamId): real {
    ClassTotal(chart, j, team, Coa.Asset) + ClassTotal(chart, j, team, Coa.Expense)
    - ClassTotal(chart, j, team, Coa.Liability) - ClassTotal(chart, j, team, Coa.Equity)
    - ClassTotal(chart, j, team, Coa.Revenue)
  }

  lemma {:induction false} ClassesCoverBook(chart: Chart, j: multiset<Row>, team: TeamId)
    requires Seeded(chart) && forall r :: r in j ==> r.account in chart
    ensures Equity(chart, j, team) == Sum(j, Raw(InTeam(team)))
    decreases |j|
  {
    if j != multiset{} {
      var r :| r in j;
      ClassesCoverBook(chart, j - multiset{r}, team);
      SeedSideFollowsClass(r.account.key);
      SumPick(j, Raw(InTeam(team)), r);
      SumPick(j, OfClass(chart, team, Coa.Asset), r);
      SumPick(j, OfClass(chart, team, Coa.Expense), r);
      SumPick(j, OfClass(chart, team, Coa.Liability), r);
      SumPick(j, OfClass(chart, team, Coa.Equity), r);
      SumPick(j, OfClass(chart, team, Coa.Revenue), r);
    }
  }

  /** The accounting equation: over every run, for every team, assets plus expenses minus liabilities, equity and
      revenue stay below one tolerance per committed book of a transaction not rolled back, and are exactly zero
      when there is none. */
  lemma AccountingEquation(l: Ledger, acts: seq<Act>, team: TeamId)
    requires ValidLedger(l) && l.journal == multiset{} && LegalRun(l, acts) && Seeded(l.chart)
    ensures var v, n := Equity(l.chart, Run(l, acts).journal, team), LiveBooks(l, acts, team);
            if n == 0 then v == 0.0 else Abs(v) < n as real * EPSILON
  {
    TeamWithinLive(l, acts, team);
    RunKeepsAccounts(l, acts);
    ClassesCoverBook(l.chart, Run(l, acts).journal, team);
  }

  lemma RunKeepsAccounts(l: Ledger, acts: seq<Act>)
    requires ValidLedger(l) && l.journal == multiset{} && LegalRun(l, acts)
    ensures forall r :: r in Run(l, acts).journal ==> r.account in l.chart
  {
    RunImbalance(l, acts, 0, 0);
    assert forall r :: r in Run(l, acts).journal ==> Known(l.chart, r.account);
  }
}

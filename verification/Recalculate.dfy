/** Rebuilding the daily account rows from the journal, zeroing each day and account once
    (setup/recalculate_daily.go, `BalanceCalculate.AddEntry` in accounting_core/daily_balance.go). */
module Recalculate {
  import opened Sums
  import opened Accounts
  import opened Journal
  import opened DailyTable
  import opened AsyncIndex

  datatype DayAccount = DayAccount(day: Day, account: AccountRef)

  /** The entry as `AddEntry` counts it: with no rollback adjustment. */
  function ToPlain(chart: Chart, r: Row): Delivery<DetailKey> {
    Delivery(DetailKey(r.account, r.team), r.day, r.debit, r.credit, RowBalance(chart, r))
  }

  ghost function PlainOf(chart: Chart): Row -> Delivery<DetailKey> { (r: Row) => ToPlain(chart, r) }

  ghost function DayBalanceAt(s: Slot<DetailKey>): Delivery<DetailKey> -> real {
    (x: Delivery<DetailKey>) => if x.key == s.key && x.day == s.day then x.balance else 0.0
  }

  /** The entries reach the day and account, in any team's book. */
  ghost predicate Touched(d: multiset<Delivery<DetailKey>>, s: Slot<DetailKey>) {
    exists x :: x in d && x.key.account == s.key.account && x.day == s.day
  }

  ghost function DeliveredSlots(d: multiset<Delivery<DetailKey>>): set<Slot<DetailKey>> {
    set x | x in d :: Slot(x.key, x.day)
  }

  /** The table a rebuild should leave: sums of each team's own entries where anything touched the day and account,
      the old row elsewhere. The opening balance is never reset. */
  ghost function Rebuilt(t: DetailTable, d: multiset<Delivery<DetailKey>>): DetailTable {
    map s | s in t.Keys + DeliveredSlots(d) ::
      if s in t && !Touched(d, s) then t[s]
      else DayRow(Sum(d, DebitAt(s)), Sum(d, CreditAt(s)), Sum(d, DayBalanceAt(s)),
                  if s in t then t[s].start else Some(0.0))
  }

  /** The `BeforeUpdateDaily` hook: zero every team's row of the day and account, unless already done. */
  function ZeroOnce(t: DetailTable, done: set<DayAccount>, day: Day, a: AccountRef): DetailTable {
    if DayAccount(day, a) in done then t
    else
      map s | s in t ::
        if s.day == day && s.key.account == a then t[s].(debit := 0.0, credit := 0.0, balance := 0.0) else t[s]
  }

  /** Add to the row, or insert it. */
  function AddOrInsert(t: DetailTable, x: Delivery<DetailKey>): DetailTable {
    var s := Slot(x.key, x.day);
    if s in t then t[s := AddTo(t[s], x.debit, x.credit, x.balance)]
    else t[s := DayRow(x.debit, x.credit, x.balance, Some(0.0))]
  }

  ghost predicate DoneFor(done: set<DayAccount>, d: multiset<Delivery<DetailKey>>) {
    forall s: Slot<DetailKey> :: DayAccount(s.day, s.key.account) in done <==> Touched(d, s)
  }

  lemma TouchedAdd(d: multiset<Delivery<DetailKey>>, x: Delivery<DetailKey>, s: Slot<DetailKey>)
    ensures Touched(d + multiset{x}, s) <==> Touched(d, s) || (x.key.account == s.key.account && x.day == s.day)
  {
    var d' := d + multiset{x};
    assert x in d';
    if Touched(d, s) {
      var y :| y in d && y.key.account == s.key.account && y.day == s.day;
      assert y in d';
    }
  }

  lemma UntouchedSums(d: multiset<Delivery<DetailKey>>, s: Slot<DetailKey>)
    requires forall x :: x in d ==> !(x.key == s.key && x.day == s.day)
    ensures Sum(d, DebitAt(s)) == 0.0 && Sum(d, CreditAt(s)) == 0.0 && Sum(d, DayBalanceAt(s)) == 0.0
  {
    SumZero(d, DebitAt(s));
    SumZero(d, CreditAt(s));
    SumZero(d, DayBalanceAt(s));
  }

  ghost predicate SameSums(d: multiset<Delivery<DetailKey>>, d': multiset<Delivery<DetailKey>>, x: Delivery<DetailKey>,
                           s: Slot<DetailKey>) {
    var hit := x.key == s.key && x.day == s.day;
    && Sum(d', DebitAt(s)) == Sum(d, DebitAt(s)) + (if hit then x.debit else 0.0)
    && Sum(d', CreditAt(s)) == Sum(d, CreditAt(s)) + (if hit then x.credit else 0.0)
    && Sum(d', DayBalanceAt(s)) == Sum(d, DayBalanceAt(s)) + (if hit then x.balance else 0.0)
  }

  lemma SumsAdd(d: multiset<Delivery<DetailKey>>, x: Delivery<DetailKey>, s: Slot<DetailKey>)
    ensures SameSums(d, d + multiset{x}, x, s)
    ensures s in DeliveredSlots(d + multiset{x}) <==> s in DeliveredSlots(d) || s == Slot(x.key, x.day)
  {
    SumAdd(d, x, DebitAt(s));
    SumAdd(d, x, CreditAt(s));
    SumAdd(d, x, DayBalanceAt(s));
    assert x in d + multiset{x};
    if s in DeliveredSlots(d) {
      var y :| y in d && s == Slot(y.key, y.day);
      assert y in d + multiset{x};
    }
  }

  /** What the sums and the touched slots of the entries before and after x are, at s. */
  ghost predicate StepFacts(d: multiset<Delivery<DetailKey>>, d': multiset<Delivery<DetailKey>>, done: set<DayAccount>,
                            x: Delivery<DetailKey>, s: Slot<DetailKey>) {
    && (DayAccount(x.day, x.key.account) in done <==> Touched(d, Slot(x.key, x.day)))
    && SameSums(d, d', x, s)
    && (s in DeliveredSlots(d') <==> s in DeliveredSlots(d) || s == Slot(x.key, x.day))
    && (Touched(d', s) <==> Touched(d, s) || (x.key.account == s.key.account && x.day == s.day))
    && (s in DeliveredSlots(d) ==> Touched(d, s))
    && (s !in DeliveredSlots(d) ==>
          Sum(d, DebitAt(s)) == 0.0 && Sum(d, CreditAt(s)) == 0.0 && Sum(d, DayBalanceAt(s)) == 0.0)
  }

  /** The tables hold the same at s. */
  ghost predicate SameRow(t: DetailTable, u: DetailTable, s: Slot<DetailKey>) {
    (s in t <==> s in u) && (s in t ==> t[s] == u[s])
  }

  /** A row of another day or account is left alone. */
  lemma RebuildFar(t: DetailTable, d: multiset<Delivery<DetailKey>>, d': multiset<Delivery<DetailKey>>,
                   done: set<DayAccount>,
                   x: Delivery<DetailKey>, s: Slot<DetailKey>)
    requires StepFacts(d, d', done, x, s) && !(x.key.account == s.key.account && x.day == s.day)
    ensures SameRow(AddOrInsert(ZeroOnce(Rebuilt(t, d), done, x.day, x.key.account), x), Rebuilt(t, d'), s)
  {
  }

  /** The first entry of a day and account zeroes the rows of all teams. */
  lemma RebuildFirst(t: DetailTable, d: multiset<Delivery<DetailKey>>, d': multiset<Delivery<DetailKey>>,
                     done: set<DayAccount>,
                     x: Delivery<DetailKey>, s: Slot<DetailKey>)
    requires StepFacts(d, d', done, x, s) && x.key.account == s.key.account && x.day == s.day && !Touched(d, s)
    ensures SameRow(AddOrInsert(ZeroOnce(Rebuilt(t, d), done, x.day, x.key.account), x), Rebuilt(t, d'), s)
  {
    assert !Touched(d, Slot(x.key, x.day));
  }

  /** A later one leaves the other teams' rows alone. */
  lemma RebuildOther(t: DetailTable, d: multiset<Delivery<DetailKey>>, d': multiset<Delivery<DetailKey>>,
                     done: set<DayAccount>, x: Delivery<DetailKey>, s: Slot<DetailKey>)
    requires StepFacts(d, d', done, x, s) && x.key.account == s.key.account && x.day == s.day && Touched(d, s)
    requires x.key != s.key
    ensures SameRow(AddOrInsert(ZeroOnce(Rebuilt(t, d), done, x.day, x.key.account), x), Rebuilt(t, d'), s)
  {
    assert Touched(d, Slot(x.key, x.day));
  }

  /** And adds to its own. */
  lemma RebuildOwn(t: DetailTable, d: multiset<Delivery<DetailKey>>, d': multiset<Delivery<DetailKey>>,
                   done: set<DayAccount>, x: Delivery<DetailKey>, s: Slot<DetailKey>)
    requires StepFacts(d, d', done, x, s) && x.key == s.key && x.day == s.day && Touched(d, s)
    ensures SameRow(AddOrInsert(ZeroOnce(Rebuilt(t, d), done, x.day, x.key.account), x), Rebuilt(t, d'), s)
  {
    assert s == Slot(x.key, x.day);
  }

  /** One entry of the loop keeps the table rebuilt for the entries so far. */
  lemma RebuildStep(t: DetailTable, d: multiset<Delivery<DetailKey>>, done: set<DayAccount>, x: Delivery<DetailKey>)
    requires DoneFor(done, d)
    ensures AddOrInsert(ZeroOnce(Rebuilt(t, d), done, x.day, x.key.account), x) == Rebuilt(t, d + multiset{x})
    ensures DoneFor(done + {DayAccount(x.day, x.key.account)}, d + multiset{x})
  {
    hide Rebuilt, ZeroOnce, AddOrInsert, Touched;
    forall s: Slot<DetailKey> { TouchedAdd(d, x, s); }
    var next := AddOrInsert(ZeroOnce(Rebuilt(t, d), done, x.day, x.key.account), x);
    forall s: Slot<DetailKey>
      ensures SameRow(next, Rebuilt(t, d + multiset{x}), s)
    {
      RebuildStepAt(t, d, done, x, s);
    }
    SameTable(next, Rebuilt(t, d + multiset{x}));
  }

  lemma SameTable(t: DetailTable, u: DetailTable)
    requires forall s :: SameRow(t, u, s)
    ensures t == u
  {
    assert forall s :: SameRow(t, u, s) ==> (s in t <==> s in u);
  }

  lemma RebuildStepAt(t: DetailTable, d: multiset<Delivery<DetailKey>>, done: set<DayAccount>, x: Delivery<DetailKey>,
                      s: Slot<DetailKey>)
    requires DoneFor(done, d)
    ensures SameRow(AddOrInsert(ZeroOnce(Rebuilt(t, d), done, x.day, x.key.account), x), Rebuilt(t, d + multiset{x}), s)
  {
    hide Rebuilt, ZeroOnce, AddOrInsert, SameRow;
    var d' := d + multiset{x};
    TouchedAdd(d, x, s);
    SumsAdd(d, x, s);
    if s !in DeliveredSlots(d) { UntouchedSums(d, s); }
    assert Slot(x.key, x.day).key.account == x.key.account;
    assert StepFacts(d, d', done, x, s);
    if !(x.key.account == s.key.account && x.day == s.day) {
      RebuildFar(t, d, d', done, x, s);
    } else if Touched(d, s) && x.key == s.key {
      RebuildOwn(t, d, d', done, x, s);
    } else if Touched(d, s) {
      RebuildOther(t, d, d', done, x, s);
    } else {
      RebuildFirst(t, d, d', done, x, s);
    }
  }

  // ---- what a rebuild promises ---------------------------------------------------------

  lemma RebuiltTouches(t: DetailTable, d: multiset<Delivery<DetailKey>>, s: Slot<DetailKey>)
    ensures s in Rebuilt(t, d) <==> s in t || s in DeliveredSlots(d)
    ensures s in DeliveredSlots(d) ==> Touched(d, s)
  {
  }

  /** A rebuild does not depend on what the touched rows held, and leaves the untouched ones alone. */
  lemma RebuildIgnoresOldAmounts(t: DetailTable, u: DetailTable, d: multiset<Delivery<DetailKey>>, s: Slot<DetailKey>)
    requires s in Rebuilt(t, d)
    ensures Touched(d, s) ==>
      && Rebuilt(t, d)[s].debit == Sum(d, DebitAt(s)) && Rebuilt(t, d)[s].credit == Sum(d, CreditAt(s))
      && Rebuilt(t, d)[s].balance == Sum(d, DayBalanceAt(s))
    ensures Touched(d, s) && s in Rebuilt(u, d) ==>
      Rebuilt(u, d)[s] == Rebuilt(t, d)[s].(start := Rebuilt(u, d)[s].start)
    ensures !Touched(d, s) ==> s in t && Rebuilt(t, d)[s] == t[s]
    ensures Rebuilt(t, d)[s].start == if s in t then t[s].start else Some(0.0)
  {
    RebuiltTouches(t, d, s);
  }

  /** A second rebuild over the same entries changes nothing. */
  lemma RebuildTwice(t: DetailTable, d: multiset<Delivery<DetailKey>>)
    ensures Rebuilt(Rebuilt(t, d), d) == Rebuilt(t, d)
  {
    var u := Rebuilt(t, d);
    assert u.Keys + DeliveredSlots(d) == u.Keys;
    forall s | s in u
      ensures Rebuilt(u, d)[s] == u[s]
    {
      RebuiltTouches(t, d, s);
    }
  }

  /** The service object: the account table, and the days and accounts already zeroed. */
  class BalanceCalculate {
    const chart: Chart
    var rows: DetailTable
    var dayMap: set<DayAccount>

    constructor (chart: Chart, rows: DetailTable)
      ensures this.chart == chart && this.rows == rows && dayMap == {}
    {
      this.chart, this.rows, dayMap := chart, rows, {};
    }

    method AddEntry(entry: Row) returns (err: Option<Error>)
      modifies this
      ensures err == if entry.account in chart then None else Some(AccountNotFound)
      ensures err.Some? ==> rows == old(rows) && dayMap == old(dayMap)
      ensures err.None? ==>
        && rows == AddOrInsert(ZeroOnce(old(rows), old(dayMap), entry.day, entry.account), ToPlain(chart, entry))
        && dayMap == old(dayMap) + {DayAccount(entry.day, entry.account)}
    {
      if entry.account !in chart {
        return Some(AccountNotFound);
      }
      var key := DayAccount(entry.day, entry.account);
      if key !in dayMap {
        rows := map s | s in rows ::
          if s.day == entry.day && s.key.account == entry.account
          then rows[s].(debit := 0.0, credit := 0.0, balance := 0.0)
          else rows[s];
        dayMap := dayMap + {key};
      }
      var slot := Slot(DetailKey(entry.account, entry.team), entry.day);
      var balance := Natural(chart[entry.account], entry.debit, entry.credit);
      if slot in rows {
        rows := rows[slot := AddTo(rows[slot], entry.debit, entry.credit, balance)];
      } else {
        rows := rows[slot := DayRow(entry.debit, entry.credit, balance, Some(0.0))];
      }
      return None;
    }

    /** The entries come in whatever order the query yields them; the first missing account stops the loop with
        the entries before it already counted. */
    method RecalculateDaily(entries: seq<Row>) returns (err: Option<Error>, counted: nat)
      modifies this
      ensures counted <= |entries|
      ensures rows == Rebuilt(old(rows), Image(multiset(entries[..counted]), PlainOf(chart)))
      ensures err.None? ==> counted == |entries|
      ensures err.Some? ==> counted < |entries| && entries[counted].account !in chart
    {
      dayMap := {};
      counted := 0;
      RebuildNothing(rows);
      while counted < |entries|
        invariant counted <= |entries|
        invariant rows == Rebuilt(old(rows), Image(multiset(entries[..counted]), PlainOf(chart)))
        invariant DoneFor(dayMap, Image(multiset(entries[..counted]), PlainOf(chart)))
      {
        ghost var d := Image(multiset(entries[..counted]), PlainOf(chart));
        RebuildStep(old(rows), d, dayMap, ToPlain(chart, entries[counted]));
        PrefixBag(entries, counted);
        ImageAdd(multiset(entries[..counted]), entries[counted], PlainOf(chart));
        err := AddEntry(entries[counted]);
        if err.Some? {
          return;
        }
        counted := counted + 1;
      }
      err := None;
    }
  }

  lemma RebuildNothing(t: DetailTable)
    ensures Rebuilt(t, multiset{}) == t
  {
  }
}

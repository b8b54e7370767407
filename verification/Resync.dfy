/** The batch rebuild of a daily table, statement by statement (report/report_balance/account_daily_sync.go,
    report/report_balance/account_key_daily_sync.go, report/report_balance/service.go). */
module Resync {
  import opened Sums
  import opened Accounts
  import opened Journal
  import opened DailyTable

  /** The groups of `summary`: the keys and days that have an entry. */
  ghost function Slots<K(!new)>(d: multiset<Delivery<K>>): set<Slot<K>> { set x | x in d :: Slot(x.key, x.day) }

  ghost function BalanceAt<K(!new)>(s: Slot<K>): Delivery<K> -> real {
    (x: Delivery<K>) => if x.key == s.key && x.day == s.day then x.balance else 0.0
  }

  /** `sum(balance)` of each group. */
  ghost function GroupBalance<K(!new)>(d: multiset<Delivery<K>>): Slot<K> -> real {
    (s: Slot<K>) => Sum(d, BalanceAt(s))
  }

  /** `sum(su.balance) over (partition by key order by day)`. */
  ghost function WindowSum<K(!new)>(d: multiset<Delivery<K>>, s: Slot<K>): real {
    Sum(multiset(set r | r in Slots(d) && r.key == s.key && r.day <= s.day), GroupBalance(d))
  }

  /** `insert ... on conflict do update set debit, credit, balance`. */
  ghost function Upsert<K(!new)>(t: map<Slot<K>, DayRow>, d: multiset<Delivery<K>>): map<Slot<K>, DayRow> {
    map s | s in t.Keys + Slots(d) ::
      if s in Slots(d) then DayRow(Sum(d, DebitAt(s)), Sum(d, CreditAt(s)), WindowSum(d, s),
                                   if s in t then t[s].start else None)
      else t[s]
  }

  /** `lag(balance) over (partition by key order by day)`: null on the first row. */
  ghost function Lag<K(!new)>(t: map<Slot<K>, DayRow>, s: Slot<K>): Option<real> {
    match Latest(DaysBefore(t, s.key, s.day))
    case None => None
    case Some(m) => Some(t[Slot(s.key, m)].balance)
  }

  /** `update ... set start_balance = lag`. */
  ghost function SetStarts<K(!new)>(t: map<Slot<K>, DayRow>): map<Slot<K>, DayRow> {
    map s | s in t :: t[s].(start := Lag(t, s))
  }

  /** One `BalanceResync` of a table: its two table-changing statements, in either order. */
  ghost predicate Resynced<K(!new)>(t: map<Slot<K>, DayRow>, d: multiset<Delivery<K>>, t': map<Slot<K>, DayRow>) {
    t' == SetStarts(Upsert(t, d)) || t' == Upsert(SetStarts(t), d)
  }

  ghost function SlotOf<K(!new)>(): Delivery<K> -> Slot<K> { (x: Delivery<K>) => Slot(x.key, x.day) }

  /** The window sum over groups is the running sum over entries. */
  lemma WindowIsRunningSum<K(!new)>(d: multiset<Delivery<K>>, s: Slot<K>)
    ensures WindowSum(d, s) == RunningSum(d, s)
  {
    var f := AmountBefore(s.key, s.day + 1);
    var keys := set r | r in Slots(d) && r.key == s.key && r.day <= s.day;
    forall x | x in d
      ensures SlotOf()(x) in keys || f(x) == 0.0
    {
      assert Slot(x.key, x.day) in Slots(d);
    }
    SumByGroup(d, f, SlotOf(), keys);
    forall r | r in keys
      ensures GroupTotal(d, f, SlotOf())(r) == GroupBalance(d)(r)
    {
      SumSame(d, Group(f, SlotOf(), r), BalanceAt(r));
    }
    SumSame(multiset(keys), GroupTotal(d, f, SlotOf()), GroupBalance(d));
  }

  /** Every group of the journal has a row with its debit, credit and running balance. */
  ghost predicate Synced<K(!new)>(t: map<Slot<K>, DayRow>, d: multiset<Delivery<K>>) {
    forall s :: s in Slots(d) ==>
      s in t && t[s].debit == Sum(d, DebitAt(s)) && t[s].credit == Sum(d, CreditAt(s))
      && t[s].balance == RunningSum(d, s)
  }

  /** Every row opens with the balance of the row before it. */
  ghost predicate StartsRight<K(!new)>(t: map<Slot<K>, DayRow>) {
    forall s :: s in t ==> t[s].start == Lag(t, s)
  }

  ghost predicate SameAmounts<K(!new)>(t: map<Slot<K>, DayRow>, t': map<Slot<K>, DayRow>) {
    t'.Keys == t.Keys && forall s :: s in t ==> t'[s] == t[s].(start := t'[s].start)
  }

  lemma LagIgnoresStarts<K(!new)>(t: map<Slot<K>, DayRow>, t': map<Slot<K>, DayRow>, s: Slot<K>)
    requires SameAmounts(t, t')
    ensures Lag(t', s) == Lag(t, s)
  {
    assert forall r :: r in t <==> r in t';
    assert DaysBefore(t', s.key, s.day) == DaysBefore(t, s.key, s.day);
  }

  lemma UpsertSyncs<K(!new)>(t: map<Slot<K>, DayRow>, d: multiset<Delivery<K>>)
    ensures Synced(Upsert(t, d), d)
    ensures Synced(t, d) ==> Upsert(t, d) == t
  {
    forall s | s in Slots(d) { WindowIsRunningSum(d, s); }
  }

  lemma StartsKeepAmounts<K(!new)>(t: map<Slot<K>, DayRow>, d: multiset<Delivery<K>>)
    ensures SameAmounts(t, SetStarts(t)) && StartsRight(SetStarts(t))
    ensures SetStarts(SetStarts(t)) == SetStarts(t)
    ensures Synced(t, d) ==> Synced(SetStarts(t), d)
  {
    forall s | s in t { LagIgnoresStarts(t, SetStarts(t), s); }
  }

  /** One run already fixes debit, credit and balance of every group. */
  lemma OneRunSyncs<K(!new)>(t: map<Slot<K>, DayRow>, d: multiset<Delivery<K>>, t': map<Slot<K>, DayRow>)
    requires Resynced(t, d, t')
    ensures Synced(t', d)
  {
    UpsertSyncs(t, d);
    StartsKeepAmounts(Upsert(t, d), d);
    UpsertSyncs(SetStarts(t), d);
  }

  /** And touches the amounts of no other row. */
  lemma OneRunScope<K(!new)>(t: map<Slot<K>, DayRow>, d: multiset<Delivery<K>>, t': map<Slot<K>, DayRow>, s: Slot<K>)
    requires Resynced(t, d, t')
    ensures s in t' <==> s in t || s in Slots(d)
    ensures s in t && s !in Slots(d) ==> t'[s] == t[s].(start := t'[s].start)
  {
  }

  /** From a synced table, either order of the statements does nothing but set the starts. */
  lemma ResyncOfSynced<K(!new)>(t: map<Slot<K>, DayRow>, d: multiset<Delivery<K>>, t': map<Slot<K>, DayRow>)
    requires Synced(t, d) && Resynced(t, d, t')
    ensures t' == SetStarts(t)
  {
    UpsertSyncs(t, d);
    StartsKeepAmounts(t, d);
    UpsertSyncs(SetStarts(t), d);
  }

  /** Resync reaches a fixpoint: two runs in any two statement orders leave every row opening with the row before it,
      and a third run in any order changes nothing. */
  lemma ResyncFixpoint<K(!new)>(t: map<Slot<K>, DayRow>, d: multiset<Delivery<K>>, t1: map<Slot<K>, DayRow>,
                                t2: map<Slot<K>, DayRow>, t3: map<Slot<K>, DayRow>)
    requires Resynced(t, d, t1) && Resynced(t1, d, t2) && Resynced(t2, d, t3)
    ensures Synced(t1, d) && Synced(t2, d) && StartsRight(t2) && t3 == t2
  {
    OneRunSyncs(t, d, t1);
    ResyncOfSynced(t1, d, t2);
    StartsKeepAmounts(t1, d);
    ResyncOfSynced(t2, d, t3);
  }

  /** The order that sets the starts last is always enough. */
  lemma StartsLastIsEnough<K(!new)>(t: map<Slot<K>, DayRow>, d: multiset<Delivery<K>>)
    ensures StartsRight(SetStarts(Upsert(t, d)))
  {
    StartsKeepAmounts(Upsert(t, d), d);
  }

  /** Only the first row of a key may be new, and every row that another follows already holds the balance that the
      batch writes. */
  ghost predicate Ready<K(!new)>(t: map<Slot<K>, DayRow>, d: multiset<Delivery<K>>) {
    var u := Upsert(t, d);
    forall s, m :: s in u && Latest(DaysBefore(u, s.key, s.day)) == Some(m) ==> ReadyAt(t, u, s, Slot(s.key, m))
  }

  /** A row and the one before it were there, the one before with its new balance. */
  ghost predicate ReadyAt<K(!new)>(t: map<Slot<K>, DayRow>, u: map<Slot<K>, DayRow>, s: Slot<K>, before: Slot<K>) {
    s in t && before in t && before in u && t[before].balance == u[before].balance
  }

  lemma SameLatest<K(!new)>(t: map<Slot<K>, DayRow>, u: map<Slot<K>, DayRow>, s: Slot<K>, m: Day)
    requires t.Keys <= u.Keys && Latest(DaysBefore(u, s.key, s.day)) == Some(m) && Slot(s.key, m) in t
    ensures Latest(DaysBefore(t, s.key, s.day)) == Some(m)
  {
    assert m in DaysBefore(u, s.key, s.day);
    assert m in DaysBefore(t, s.key, s.day);
    var n := Latest(DaysBefore(t, s.key, s.day)).value;
    assert n in DaysBefore(t, s.key, s.day);
    assert n in DaysBefore(u, s.key, s.day);
  }

  /** The opening of one row after a run that sets the starts first. */
  lemma StartFirstAt<K(!new)>(t: map<Slot<K>, DayRow>, d: multiset<Delivery<K>>, s: Slot<K>)
    requires s in Upsert(t, d)
    ensures var u, r := Upsert(t, d), Upsert(SetStarts(t), d);
            && r.Keys == u.Keys && Lag(r, s) == Lag(u, s)
            && r[s].start == if s in t then Lag(t, s) else None
  {
    var u, r := Upsert(t, d), Upsert(SetStarts(t), d);
    assert SetStarts(t).Keys == t.Keys;
    assert SameAmounts(u, r);
    LagIgnoresStarts(u, r, s);
  }

  /** So it opens right exactly when it is its key's first row or was ready. A first row of the key is never behind. */
  lemma StartFirstRight<K(!new)>(t: map<Slot<K>, DayRow>, d: multiset<Delivery<K>>, s: Slot<K>)
    requires s in Upsert(t, d)
    ensures var u, r := Upsert(t, d), Upsert(SetStarts(t), d);
            r[s].start == Lag(r, s) <==>
            match Latest(DaysBefore(u, s.key, s.day))
            case None => true
            case Some(m) => s in t && Lag(t, s) == Some(u[Slot(s.key, m)].balance)
  {
    StartFirstAt(t, d, s);
    var u := Upsert(t, d);
    assert DaysBefore(t, s.key, s.day) <= DaysBefore(u, s.key, s.day);
  }

  lemma ReadyRowRight<K(!new)>(t: map<Slot<K>, DayRow>, d: multiset<Delivery<K>>, s: Slot<K>)
    requires Ready(t, d) && s in Upsert(t, d)
    ensures var r := Upsert(SetStarts(t), d); r[s].start == Lag(r, s)
  {
    var u := Upsert(t, d);
    StartFirstRight(t, d, s);
    if Latest(DaysBefore(u, s.key, s.day)).Some? {
      var m := Latest(DaysBefore(u, s.key, s.day)).value;
      assert ReadyAt(t, u, s, Slot(s.key, m));
      SameLatest(t, u, s, m);
    }
  }

  /** A row that opens right and has a row before it was there, and opens with that row's old balance. */
  lemma RightRowWasThere<K(!new)>(t: map<Slot<K>, DayRow>, d: multiset<Delivery<K>>, s: Slot<K>, m: Day)
    requires StartsRight(Upsert(SetStarts(t), d)) && s in Upsert(t, d)
    requires Latest(DaysBefore(Upsert(t, d), s.key, s.day)) == Some(m)
    ensures s in t && Lag(t, s) == Some(Upsert(t, d)[Slot(s.key, m)].balance)
  {
    hide Upsert, Lag;
    StartFirstAt(t, d, s);
    StartFirstRight(t, d, s);
  }

  /** With nothing before the latest row, no older one has a row before it either. */
  lemma NoneBeforeFirst<K(!new)>(t: map<Slot<K>, DayRow>, u: map<Slot<K>, DayRow>, s: Slot<K>, m: Day)
    requires t.Keys <= u.Keys && Latest(DaysBefore(u, s.key, s.day)) == Some(m)
    requires Slot(s.key, m) !in t && Latest(DaysBefore(u, s.key, m)).None?
    ensures Latest(DaysBefore(t, s.key, s.day)).None?
  {
    EarlierRows(t, u, s, m);
  }

  lemma EarlierRows<K(!new)>(t: map<Slot<K>, DayRow>, u: map<Slot<K>, DayRow>, s: Slot<K>, m: Day)
    requires t.Keys <= u.Keys && Latest(DaysBefore(u, s.key, s.day)) == Some(m) && Slot(s.key, m) !in t
    ensures DaysBefore(t, s.key, s.day) <= DaysBefore(u, s.key, m)
  {
    forall n | n in DaysBefore(t, s.key, s.day)
      ensures n in DaysBefore(u, s.key, m)
    {
      assert n in DaysBefore(u, s.key, s.day);
    }
  }

  lemma RightRowReady<K(!new)>(t: map<Slot<K>, DayRow>, d: multiset<Delivery<K>>, s: Slot<K>, m: Day)
    requires StartsRight(Upsert(SetStarts(t), d)) && s in Upsert(t, d)
    requires Latest(DaysBefore(Upsert(t, d), s.key, s.day)) == Some(m)
    ensures ReadyAt(t, Upsert(t, d), s, Slot(s.key, m))
  {
    var u, before := Upsert(t, d), Slot(s.key, m);
    assert t.Keys <= u.Keys && m in DaysBefore(u, s.key, s.day) && before in u;
    hide Upsert, StartsRight;
    RightRowWasThere(t, d, s, m);
    if before !in t {
      match Latest(DaysBefore(u, s.key, m))
      case None => NoneBeforeFirst(t, u, s, m);
      case Some(n) => RightRowWasThere(t, d, before, n);
    }
    SameLatest(t, u, s, m);
  }

  /** The order that sets the starts first is enough exactly when the table was ready. */
  lemma StartsFirstIsEnough<K(!new)>(t: map<Slot<K>, DayRow>, d: multiset<Delivery<K>>)
    ensures StartsRight(Upsert(SetStarts(t), d)) <==> Ready(t, d)
  {
    var u, r := Upsert(t, d), Upsert(SetStarts(t), d);
    assert r.Keys == u.Keys;
    if Ready(t, d) {
      forall s | s in r
        ensures r[s].start == Lag(r, s)
      {
        ReadyRowRight(t, d, s);
      }
    }
    if StartsRight(r) {
      forall s, m | s in u && Latest(DaysBefore(u, s.key, s.day)) == Some(m)
        ensures ReadyAt(t, u, s, Slot(s.key, m))
      {
        RightRowReady(t, d, s, m);
      }
    }
  }

  /** One run is enough, in whatever order, exactly when the table was ready. */
  lemma OneRunIsEnoughExactlyWhen<K(!new)>(t: map<Slot<K>, DayRow>, d: multiset<Delivery<K>>)
    ensures (forall t' :: Resynced(t, d, t') ==> StartsRight(t')) <==> Ready(t, d)
  {
    hide StartsRight, Ready, Upsert, SetStarts;
    StartsLastIsEnough(t, d);
    StartsFirstIsEnough(t, d);
    assert Resynced(t, d, Upsert(SetStarts(t), d));
  }

  /** One run is not always enough: started from an empty table, the order that sets the starts first leaves the
      second day without its opening balance. */
  lemma OneRunIsNotEnough()
    ensures exists d: multiset<Delivery<int>>, t' ::
      Resynced(map[], d, t') && !StartsRight(t')
  {
    var x, y := Delivery(0, 1, 5.0, 0.0, 5.0), Delivery(0, 2, 1.0, 0.0, 1.0);
    var d := multiset{x, y};
    var none: map<Slot<int>, DayRow> := map[];
    var t' := Upsert(SetStarts(none), d);
    var s := Slot(0, 2);
    assert x in d && y in d;
    assert Slot(0, 1) in Slots(d) && s in Slots(d);
    assert 1 in DaysBefore(t', 0, 2);
    assert t'[s].start == None && Lag(t', s).Some?;
    assert Resynced(none, d, t');
  }

  lemma RunSynced<K(!new)>(xs: seq<Delivery<K>>)
    requires forall key :: HarmlessRun(xs, key)
    ensures Synced(Table(xs), multiset(xs)) && Table(xs).Keys == Slots(multiset(xs))
  {
    var t, d := Table(xs), multiset(xs);
    RunTurnover(xs);
    forall s
      ensures s in t <==> s in Slots(d)
    {
      assert s in Slots(d) <==> HasDelivery(d, s);
    }
    forall s | s in t
      ensures t[s].balance == RunningSum(d, s)
    {
      RunBalances(xs, s.key);
    }
  }

  /** The incremental table, kept by deliveries that are all harmless, is what the batch statement computes from
      nothing, and the batch statement leaves it alone. */
  lemma IncrementalIsBatch<K(!new)>(xs: seq<Delivery<K>>)
    requires forall key :: HarmlessRun(xs, key)
    ensures Upsert(Table(xs), multiset(xs)) == Table(xs)
    ensures SameAmounts(Upsert(map[], multiset(xs)), Table(xs))
  {
    hide Table, HarmlessRun, Upsert, Synced;
    RunSynced(xs);
    UpsertSyncs(Table(xs), multiset(xs));
    UpsertSyncs(map[], multiset(xs));
    UpsertKeys(multiset(xs));
    SyncedAlike(Upsert(map[], multiset(xs)), Table(xs), multiset(xs));
  }

  lemma SyncedAlike<K(!new)>(t: map<Slot<K>, DayRow>, u: map<Slot<K>, DayRow>, d: multiset<Delivery<K>>)
    requires Synced(t, d) && Synced(u, d) && t.Keys == Slots(d) && u.Keys == Slots(d)
    ensures SameAmounts(t, u)
  {
  }

  lemma UpsertKeys<K(!new)>(d: multiset<Delivery<K>>)
    ensures Upsert(map[], d).Keys == Slots(d)
  {
  }

  /** Where turnover is right, the batch statement adds no row and rewrites debit and credit with what is there. */
  lemma BatchAgrees<K(!new)>(t: map<Slot<K>, DayRow>, d: multiset<Delivery<K>>, s: Slot<K>)
    requires TurnoverRight(t, d)
    ensures Upsert(t, d).Keys == t.Keys
    ensures s in t ==> Upsert(t, d)[s].debit == t[s].debit && Upsert(t, d)[s].credit == t[s].credit
  {
    forall r
      ensures r in Slots(d) <==> r in t
    {
      assert r in Slots(d) <==> HasDelivery(d, r);
    }
  }

  datatype Statement = LockTable | LockJournal | UpsertDaily | UpdateStart

  /** The table as the batch statements see it: SQL evaluates the groups and windows in one step each. */
  class BatchTable<K(!new)> {
    ghost var rows: map<Slot<K>, DayRow>

    /** The four statements of a resync in the arbitrary order of a map; the two locks change nothing. */
    ghost method BalanceResync(entries: multiset<Delivery<K>>)
      modifies this
      ensures Resynced(old(rows), entries, rows)
    {
      var todo := {LockTable, LockJournal, UpsertDaily, UpdateStart};
      while todo != {}
        invariant UpsertDaily in todo && UpdateStart in todo ==> rows == old(rows)
        invariant UpsertDaily in todo && UpdateStart !in todo ==> rows == SetStarts(old(rows))
        invariant UpsertDaily !in todo && UpdateStart in todo ==> rows == Upsert(old(rows), entries)
        invariant UpsertDaily !in todo && UpdateStart !in todo ==> Resynced(old(rows), entries, rows)
        decreases |todo|
      {
        var stmt :| stmt in todo;
        match stmt {
          case LockTable =>
          case LockJournal =>
          case UpsertDaily => rows := Upsert(rows, entries);
          case UpdateStart => rows := SetStarts(rows);
        }
        todo := todo - {stmt};
      }
    }
  }
}

/** The update handler over its two tables (report/daily_balance_update.go). */
module DailyIndex {
  import opened Sums
  import opened Accounts
  import opened Journal
  import opened DailyTable
  import opened AsyncIndex

  class DailyStore<K(==, !new)> {
    var rows: map<Slot<K>, DayRow>

    constructor (rows: map<Slot<K>, DayRow>)
      ensures this.rows == rows
    {
      this.rows := rows;
    }

    /** The balance of the latest row before the day: a scan in no particular order. */
    method BeforeBalance(key: K, day: Day) returns (balance: real)
      ensures balance == BalanceBefore(rows, key, day)
    {
      var todo: set<Slot<K>> := set s | s in rows && s.key == key && s.day < day;
      ghost var seen: set<Day> := {};
      var found := false;
      var latest: Day := 0;
      while todo != {}
        invariant todo <= set s | s in rows && s.key == key && s.day < day
        invariant forall s :: s in rows && s.key == key && s.day < day ==> s in todo || s.day in seen
        invariant seen <= DaysBefore(rows, key, day)
        invariant found <==> seen != {}
        invariant found ==> IsLatest(latest, seen)
      {
        var s :| s in todo;
        if !found || s.day > latest {
          latest := s.day;
        }
        found := true;
        seen := seen + {s.day};
        todo := todo - {s};
      }
      assert seen == DaysBefore(rows, key, day);
      if found {
        balance := rows[Slot(key, latest)].balance;
      } else {
        balance := 0.0;
      }
    }

    /** Add to the day's row, or insert one that starts from the balance before it; then shift every later row. */
    method UpdateDailyBalance(daily: Delivery<K>)
      modifies this
      ensures rows == Update(old(rows), daily)
    {
      var slot := Slot(daily.key, daily.day);
      var inc := daily.balance;
      if slot in rows {
        rows := rows[slot := AddTo(rows[slot], daily.debit, daily.credit, daily.balance)];
      } else {
        var before := BeforeBalance(daily.key, daily.day);
        rows := rows[slot := DayRow(daily.debit, daily.credit, daily.balance + before, Some(before))];
        inc := inc + before;
      }
      UpdateAfterIncrement(daily.key, daily.day, inc);
    }

    method UpdateAfterIncrement(key: K, day: Day, inc: real)
      modifies this
      ensures rows == Shift(old(rows), key, day, inc)
      ensures rows.Keys == old(rows).Keys
      ensures forall s :: s in rows ==>
        rows[s] == if s.key == key && s.day > day then old(rows)[s].(balance := old(rows)[s].balance + inc)
                   else old(rows)[s]
    {
      rows := map s | s in rows ::
        if s.key == key && s.day > day then rows[s].(balance := rows[s].balance + inc) else rows[s];
    }
  }

  /** The report service: the accounts it can look up, the account-key table and the account table. */
  class AccountReport {
    const chart: Chart
    const groups: DailyStore<GroupKey>
    const details: DailyStore<DetailKey>

    constructor (chart: Chart, groups: DailyStore<GroupKey>, details: DailyStore<DetailKey>)
      ensures this.chart == chart && this.groups == groups && this.details == details
    {
      this.chart, this.groups, this.details := chart, groups, details;
    }

    /** One entry of a message: both tables, or neither when the account is missing or has no side. */
    method CountEntry(entry: Row) returns (err: Option<Error>)
      modifies groups, details
      ensures err.None? <==> SideOf(chart, entry.account) != OtherBalance
      ensures details.rows == if err.None? then Update(old(details.rows), ToDetail(chart, entry)) else old(details.rows)
      ensures groups.rows == if err.None? then Update(old(groups.rows), ToGroup(chart, entry)) else old(groups.rows)
    {
      hide Update;
      if entry.account !in chart {
        return Some(AccountNotFound);
      }
      var debit, credit := entry.debit, entry.credit;
      if entry.rollback {
        debit, credit := -entry.credit, -entry.debit;
      }
      var balance;
      match chart[entry.account] {
        case DebitBalance => balance := entry.debit - entry.credit;
        case CreditBalance => balance := entry.credit - entry.debit;
        case OtherBalance => return Some(InvalidAccountType);
      }
      groups.UpdateDailyBalance(Delivery(GroupKey(entry.account.key, entry.team), entry.day, debit, credit, balance));
      details.UpdateDailyBalance(Delivery(DetailKey(entry.account, entry.team), entry.day, debit, credit, balance));
      return None;
    }

    /** Each entry of the message in turn; one that fails stops the handler with those before it counted. */
    method DailyUpdateBalance(entries: seq<Row>) returns (err: Option<Error>, counted: nat)
      modifies groups, details
      ensures counted <= |entries|
      ensures err.None? <==> counted == |entries|
      ensures counted < |entries| ==> SideOf(chart, entries[counted].account) == OtherBalance
      ensures details.rows == UpdateAll(old(details.rows), ToDetails(chart, entries[..counted]))
      ensures groups.rows == UpdateAll(old(groups.rows), ToGroups(chart, entries[..counted]))
    {
      counted := 0;
      while counted < |entries|
        invariant counted <= |entries|
        invariant details.rows == UpdateAll(old(details.rows), ToDetails(chart, entries[..counted]))
        invariant groups.rows == UpdateAll(old(groups.rows), ToGroups(chart, entries[..counted]))
      {
        err := CountEntry(entries[counted]);
        if err.Some? {
          return;
        }
        UpdateOneMore(chart, old(details.rows), old(groups.rows), entries, counted);
        counted := counted + 1;
      }
      err := None;
    }
  }

  lemma UpdateOneMore(chart: Chart, details: DetailTable, groups: GroupTable, entries: seq<Row>, i: nat)
    requires i < |entries|
    ensures UpdateAll(details, ToDetails(chart, entries[..i + 1])) ==
      Update(UpdateAll(details, ToDetails(chart, entries[..i])), ToDetail(chart, entries[i]))
    ensures UpdateAll(groups, ToGroups(chart, entries[..i + 1])) ==
      Update(UpdateAll(groups, ToGroups(chart, entries[..i])), ToGroup(chart, entries[i]))
  {
    var more := entries[..i + 1];
    assert ToDetails(chart, more)[..i] == ToDetails(chart, entries[..i]);
    assert ToGroups(chart, more)[..i] == ToGroups(chart, entries[..i]);
  }

  ghost function ToDetails(chart: Chart, rs: seq<Row>): seq<Delivery<DetailKey>> {
    seq(|rs|, i requires 0 <= i < |rs| => ToDetail(chart, rs[i]))
  }

  ghost function ToGroups(chart: Chart, rs: seq<Row>): seq<Delivery<GroupKey>> {
    seq(|rs|, i requires 0 <= i < |rs| => ToGroup(chart, rs[i]))
  }

  /** Over every run of entries that is harmless on both tables, the key's balance as of any day is the sum of its
      accounts' latest balances. */
  lemma RunAggregates(chart: Chart, rs: seq<Row>, k: GroupKey, day: Day)
    requires HarmlessRun(ToGroups(chart, rs), k)
    requires forall a: AccountRef :: a.key == k.key ==> HarmlessRun(ToDetails(chart, rs), DetailKey(a, k.team))
    ensures var detail, group := Table(ToDetails(chart, rs)), Table(ToGroups(chart, rs));
            BalanceBefore(group, k, day) == Sum(multiset(AccountsWith(detail, k)), DetailBalance(detail, k.team, day))
  {
    hide HarmlessRun, Table, TurnoverRight, BalancesRight;
    ImageOfSeq(rs, ToDetails(chart, rs), DetailOf(chart));
    ImageOfSeq(rs, ToGroups(chart, rs), GroupOf(chart));
    RunTurnover(ToDetails(chart, rs));
    RunTurnover(ToGroups(chart, rs));
    RunBalances(ToGroups(chart, rs), k);
    forall a: AccountRef | a.key == k.key
      ensures BalancesRight(Table(ToDetails(chart, rs)), Details(chart, multiset(rs)), DetailKey(a, k.team))
    {
      RunBalances(ToDetails(chart, rs), DetailKey(a, k.team));
    }
    AggregateBalance(chart, multiset(rs), Table(ToDetails(chart, rs)), Table(ToGroups(chart, rs)), k, day);
  }
}

/** The balance report over the account-key table that journal rows, reversing ones included, have been counted into. */
module RowReport {
  import opened Accounts
  import opened Journal
  import opened DailyTable
  import opened AsyncIndex
  import opened DailyIndex
  import opened Report

  /** The rows of the key come in nondecreasing day order, on accounts that exist. */
  ghost predicate RowsInDayOrder(chart: Chart, rs: seq<Row>, k: GroupKey) {
    && (forall i, j :: 0 <= i < j < |rs| && KeyOf(rs[i]) == k && KeyOf(rs[j]) == k ==> rs[i].day <= rs[j].day)
    && (forall i :: 0 <= i < |rs| && KeyOf(rs[i]) == k ==> rs[i].account in chart)
  }

  function KeyOf(r: Row): GroupKey { GroupKey(r.account.key, r.team) }

  /** Counted by the rollback sign rule, every row moves the balance by its own turnover in the key's seeded sign. */
  lemma RowsAreInDayOrder(chart: Chart, rs: seq<Row>, k: GroupKey)
    requires Seeded(chart) && RowsInDayOrder(chart, rs, k)
    ensures InDayOrder(ToGroups(chart, rs), k, SeedSide(k.key))
  {
    var xs := ToGroups(chart, rs);
    forall i | 0 <= i < |xs| && xs[i].key == k
      ensures xs[i].balance == Natural(SeedSide(k.key), xs[i].debit, xs[i].credit)
    {
      assert KeyOf(rs[i]) == k;
      AdjustmentKeepsBalance(chart, rs[i]);
    }
    forall i, j | 0 <= i < j < |xs| && xs[i].key == k && xs[j].key == k
      ensures xs[i].day <= xs[j].day
    {
      assert KeyOf(rs[i]) == k && KeyOf(rs[j]) == k;
    }
  }

  /** Opening plus turnover is closing for journal rows: on the account-key table of any rows of the key in day order,
      rollback rows included, the report's closing less its opening balance is the net turnover it shows. */
  lemma ReportOfRows(chart: Chart, rs: seq<Row>, k: GroupKey, lo: Day, hi: Day, opening: Slot<GroupKey>,
                     closing: Slot<GroupKey>)
    requires Seeded(chart) && RowsInDayOrder(chart, rs, k)
    requires var t := Table(ToGroups(chart, rs)); OpeningRow(t, k, lo, hi, opening) && ClosingRow(t, k, lo, hi, closing)
    ensures var t := Table(ToGroups(chart, rs));
            && t[opening].start.Some?
            && t[closing].balance - t[opening].start.value ==
               Natural(SeedSide(k.key), TurnoverDebit(t, k, lo, hi), TurnoverCredit(t, k, lo, hi))
  {
    RowsAreInDayOrder(chart, rs, k);
    ReportOfOrderedRun(ToGroups(chart, rs), k, SeedSide(k.key), lo, hi, opening, closing);
  }

  /** And every row of the table, not only the report's, opens where the row before it closed. */
  lemma RowsChain(chart: Chart, rs: seq<Row>, k: GroupKey)
    requires Seeded(chart) && RowsInDayOrder(chart, rs, k)
    ensures Chained(Table(ToGroups(chart, rs)), k, SeedSide(k.key))
  {
    RowsAreInDayOrder(chart, rs, k);
    RunKeepsChain(ToGroups(chart, rs), k, SeedSide(k.key));
  }
}

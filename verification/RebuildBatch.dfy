/** When the table a rebuild leaves is the one that the batch statements compute (setup/recalculate_daily.go,
    accounting_core/daily_balance.go, report/report_balance/account_daily_sync.go). */
module RebuildBatch {
  import opened Sums
  import opened Accounts
  import opened Journal
  import opened DailyTable
  import opened AsyncIndex
  import opened Resync
  import opened Recalculate

  predicate OnSlot(r: Row, s: Slot<DetailKey>) {
    r.account == s.key.account && r.team == s.key.team && r.day == s.day
  }

  /** Both sides of the reversing rows of a slot: a rebuild counts them as they stand, the batch takes them off the
      other side. */
  ghost function Undone(s: Slot<DetailKey>): Row -> real {
    (r: Row) => if OnSlot(r, s) && r.rollback then r.debit + r.credit else 0.0
  }

  ghost function Plains(chart: Chart, j: multiset<Row>): multiset<Delivery<DetailKey>> { Image(j, PlainOf(chart)) }

  ghost function Plain(chart: Chart, f: Delivery<DetailKey> -> real): Row -> real {
    (r: Row) => f(ToPlain(chart, r))
  }

  ghost function Adjusted(chart: Chart, f: Delivery<DetailKey> -> real): Row -> real {
    (r: Row) => f(ToDetail(chart, r))
  }

  lemma PlainSum(chart: Chart, j: multiset<Row>, f: Delivery<DetailKey> -> real)
    ensures Sum(Plains(chart, j), f) == Sum(j, Plain(chart, f))
  {
    hide ToPlain;
    SumImage(j, PlainOf(chart), f, Plain(chart, f));
  }

  lemma AdjustedSum(chart: Chart, j: multiset<Row>, f: Delivery<DetailKey> -> real)
    ensures Sum(Details(chart, j), f) == Sum(j, Adjusted(chart, f))
  {
    hide ToDetail;
    SumImage(j, DetailOf(chart), f, Adjusted(chart, f));
  }

  lemma RowDiffers(chart: Chart, s: Slot<DetailKey>, r: Row)
    ensures Plain(chart, DebitAt(s))(r) == Adjusted(chart, DebitAt(s))(r) + Undone(s)(r)
    ensures Plain(chart, CreditAt(s))(r) == Adjusted(chart, CreditAt(s))(r) + Undone(s)(r)
  {
    var x, y := ToPlain(chart, r), ToDetail(chart, r);
    assert s.key == DetailKey(s.key.account, s.key.team);
    assert Plain(chart, DebitAt(s))(r) == DebitAt(s)(x) && Adjusted(chart, DebitAt(s))(r) == DebitAt(s)(y);
    assert Plain(chart, CreditAt(s))(r) == CreditAt(s)(x) && Adjusted(chart, CreditAt(s))(r) == CreditAt(s)(y);
  }

  /** The rebuilt debit exceeds the batch's by what the reversing rows carry, and so does the credit. */
  lemma TurnoverDiffers(chart: Chart, j: multiset<Row>, s: Slot<DetailKey>)
    ensures Sum(Plains(chart, j), DebitAt(s)) == Sum(Details(chart, j), DebitAt(s)) + Sum(j, Undone(s))
    ensures Sum(Plains(chart, j), CreditAt(s)) == Sum(Details(chart, j), CreditAt(s)) + Sum(j, Undone(s))
  {
    PlainSum(chart, j, DebitAt(s));
    AdjustedSum(chart, j, DebitAt(s));
    PlainSum(chart, j, CreditAt(s));
    AdjustedSum(chart, j, CreditAt(s));
    hide Plain, Adjusted, Undone, Plains, Details, DebitAt, CreditAt;
    forall r { RowDiffers(chart, s, r); }
    SumPlus(j, Adjusted(chart, DebitAt(s)), Undone(s), Plain(chart, DebitAt(s)));
    SumPlus(j, Adjusted(chart, CreditAt(s)), Undone(s), Plain(chart, CreditAt(s)));
  }

  /** What the batch brings forward into a slot: everything on its key before its day. */
  ghost function BroughtForward(chart: Chart, j: multiset<Row>, s: Slot<DetailKey>): real {
    Sum(Details(chart, j), AmountBefore(s.key, s.day))
  }

  lemma RowBalanceSplits(chart: Chart, s: Slot<DetailKey>, r: Row)
    ensures Adjusted(chart, AmountBefore(s.key, s.day + 1))(r) ==
      Plain(chart, DayBalanceAt(s))(r) + Adjusted(chart, AmountBefore(s.key, s.day))(r)
  {
    hide RowBalance;
    var x, y := ToPlain(chart, r), ToDetail(chart, r);
    assert Plain(chart, DayBalanceAt(s))(r) == DayBalanceAt(s)(x);
    assert Adjusted(chart, AmountBefore(s.key, s.day))(r) == AmountBefore(s.key, s.day)(y);
    assert Adjusted(chart, AmountBefore(s.key, s.day + 1))(r) == AmountBefore(s.key, s.day + 1)(y);
  }

  /** The rebuilt balance is the day's alone, the batch's is the running one. */
  lemma BalanceDiffers(chart: Chart, j: multiset<Row>, s: Slot<DetailKey>)
    ensures RunningSum(Details(chart, j), s) == Sum(Plains(chart, j), DayBalanceAt(s)) + BroughtForward(chart, j, s)
  {
    var through, before := AmountBefore(s.key, s.day + 1), AmountBefore(s.key, s.day);
    hide Plain, Adjusted, Plains, Details, AmountBefore, DayBalanceAt;
    PlainSum(chart, j, DayBalanceAt(s));
    AdjustedSum(chart, j, before);
    AdjustedSum(chart, j, through);
    forall r { RowBalanceSplits(chart, s, r); }
    SumPlus(j, Plain(chart, DayBalanceAt(s)), Adjusted(chart, before), Adjusted(chart, through));
  }

  lemma SameSlots(chart: Chart, j: multiset<Row>, s: Slot<DetailKey>)
    ensures s in Slots(Details(chart, j)) <==> exists r :: r in j && OnSlot(r, s)
    ensures s in DeliveredSlots(Plains(chart, j)) <==> exists r :: r in j && OnSlot(r, s)
  {
    if s in Slots(Details(chart, j)) {
      var x :| x in Details(chart, j) && s == Slot(x.key, x.day);
      ImageMember(j, DetailOf(chart), x);
      var r :| r in j && DetailOf(chart)(r) == x;
      assert OnSlot(r, s);
    }
    if s in DeliveredSlots(Plains(chart, j)) {
      var x :| x in Plains(chart, j) && s == Slot(x.key, x.day);
      ImageMember(j, PlainOf(chart), x);
      var r :| r in j && PlainOf(chart)(r) == x;
      assert OnSlot(r, s);
    }
    if r :| r in j && OnSlot(r, s) {
      ImageMember(j, DetailOf(chart), DetailOf(chart)(r));
      ImageMember(j, PlainOf(chart), PlainOf(chart)(r));
      assert DetailOf(chart)(r) in Details(chart, j) && PlainOf(chart)(r) in Plains(chart, j);
    }
  }

  /** The row is what the batch writes. */
  ghost predicate RowRight(r: DayRow, d: multiset<Delivery<DetailKey>>, s: Slot<DetailKey>) {
    r.debit == Sum(d, DebitAt(s)) && r.credit == Sum(d, CreditAt(s)) && r.balance == RunningSum(d, s)
  }

  /** A slot of the journal is rebuilt right exactly when its reversing rows carry nothing and nothing is brought
      forward into it. */
  lemma RebuiltRow(t: DetailTable, chart: Chart, j: multiset<Row>, s: Slot<DetailKey>)
    requires s in Slots(Details(chart, j))
    ensures var u, d := Rebuilt(t, Plains(chart, j)), Details(chart, j);
            && s in u
            && (RowRight(u[s], d, s) <==> Sum(j, Undone(s)) == 0.0 && BroughtForward(chart, j, s) == 0.0)
  {
    hide Rebuilt, Plains, Details, BroughtForward, RunningSum, Touched, Slots, DeliveredSlots;
    SameSlots(chart, j, s);
    RebuiltTouches(t, Plains(chart, j), s);
    RebuildIgnoresOldAmounts(t, t, Plains(chart, j), s);
    TurnoverDiffers(chart, j, s);
    BalanceDiffers(chart, j, s);
  }

  ghost predicate Rebuildable(chart: Chart, j: multiset<Row>) {
    forall s :: s in Slots(Details(chart, j)) ==> Sum(j, Undone(s)) == 0.0 && BroughtForward(chart, j, s) == 0.0
  }

  /** A rebuild from the whole journal leaves what the batch computes exactly when, at every slot of the journal, the
      reversing rows carry nothing and nothing is brought forward from earlier days. */
  lemma RebuildIsBatchExactlyWhen(t: DetailTable, chart: Chart, j: multiset<Row>)
    ensures Synced(Rebuilt(t, Plains(chart, j)), Details(chart, j)) <==> Rebuildable(chart, j)
  {
    hide Rebuilt, Plains, Details, BroughtForward, RunningSum;
    forall s | s in Slots(Details(chart, j)) { RebuiltRow(t, chart, j, s); }
  }
}

/** Opening balance, turnover and closing balance over a range of days (report/balance.go), on a table that
    was delivered to in day order. */
module Report {
  import opened Sums
  import opened Accounts
  import opened Journal
  import opened DailyTable

  /** Rows of a key link up: each opens with the balance before it and moves it by its own turnover. */
  ghost predicate Chained<K(!new)>(t: map<Slot<K>, DayRow>, key: K, side: BalanceType) {
    forall s :: s in t && s.key == key ==>
      && t[s].start == Some(BalanceBefore(t, key, s.day))
      && t[s].balance == BalanceBefore(t, key, s.day) + Natural(side, t[s].debit, t[s].credit)
  }

  lemma EarlierUntouched<K(!new)>(t: map<Slot<K>, DayRow>, x: Delivery<K>, key: K, day: Day)
    requires key != x.key || day <= x.day
    ensures BalanceBefore(Update(t, x), key, day) == BalanceBefore(t, key, day)
  {
    var t' := Update(t, x);
    forall s: Slot<K> | s.key == key && s.day < day
      ensures s in t' <==> s in t
      ensures s in t ==> t'[s] == t[s]
    {
    }
    assert DaysBefore(t', key, day) == DaysBefore(t, key, day);
  }

  lemma UpdateKeepsChain<K(!new)>(t: map<Slot<K>, DayRow>, x: Delivery<K>, key: K, side: BalanceType)
    requires Chained(t, key, side)
    requires key == x.key ==> !HasLater(t, key, x.day) && x.balance == Natural(side, x.debit, x.credit)
    ensures Chained(Update(t, x), key, side)
  {
    var t' := Update(t, x);
    forall s | s in t' && s.key == key
      ensures t'[s].start == Some(BalanceBefore(t', key, s.day))
      ensures t'[s].balance == BalanceBefore(t', key, s.day) + Natural(side, t'[s].debit, t'[s].credit)
    {
      assert s in t || s == Slot(x.key, x.day);
      assert s.day <= x.day || key != x.key;
      EarlierUntouched(t, x, key, s.day);
    }
  }

  /** The key's amounts arrive in nondecreasing day order, each in the key's own sign. */
  ghost predicate InDayOrder<K(!new)>(xs: seq<Delivery<K>>, key: K, side: BalanceType) {
    && (forall i, j :: 0 <= i < j < |xs| && xs[i].key == key && xs[j].key == key ==> xs[i].day <= xs[j].day)
    && (forall i :: 0 <= i < |xs| && xs[i].key == key ==> xs[i].balance == Natural(side, xs[i].debit, xs[i].credit))
  }

  lemma NoneLater<K(!new)>(xs: seq<Delivery<K>>, n: nat, side: BalanceType)
    requires n < |xs| && InDayOrder(xs, xs[n].key, side)
    ensures !HasLater(Table(xs[..n]), xs[n].key, xs[n].day)
  {
    RunTurnover(xs[..n]);
    forall s | s in Table(xs[..n]) && s.key == xs[n].key
      ensures s.day <= xs[n].day
    {
      assert HasDelivery(multiset(xs[..n]), s);
      var y: Delivery<K> :| y in xs[..n] && y.key == s.key && y.day == s.day;
    }
  }

  lemma {:induction false} RunKeepsChain<K(!new)>(xs: seq<Delivery<K>>, key: K, side: BalanceType)
    requires InDayOrder(xs, key, side)
    ensures Chained(Table(xs), key, side)
    decreases |xs|
  {
    if xs != [] {
      var n := |xs| - 1;
      RunKeepsChain(xs[..n], key, side);
      if xs[n].key == key { NoneLater(xs, n, side); }
      UpdateKeepsChain(Table(xs[..n]), xs[n], key, side);
    }
  }

  // ---- the report queries --------------------------------------------------------------

  /** The rows of the turnover and closing queries: after the start, up to the end. */
  ghost function InRange<K(!new)>(t: map<Slot<K>, DayRow>, key: K, lo: Day, hi: Day): set<Slot<K>> {
    set s | s in t && s.key == key && lo < s.day <= hi
  }

  ghost function DebitColumn<K>(t: map<Slot<K>, DayRow>): Slot<K> -> real {
    (s: Slot<K>) => if s in t then t[s].debit else 0.0
  }

  ghost function CreditColumn<K>(t: map<Slot<K>, DayRow>): Slot<K> -> real {
    (s: Slot<K>) => if s in t then t[s].credit else 0.0
  }

  ghost function TurnoverDebit<K(!new)>(t: map<Slot<K>, DayRow>, key: K, lo: Day, hi: Day): real {
    Sum(multiset(InRange(t, key, lo, hi)), DebitColumn(t))
  }

  ghost function TurnoverCredit<K(!new)>(t: map<Slot<K>, DayRow>, key: K, lo: Day, hi: Day): real {
    Sum(multiset(InRange(t, key, lo, hi)), CreditColumn(t))
  }

  /** `distinct on (account_key) balance ... order by day desc`, days after lo and up to hi. */
  ghost predicate ClosingRow<K(!new)>(t: map<Slot<K>, DayRow>, key: K, lo: Day, hi: Day, s: Slot<K>) {
    s in InRange(t, key, lo, hi) && forall r :: r in InRange(t, key, lo, hi) ==> r.day <= s.day
  }

  /** `distinct on (account_key) start_balance ... order by day asc`, days strictly inside the bounds. */
  ghost predicate OpeningRow<K(!new)>(t: map<Slot<K>, DayRow>, key: K, lo: Day, hi: Day, s: Slot<K>) {
    s in InRange(t, key, lo, hi - 1) && forall r :: r in InRange(t, key, lo, hi - 1) ==> s.day <= r.day
  }

  lemma NextDay<K(!new)>(t: map<Slot<K>, DayRow>, key: K, day: Day)
    ensures BalanceBefore(t, key, day + 1) ==
      if Slot(key, day) in t then t[Slot(key, day)].balance else BalanceBefore(t, key, day)
  {
    if Slot(key, day) in t {
      assert day in DaysBefore(t, key, day + 1);
    } else {
      assert DaysBefore(t, key, day + 1) == DaysBefore(t, key, day);
    }
  }

  /** Over any range the balance moves by exactly the net turnover of the rows in it. */
  lemma {:induction false} TurnoverTelescopes<K(!new)>(t: map<Slot<K>, DayRow>, key: K, side: BalanceType,
                                                       lo: Day, hi: Day)
    requires Chained(t, key, side) && lo <= hi
    ensures BalanceBefore(t, key, hi + 1) - BalanceBefore(t, key, lo + 1) ==
      Natural(side, TurnoverDebit(t, key, lo, hi), TurnoverCredit(t, key, lo, hi))
    decreases hi - lo
  {
    if lo == hi {
      assert InRange(t, key, lo, hi) == {};
    } else {
      var s := Slot(key, hi);
      TurnoverTelescopes(t, key, side, lo, hi - 1);
      NextDay(t, key, hi);
      if s in t {
        assert InRange(t, key, lo, hi) == InRange(t, key, lo, hi - 1) + {s};
        assert multiset(InRange(t, key, lo, hi)) == multiset(InRange(t, key, lo, hi - 1)) + multiset{s};
        SumAdd(multiset(InRange(t, key, lo, hi - 1)), s, DebitColumn(t));
        SumAdd(multiset(InRange(t, key, lo, hi - 1)), s, CreditColumn(t));
      } else {
        assert InRange(t, key, lo, hi) == InRange(t, key, lo, hi - 1);
      }
    }
  }

  lemma {:induction false} QuietDays<K(!new)>(t: map<Slot<K>, DayRow>, key: K, a: Day, b: Day)
    requires a <= b && forall s :: s in t && s.key == key ==> !(a <= s.day < b)
    ensures BalanceBefore(t, key, b) == BalanceBefore(t, key, a)
  {
    assert DaysBefore(t, key, b) == DaysBefore(t, key, a);
  }

  lemma {:induction false} OpeningExists<K(!new)>(t: map<Slot<K>, DayRow>, key: K, lo: Day, hi: Day, s: Slot<K>)
    requires s in InRange(t, key, lo, hi - 1)
    ensures exists o :: OpeningRow(t, key, lo, hi, o)
    decreases s.day - lo
  {
    if r :| r in InRange(t, key, lo, hi - 1) && r.day < s.day {
      OpeningExists(t, key, lo, hi, r);
    } else {
      assert OpeningRow(t, key, lo, hi, s);
    }
  }

  lemma {:induction false} ClosingExists<K(!new)>(t: map<Slot<K>, DayRow>, key: K, lo: Day, hi: Day, s: Slot<K>)
    requires s in InRange(t, key, lo, hi)
    ensures exists c :: ClosingRow(t, key, lo, hi, c)
    decreases hi - s.day
  {
    if r :| r in InRange(t, key, lo, hi) && r.day > s.day {
      ClosingExists(t, key, lo, hi, r);
    } else {
      assert ClosingRow(t, key, lo, hi, s);
    }
  }

  /** The report shows both an opening and a closing balance exactly when a row lies in the range before its last
      day. */
  lemma ReportIsComplete<K(!new)>(t: map<Slot<K>, DayRow>, key: K, lo: Day, hi: Day)
    ensures (exists o, c :: OpeningRow(t, key, lo, hi, o) && ClosingRow(t, key, lo, hi, c)) <==>
            InRange(t, key, lo, hi - 1) != {}
  {
    if InRange(t, key, lo, hi - 1) != {} {
      var s :| s in InRange(t, key, lo, hi - 1);
      OpeningExists(t, key, lo, hi, s);
      ClosingExists(t, key, lo, hi, s);
    }
  }

  lemma NothingBeforeOpening<K(!new)>(t: map<Slot<K>, DayRow>, key: K, lo: Day, hi: Day, opening: Slot<K>)
    requires OpeningRow(t, key, lo, hi, opening)
    ensures forall s :: s in t && s.key == key ==> !(lo + 1 <= s.day < opening.day)
  {
    forall s | s in t && s.key == key
      ensures !(lo + 1 <= s.day < opening.day)
    {
      assert lo < s.day < opening.day ==> s in InRange(t, key, lo, hi - 1);
    }
  }

  lemma OpeningIsBalance<K(!new)>(t: map<Slot<K>, DayRow>, key: K, side: BalanceType, lo: Day, hi: Day,
                                  opening: Slot<K>)
    requires Chained(t, key, side) && OpeningRow(t, key, lo, hi, opening)
    ensures t[opening].start == Some(BalanceBefore(t, key, lo + 1))
  {
    NothingBeforeOpening(t, key, lo, hi, opening);
    QuietDays(t, key, lo + 1, opening.day);
    assert opening in t && opening.key == key;
  }

  lemma ClosingIsBalance<K(!new)>(t: map<Slot<K>, DayRow>, key: K, lo: Day, hi: Day, closing: Slot<K>)
    requires ClosingRow(t, key, lo, hi, closing)
    ensures t[closing].balance == BalanceBefore(t, key, hi + 1)
  {
    forall s | s in t && s.key == key
      ensures !(closing.day + 1 <= s.day < hi + 1)
    {
      assert closing.day < s.day <= hi ==> s in InRange(t, key, lo, hi);
    }
    QuietDays(t, key, closing.day + 1, hi + 1);
    assert closing == Slot(key, closing.day);
    NextDay(t, key, closing.day);
  }

  /** Opening plus turnover equals closing, on any table whose rows link up. */
  lemma OpeningPlusTurnoverIsClosing<K(!new)>(t: map<Slot<K>, DayRow>, key: K, side: BalanceType, lo: Day, hi: Day,
                                              opening: Slot<K>, closing: Slot<K>)
    requires Chained(t, key, side)
    requires OpeningRow(t, key, lo, hi, opening) && ClosingRow(t, key, lo, hi, closing)
    ensures t[opening].start.Some?
    ensures t[closing].balance - t[opening].start.value ==
      Natural(side, TurnoverDebit(t, key, lo, hi), TurnoverCredit(t, key, lo, hi))
  {
    OpeningIsBalance(t, key, side, lo, hi, opening);
    ClosingIsBalance(t, key, lo, hi, closing);
    TurnoverTelescopes(t, key, side, lo, hi);
  }

  /** The report of a run delivered in day order: opening plus net turnover is closing, and the report has an
      opening whenever some row of the range lies before its last day. */
  lemma ReportOfOrderedRun<K(!new)>(xs: seq<Delivery<K>>, key: K, side: BalanceType, lo: Day, hi: Day,
                                    opening: Slot<K>, closing: Slot<K>)
    requires InDayOrder(xs, key, side)
    ensures var t := Table(xs);
            OpeningRow(t, key, lo, hi, opening) && ClosingRow(t, key, lo, hi, closing) ==>
              && t[opening].start.Some?
              && t[closing].balance - t[opening].start.value ==
                 Natural(side, TurnoverDebit(t, key, lo, hi), TurnoverCredit(t, key, lo, hi))
  {
    RunKeepsChain(xs, key, side);
    if OpeningRow(Table(xs), key, lo, hi, opening) && ClosingRow(Table(xs), key, lo, hi, closing) {
      OpeningPlusTurnoverIsClosing(Table(xs), key, side, lo, hi, opening, closing);
    }
  }
}

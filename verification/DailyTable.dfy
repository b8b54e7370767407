/** A daily balance table: one row per key and day, with the day's turnover, the running balance and the
    opening balance. `Update` is one message entry arriving (report/daily_balance_update.go, `updateDailyBalance`). */
module DailyTable {
  import opened Sums
  import opened Accounts
  import opened Journal

  datatype Slot<K> = Slot(key: K, day: Day)

  /** start is None where the database holds null. */
  datatype DayRow = DayRow(debit: real, credit: real, balance: real, start: Option<real>)

  /** One arriving amount. */
  datatype Delivery<K> = Delivery(key: K, day: Day, debit: real, credit: real, balance: real)

  ghost function DaysBefore<K(!new)>(t: map<Slot<K>, DayRow>, key: K, day: Day): set<Day> {
    set s | s in t && s.key == key && s.day < day :: s.day
  }

  ghost predicate IsLatest(d: Day, days: set<Day>) {
    d in days && forall x :: x in days ==> x <= d
  }

  lemma {:induction false} LatestExists(days: set<Day>, x: Day)
    requires x in days
    ensures exists d :: IsLatest(d, days)
    decreases |days|
  {
    if y :| y in days && y > x {
      var rest := days - {x};
      LatestExists(rest, y);
      var d :| IsLatest(d, rest);
      assert forall z :: z in days ==> z == x || z in rest;
      assert y in rest && IsLatest(d, days);
    } else {
      assert IsLatest(x, days);
    }
  }

  /** `order by day desc limit 1`. */
  ghost function Latest(days: set<Day>): (r: Option<Day>)
    ensures r.None? <==> days == {}
    ensures r.Some? ==> IsLatest(r.value, days)
  {
    if x :| x in days then
      LatestExists(days, x);
      var d :| IsLatest(d, days);
      Some(d)
    else None
  }

  /** The balance of the latest row before the day; 0 when there is none. */
  ghost function BalanceBefore<K(!new)>(t: map<Slot<K>, DayRow>, key: K, day: Day): real {
    match Latest(DaysBefore(t, key, day))
    case None => 0.0
    case Some(d) => t[Slot(key, d)].balance
  }

  ghost predicate HasLater<K(!new)>(t: map<Slot<K>, DayRow>, key: K, day: Day) {
    exists s :: s in t && s.key == key && s.day > day
  }

  function Shift<K(==)>(t: map<Slot<K>, DayRow>, key: K, day: Day, inc: real): map<Slot<K>, DayRow> {
    map s | s in t :: if s.key == key && s.day > day then t[s].(balance := t[s].balance + inc) else t[s]
  }

  function AddTo(r: DayRow, debit: real, credit: real, balance: real): DayRow {
    r.(debit := r.debit + debit, credit := r.credit + credit, balance := r.balance + balance)
  }

  ghost function Update<K(!new)>(t: map<Slot<K>, DayRow>, x: Delivery<K>): map<Slot<K>, DayRow> {
    var slot := Slot(x.key, x.day);
    if slot in t then
      Shift(t[slot := AddTo(t[slot], x.debit, x.credit, x.balance)], x.key, x.day, x.balance)
    else
      var before := BalanceBefore(t, x.key, x.day);
      Shift(t[slot := DayRow(x.debit, x.credit, x.balance + before, Some(before))], x.key, x.day, x.balance + before)
  }

  ghost function UpdateAll<K(!new)>(t: map<Slot<K>, DayRow>, xs: seq<Delivery<K>>): map<Slot<K>, DayRow>
    decreases |xs|
  {
    if xs == [] then t else Update(UpdateAll(t, xs[..|xs| - 1]), xs[|xs| - 1])
  }

  // ---- the simple specification: group sums and window sums ----------------------------

  ghost function DebitAt<K(!new)>(s: Slot<K>): Delivery<K> -> real {
    (x: Delivery<K>) => if x.key == s.key && x.day == s.day then x.debit else 0.0
  }

  ghost function CreditAt<K(!new)>(s: Slot<K>): Delivery<K> -> real {
    (x: Delivery<K>) => if x.key == s.key && x.day == s.day then x.credit else 0.0
  }

  ghost function AmountBefore<K(!new)>(key: K, day: Day): Delivery<K> -> real {
    (x: Delivery<K>) => if x.key == key && x.day < day then x.balance else 0.0
  }

  /** The window sum: everything on the key up to and including the day. */
  ghost function RunningSum<K(!new)>(d: multiset<Delivery<K>>, s: Slot<K>): real {
    Sum(d, AmountBefore(s.key, s.day + 1))
  }

  ghost predicate HasDelivery<K(!new)>(d: multiset<Delivery<K>>, s: Slot<K>) {
    exists x :: x in d && x.key == s.key && x.day == s.day
  }

  /** The table has exactly the rows of the group-by, with its debit and credit sums. */
  ghost predicate TurnoverRight<K(!new)>(t: map<Slot<K>, DayRow>, d: multiset<Delivery<K>>) {
    && (forall s :: s in t <==> HasDelivery(d, s))
    && (forall s :: s in t ==> t[s].debit == Sum(d, DebitAt(s)) && t[s].credit == Sum(d, CreditAt(s)))
  }

  /** On one key, the running balances are the window sums. */
  ghost predicate BalancesRight<K(!new)>(t: map<Slot<K>, DayRow>, d: multiset<Delivery<K>>, key: K) {
    forall s :: s in t && s.key == key ==> t[s].balance == RunningSum(d, s)
  }

  /** A delivery that cannot disturb the running balances: its day is there, or is the last, or follows zero. */
  ghost predicate Harmless<K(!new)>(t: map<Slot<K>, DayRow>, x: Delivery<K>) {
    Slot(x.key, x.day) in t || !HasLater(t, x.key, x.day) || BalanceBefore(t, x.key, x.day) == 0.0
  }

  lemma UpdateRows<K(!new)>(t: map<Slot<K>, DayRow>, d: multiset<Delivery<K>>, x: Delivery<K>, s: Slot<K>)
    requires s in t <==> HasDelivery(d, s)
    ensures s in Update(t, x) <==> HasDelivery(d + multiset{x}, s)
  {
    var d' := d + multiset{x};
    assert s == Slot(x.key, x.day) ==> x in d' && HasDelivery(d', s);
    if HasDelivery(d, s) {
      var y :| y in d && y.key == s.key && y.day == s.day;
      assert y in d';
    }
  }

  lemma UpdateTurnover<K(!new)>(t: map<Slot<K>, DayRow>, d: multiset<Delivery<K>>, x: Delivery<K>)
    requires TurnoverRight(t, d)
    ensures TurnoverRight(Update(t, x), d + multiset{x})
  {
    forall s { UpdateRows(t, d, x, s); }
    forall s | s in Update(t, x)
      ensures Update(t, x)[s].debit == Sum(d + multiset{x}, DebitAt(s))
      ensures Update(t, x)[s].credit == Sum(d + multiset{x}, CreditAt(s))
    {
      UpdateTurnoverAt(t, d, x, s);
    }
  }

  lemma UpdateTurnoverAt<K(!new)>(t: map<Slot<K>, DayRow>, d: multiset<Delivery<K>>, x: Delivery<K>, s: Slot<K>)
    requires TurnoverRight(t, d) && s in Update(t, x)
    ensures Update(t, x)[s].debit == Sum(d + multiset{x}, DebitAt(s))
    ensures Update(t, x)[s].credit == Sum(d + multiset{x}, CreditAt(s))
  {
    SumAdd(d, x, DebitAt(s));
    SumAdd(d, x, CreditAt(s));
    if s !in t {
      SumZero(d, DebitAt(s));
      SumZero(d, CreditAt(s));
    }
  }

  lemma DeliveredDayBefore<K(!new)>(t: map<Slot<K>, DayRow>, d: multiset<Delivery<K>>, x: Delivery<K>, day: Day)
    requires TurnoverRight(t, d) && x in d && x.day < day
    ensures x.day in DaysBefore(t, x.key, day)
  {
    assert HasDelivery(d, Slot(x.key, x.day));
    assert Slot(x.key, x.day) in t;
  }

  /** Where the balances are right, the latest earlier balance is the sum of everything earlier. */
  lemma BalanceBeforeIsSum<K(!new)>(t: map<Slot<K>, DayRow>, d: multiset<Delivery<K>>, key: K, day: Day)
    requires TurnoverRight(t, d) && BalancesRight(t, d, key)
    ensures BalanceBefore(t, key, day) == Sum(d, AmountBefore(key, day))
  {
    match Latest(DaysBefore(t, key, day))
    case None => NothingBefore(t, d, key, day);
    case Some(m) =>
      UpToLatest(t, d, key, day, m);
      assert t[Slot(key, m)].balance == RunningSum(d, Slot(key, m));
  }

  lemma NothingBefore<K(!new)>(t: map<Slot<K>, DayRow>, d: multiset<Delivery<K>>, key: K, day: Day)
    requires TurnoverRight(t, d) && Latest(DaysBefore(t, key, day)).None?
    ensures Sum(d, AmountBefore(key, day)) == 0.0
  {
    forall x | x in d
      ensures AmountBefore(key, day)(x) == 0.0
    {
      if x.key == key && x.day < day { DeliveredDayBefore(t, d, x, day); }
    }
    SumZero(d, AmountBefore(key, day));
  }

  lemma UpToLatest<K(!new)>(t: map<Slot<K>, DayRow>, d: multiset<Delivery<K>>, key: K, day: Day, m: Day)
    requires TurnoverRight(t, d) && Latest(DaysBefore(t, key, day)) == Some(m)
    ensures Sum(d, AmountBefore(key, m + 1)) == Sum(d, AmountBefore(key, day))
  {
    forall x | x in d
      ensures AmountBefore(key, m + 1)(x) == AmountBefore(key, day)(x)
    {
      if x.key == key && x.day < day { DeliveredDayBefore(t, d, x, day); }
    }
    SumSame(d, AmountBefore(key, m + 1), AmountBefore(key, day));
  }

  /** The first row of a day: nothing was delivered on it, so the sum through it is the sum before it. */
  lemma NothingOnTheDay<K(!new)>(t: map<Slot<K>, DayRow>, d: multiset<Delivery<K>>, key: K, day: Day)
    requires TurnoverRight(t, d) && BalancesRight(t, d, key) && Slot(key, day) !in t
    ensures RunningSum(d, Slot(key, day)) == BalanceBefore(t, key, day)
  {
    BalanceBeforeIsSum(t, d, key, day);
    forall y | y in d
      ensures AmountBefore(key, day)(y) == AmountBefore(key, day + 1)(y)
    {
      assert y.key == key && y.day == day ==> HasDelivery(d, Slot(key, day));
    }
    SumSame(d, AmountBefore(key, day), AmountBefore(key, day + 1));
  }

  lemma UpdatedBalance<K(!new)>(t: map<Slot<K>, DayRow>, x: Delivery<K>, s: Slot<K>)
    requires s in Update(t, x) && s.key == x.key
    ensures s in t || s == Slot(x.key, x.day)
    ensures Update(t, x)[s].balance ==
      (if s in t then t[s].balance else BalanceBefore(t, x.key, x.day))
      + (if x.day <= s.day then x.balance else 0.0)
      + (if Slot(x.key, x.day) !in t && s.day > x.day then BalanceBefore(t, x.key, x.day) else 0.0)
  {
  }

  /** What one delivery does to every running balance of its key, exactly: right up to its day, and too high by
      the latest earlier balance on every later row when it opened a new day. */
  lemma UpdateBalanceExact<K(!new)>(t: map<Slot<K>, DayRow>, d: multiset<Delivery<K>>, x: Delivery<K>, s: Slot<K>)
    requires TurnoverRight(t, d) && BalancesRight(t, d, x.key)
    requires s in Update(t, x) && s.key == x.key
    ensures Update(t, x)[s].balance == RunningSum(d + multiset{x}, s)
      + if Slot(x.key, x.day) !in t && s.day > x.day then BalanceBefore(t, x.key, x.day) else 0.0
  {
    hide Update, BalanceBefore, TurnoverRight;
    UpdatedBalance(t, x, s);
    SumAdd(d, x, AmountBefore(s.key, s.day + 1));
    if s !in t {
      NothingOnTheDay(t, d, x.key, x.day);
    }
  }

  /** One call keeps the running-balance invariant of its key exactly when the delivery is harmless. */
  lemma OneStepCondition<K(!new)>(t: map<Slot<K>, DayRow>, d: multiset<Delivery<K>>, x: Delivery<K>)
    requires TurnoverRight(t, d) && BalancesRight(t, d, x.key)
    ensures BalancesRight(Update(t, x), d + multiset{x}, x.key) <==> Harmless(t, x)
  {
    var t', d' := Update(t, x), d + multiset{x};
    forall s | s in t' && s.key == x.key
      ensures t'[s].balance == RunningSum(d', s)
        + if Slot(x.key, x.day) !in t && s.day > x.day then BalanceBefore(t, x.key, x.day) else 0.0
    {
      UpdateBalanceExact(t, d, x, s);
    }
    if !Harmless(t, x) {
      var s :| s in t && s.key == x.key && s.day > x.day;
      assert s in t' && t'[s].balance != RunningSum(d', s);
    }
  }

  /** A delivery leaves every other key alone. */
  lemma OtherKeysUntouched<K(!new)>(t: map<Slot<K>, DayRow>, d: multiset<Delivery<K>>, x: Delivery<K>, key: K)
    requires key != x.key && BalancesRight(t, d, key)
    ensures BalancesRight(Update(t, x), d + multiset{x}, key)
  {
    forall s | s in Update(t, x) && s.key == key
      ensures Update(t, x)[s].balance == RunningSum(d + multiset{x}, s)
    {
      SumAdd(d, x, AmountBefore(s.key, s.day + 1));
    }
  }

  // ---- openings ------------------------------------------------------------------------

  /** What a delivery leaves alone: every row keeps its opening, a later row of the key keeps all but its balance, and
      earlier rows and other keys stay as they are. A new row opens with the balance before its day. */
  lemma UpdateKeepsOpenings<K(!new)>(t: map<Slot<K>, DayRow>, x: Delivery<K>, s: Slot<K>)
    ensures s in Update(t, x) <==> s in t || s == Slot(x.key, x.day)
    ensures s in t ==>
      && Update(t, x)[s].start == t[s].start
      && (s.key == x.key && s.day > x.day ==> Update(t, x)[s] == t[s].(balance := Update(t, x)[s].balance))
      && (s.key != x.key || s.day < x.day ==> Update(t, x)[s] == t[s])
    ensures s !in t && s == Slot(x.key, x.day) ==> Update(t, x)[s].start == Some(BalanceBefore(t, x.key, x.day))
  {
  }

  lemma {:induction false} RunKeepsOpening<K(!new)>(t: map<Slot<K>, DayRow>, xs: seq<Delivery<K>>, s: Slot<K>)
    requires s in t
    ensures s in UpdateAll(t, xs) && UpdateAll(t, xs)[s].start == t[s].start
    decreases |xs|
  {
    hide Update;
    if xs != [] {
      RunKeepsOpening(t, xs[..|xs| - 1], s);
      UpdateKeepsOpenings(UpdateAll(t, xs[..|xs| - 1]), xs[|xs| - 1], s);
    }
  }

  lemma {:induction false} UpdateAllAppend<K(!new)>(t: map<Slot<K>, DayRow>, xs: seq<Delivery<K>>,
                                                    ys: seq<Delivery<K>>)
    ensures UpdateAll(t, xs + ys) == UpdateAll(UpdateAll(t, xs), ys)
    decreases |ys|
  {
    hide Update;
    if ys == [] {
      assert xs + ys == xs;
    } else {
      assert (xs + ys)[..|xs + ys| - 1] == xs + ys[..|ys| - 1];
      UpdateAllAppend(t, xs, ys[..|ys| - 1]);
    }
  }

  /** Over any run a row's opening is the balance before its day at the step that opened it, whatever came later. */
  lemma OpeningOfRun<K(!new)>(t: map<Slot<K>, DayRow>, xs: seq<Delivery<K>>, i: nat)
    requires i < |xs| && Slot(xs[i].key, xs[i].day) !in UpdateAll(t, xs[..i])
    ensures var s, before := Slot(xs[i].key, xs[i].day), UpdateAll(t, xs[..i]);
            && s in UpdateAll(t, xs)
            && UpdateAll(t, xs)[s].start == Some(BalanceBefore(before, s.key, s.day))
  {
    hide Update;
    var s := Slot(xs[i].key, xs[i].day);
    assert xs == xs[..i + 1] + xs[i + 1..] && xs[..i + 1][..i] == xs[..i];
    UpdateKeepsOpenings(UpdateAll(t, xs[..i]), xs[i], s);
    UpdateAllAppend(t, xs[..i + 1], xs[i + 1..]);
    RunKeepsOpening(UpdateAll(t, xs[..i + 1]), xs[i + 1..], s);
  }

  // ---- whole runs from an empty table --------------------------------------------------

  ghost function Table<K(!new)>(xs: seq<Delivery<K>>): map<Slot<K>, DayRow> { UpdateAll(map[], xs) }

  lemma {:induction false} RunTurnover<K(!new)>(xs: seq<Delivery<K>>)
    ensures TurnoverRight(Table(xs), multiset(xs))
    decreases |xs|
  {
    if xs != [] {
      var init, x := xs[..|xs| - 1], xs[|xs| - 1];
      assert xs == init + [x];
      RunTurnover(init);
      UpdateTurnover(Table(init), multiset(init), x);
    }
  }

  /** No call on the key opens a new day between an older row with nonzero balance and a newer row. */
  ghost predicate HarmlessRun<K(!new)>(xs: seq<Delivery<K>>, key: K) {
    forall i :: 0 <= i < |xs| && xs[i].key == key ==> Harmless(Table(xs[..i]), xs[i])
  }

  /** Running balance refines the window sum, over every harmless run. */
  lemma {:induction false} RunBalances<K(!new)>(xs: seq<Delivery<K>>, key: K)
    requires HarmlessRun(xs, key)
    ensures BalancesRight(Table(xs), multiset(xs), key)
    decreases |xs|
  {
    if xs != [] {
      var init, x := xs[..|xs| - 1], xs[|xs| - 1];
      assert xs == init + [x];
      assert HarmlessRun(init, key) by {
        forall i | 0 <= i < |init| && init[i].key == key
          ensures Harmless(Table(init[..i]), init[i])
        {
          assert init[..i] == xs[..i] && init[i] == xs[i];
        }
      }
      RunBalances(init, key);
      RunTurnover(init);
      if x.key == key {
        OneStepCondition(Table(init), multiset(init), x);
      } else {
        OtherKeysUntouched(Table(init), multiset(init), x, key);
      }
    }
  }

  /** The balances of the key are right after every step of the run. */
  ghost predicate AlwaysRight<K(!new)>(xs: seq<Delivery<K>>, key: K) {
    forall i :: 0 <= i <= |xs| ==> BalancesRight(Table(xs[..i]), multiset(xs[..i]), key)
  }

  lemma HarmlessPrefix<K(!new)>(xs: seq<Delivery<K>>, key: K, n: nat)
    requires HarmlessRun(xs, key) && n <= |xs|
    ensures HarmlessRun(xs[..n], key)
  {
    forall i | 0 <= i < n && xs[..n][i].key == key
      ensures Harmless(Table(xs[..n][..i]), xs[..n][i])
    {
      assert xs[..n][..i] == xs[..i] && xs[..n][i] == xs[i];
    }
  }

  lemma RightStepHarmless<K(!new)>(xs: seq<Delivery<K>>, key: K, i: nat)
    requires AlwaysRight(xs, key) && i < |xs| && xs[i].key == key
    ensures Harmless(Table(xs[..i]), xs[i])
  {
    assert BalancesRight(Table(xs[..i]), multiset(xs[..i]), key);
    assert BalancesRight(Table(xs[..i + 1]), multiset(xs[..i + 1]), key);
    assert xs[..i + 1] == xs[..i] + [xs[i]] && xs[..i + 1][..i] == xs[..i];
    RunTurnover(xs[..i]);
    hide Update, BalancesRight, Harmless, TurnoverRight;
    OneStepCondition(Table(xs[..i]), multiset(xs[..i]), xs[i]);
  }

  /** The running balances stay right all along exactly when every call on the key is harmless. */
  lemma RunBalancesExactlyWhen<K(!new)>(xs: seq<Delivery<K>>, key: K)
    ensures AlwaysRight(xs, key) <==> HarmlessRun(xs, key)
  {
    hide BalancesRight, Table, Harmless;
    if HarmlessRun(xs, key) {
      forall i | 0 <= i <= |xs|
        ensures BalancesRight(Table(xs[..i]), multiset(xs[..i]), key)
      {
        HarmlessPrefix(xs, key, i);
        RunBalances(xs[..i], key);
      }
    }
    if AlwaysRight(xs, key) {
      forall i | 0 <= i < |xs| && xs[i].key == key
        ensures Harmless(Table(xs[..i]), xs[i])
      {
        RightStepHarmless(xs, key, i);
      }
    }
  }

  const EARLY := Delivery(0, 1, 5.0, 0.0, 5.0)
  const LATE := Delivery(0, 3, 2.0, 0.0, 2.0)
  const BETWEEN := Delivery(0, 2, 1.0, 0.0, 1.0)

  /** The table after the two outer deliveries. */
  lemma OuterDays() returns (t: map<Slot<int>, DayRow>)
    ensures t == Table([EARLY, LATE]) && HarmlessRun([EARLY, LATE], 0)
    ensures TurnoverRight(t, multiset{EARLY, LATE}) && BalancesRight(t, multiset{EARLY, LATE}, 0)
    ensures BalanceBefore(t, 0, 2) == 5.0 && Slot(0, 2) !in t && Slot(0, 3) in t
  {
    var two := [EARLY, LATE];
    t := Table(two);
    assert multiset(two) == multiset{EARLY, LATE};
    hide Update, Table, HarmlessRun, BalanceBefore;
    FirstRows(EARLY, LATE);
    RunTurnover(two);
    RunBalances(two, 0);
    BeforeDayTwo(t);
    OuterRows(t);
  }

  lemma BeforeDayTwo(t: map<Slot<int>, DayRow>)
    requires TurnoverRight(t, multiset{EARLY, LATE}) && BalancesRight(t, multiset{EARLY, LATE}, 0)
    ensures BalanceBefore(t, 0, 2) == 5.0
  {
    hide TurnoverRight, BalancesRight, BalanceBefore;
    BalanceBeforeIsSum(t, multiset{EARLY, LATE}, 0, 2);
    SumAdd(multiset{EARLY}, LATE, AmountBefore(0, 2));
    SumSingle(EARLY, AmountBefore(0, 2));
    assert multiset{EARLY} + multiset{LATE} == multiset{EARLY, LATE};
  }

  lemma OuterRows(t: map<Slot<int>, DayRow>)
    requires TurnoverRight(t, multiset{EARLY, LATE})
    ensures Slot(0, 2) !in t && Slot(0, 3) in t
  {
    assert !HasDelivery(multiset{EARLY, LATE}, Slot(0, 2));
    assert LATE in multiset{EARLY, LATE} && HasDelivery(multiset{EARLY, LATE}, Slot(0, 3));
  }

  lemma BetweenIsHarmful(t: map<Slot<int>, DayRow>, d: multiset<Delivery<int>>)
    requires TurnoverRight(t, d) && BalancesRight(t, d, 0)
    requires BalanceBefore(t, 0, 2) == 5.0 && Slot(0, 2) !in t && Slot(0, 3) in t
    ensures !Harmless(t, BETWEEN)
    ensures var u, s := Update(t, BETWEEN), Slot(0, 3);
            s in u && u[s].balance == RunningSum(d + multiset{BETWEEN}, s) + 5.0
  {
    assert Slot(0, 3) in Update(t, BETWEEN);
    UpdateBalanceExact(t, d, BETWEEN, Slot(0, 3));
  }

  /** Harmful runs exist: of three deliveries on one key, the last opens the day between the other two, and the row
      after it comes out too high by the balance before it. */
  lemma HarmfulRun()
    ensures var xs, s := [EARLY, LATE, BETWEEN], Slot(0, 3);
            && HarmlessRun(xs[..2], 0) && !Harmless(Table(xs[..2]), xs[2])
            && s in Table(xs) && Table(xs)[s].balance == RunningSum(multiset(xs), s) + 5.0
            && !BalancesRight(Table(xs), multiset(xs), 0)
  {
    hide Update, HarmlessRun, BalanceBefore, TurnoverRight, UpdateAll, Harmless, RunningSum;
    var t := OuterDays();
    var xs, d := [EARLY, LATE, BETWEEN], multiset{EARLY, LATE};
    assert xs[..2] == [EARLY, LATE];
    BetweenIsHarmful(t, d);
    assert multiset(xs) == d + multiset{BETWEEN};
    TableOfThree(EARLY, LATE, BETWEEN);
  }

  lemma TableOfThree(x: Delivery<int>, y: Delivery<int>, z: Delivery<int>)
    ensures Table([x, y, z]) == Update(Table([x, y]), z)
  {
    hide Update;
    assert [x, y, z][..2] == [x, y];
  }

  /** Two deliveries in day order are harmless. */
  lemma FirstRows(x: Delivery<int>, y: Delivery<int>)
    requires x.key == y.key && x.day <= y.day
    ensures HarmlessRun([x, y], x.key)
  {
    var xs := [x, y];
    assert xs[..0] == [] && xs[..1] == [x] && [x][..0] == [];
    RunTurnover([x]);
    forall s | s in Table([x])
      ensures s.day <= y.day
    {
      assert HasDelivery(multiset([x]), s);
    }
  }
}

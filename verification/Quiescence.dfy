/** Running balances in the protocol: where every delivery is harmless, the tables at rest are what the batch
    computes. */
module Quiescence {
  import opened Sums
  import opened Accounts
  import opened Journal
  import opened Books
  import opened DailyTable
  import opened Equation
  import opened AsyncIndex
  import opened Resync

  /** Every delivery of the run is harmless on both tables when it comes. */
  ghost predicate HarmlessRunOf(s0: System, es: seq<Event>)
    decreases |es|
  {
    es != [] ==>
      && HarmlessRunOf(s0, es[..|es| - 1])
      && HarmlessEvent(After(s0, es[..|es| - 1]), es[|es| - 1])
  }

  ghost predicate HarmlessEvent(s: System, e: Event) {
    e.Deliver? ==>
      Harmless(s.detail, ToDetail(s.ledger.chart, e.row)) && Harmless(s.group, ToGroup(s.ledger.chart, e.row))
  }

  ghost predicate AllBalancesRight<K(!new)>(t: map<Slot<K>, DayRow>, d: multiset<Delivery<K>>) {
    forall key :: BalancesRight(t, d, key)
  }

  lemma UpdateKeepsBalances<K(!new)>(t: map<Slot<K>, DayRow>, d: multiset<Delivery<K>>, x: Delivery<K>)
    requires TurnoverRight(t, d) && AllBalancesRight(t, d) && Harmless(t, x)
    ensures AllBalancesRight(Update(t, x), d + multiset{x})
  {
    forall key
      ensures BalancesRight(Update(t, x), d + multiset{x}, key)
    {
      assert BalancesRight(t, d, key);
      if key == x.key {
        OneStepCondition(t, d, x);
      } else {
        OtherKeysUntouched(t, d, x, key);
      }
    }
  }

  ghost predicate BalancesHold(s: System) {
    && AllBalancesRight(s.detail, Details(s.ledger.chart, s.delivered))
    && AllBalancesRight(s.group, Groups(s.ledger.chart, s.delivered))
  }

  lemma DeliverKeepsBalances(s: System, r: Row)
    requires Inv(s) && BalancesHold(s) && HarmlessEvent(s, Deliver(r))
    ensures BalancesHold(Next(s, Deliver(r)))
  {
    hide AllBalancesRight, Harmless, TurnoverRight, Update;
    var chart := s.ledger.chart;
    UpdateKeepsBalances(s.detail, Details(chart, s.delivered), ToDetail(chart, r));
    UpdateKeepsBalances(s.group, Groups(chart, s.delivered), ToGroup(chart, r));
    ImageAdd(s.delivered, r, DetailOf(chart));
    ImageAdd(s.delivered, r, GroupOf(chart));
  }

  lemma CommitKeepsTables(s: System, act: Act)
    ensures var s' := Next(s, Commit(act));
            s'.ledger.chart == s.ledger.chart && s'.detail == s.detail && s'.group == s.group
            && s'.delivered == s.delivered
  {
    ActConserves(s.ledger, act);
  }

  lemma {:induction false} BalancesAlwaysHold(s0: System, es: seq<Event>)
    requires Inv(s0) && BalancesHold(s0) && Runs(s0, es) && HarmlessRunOf(s0, es)
    ensures BalancesHold(After(s0, es))
    decreases |es|
  {
    if es != [] {
      var init, e := es[..|es| - 1], es[|es| - 1];
      BalancesAlwaysHold(s0, init);
      InvAlways(s0, init);
      StepKeepsBalances(After(s0, init), e);
    }
  }

  lemma StepKeepsBalances(s: System, e: Event)
    requires Inv(s) && BalancesHold(s) && HarmlessEvent(s, e)
    ensures BalancesHold(Next(s, e))
  {
    hide Inv, BalancesHold, HarmlessEvent, Next;
    match e
    case Commit(act) => CommitKeepsBalances(s, act);
    case Deliver(r) => DeliverKeepsBalances(s, r);
  }

  lemma CommitKeepsBalances(s: System, act: Act)
    requires BalancesHold(s)
    ensures BalancesHold(Next(s, Commit(act)))
  {
    hide Next, AllBalancesRight;
    CommitKeepsTables(s, act);
  }

  /** Empty tables hold their balances. */
  lemma StartHoldsBalances(l: Ledger)
    requires NothingBooked(l)
    ensures BalancesHold(Start(l))
  {
  }

  lemma RightIsSynced<K(!new)>(t: map<Slot<K>, DayRow>, d: multiset<Delivery<K>>)
    requires TurnoverRight(t, d) && AllBalancesRight(t, d)
    ensures Synced(t, d) && Upsert(t, d) == t
  {
    forall s | s in Slots(d)
      ensures s in t && t[s].balance == RunningSum(d, s)
    {
      assert HasDelivery(d, s);
      assert BalancesRight(t, d, s.key);
    }
    UpsertSyncs(t, d);
  }

  /** The index agrees with the batch in full: for every interleaving with harmless deliveries and no two-sided account,
      once nothing is queued, the batch statement changes neither table: debit, credit and running balance of every row
      are the ones it computes from the journal. */
  lemma QuiescentBalances(s0: System, es: seq<Event>)
    requires Inv(s0) && BalancesHold(s0) && s0.missed == multiset{}
    requires Runs(s0, es) && QuietRun(s0, es) && HarmlessRunOf(s0, es) && After(s0, es).ledger.pending == multiset{}
    ensures var s := After(s0, es);
            var details, groups := Details(s0.ledger.chart, s.ledger.journal),
              Groups(s0.ledger.chart, s.ledger.journal);
            && Synced(s.detail, details) && Upsert(s.detail, details) == s.detail
            && Synced(s.group, groups) && Upsert(s.group, groups) == s.group
  {
    hide Runs, QuietRun, HarmlessRunOf, After, Synced, Upsert, TurnoverRight, AllBalancesRight;
    var s := After(s0, es);
    InvAlways(s0, es);
    NothingMissed(s0, es);
    BalancesAlwaysHold(s0, es);
    assert s.ledger.journal == s.delivered;
    RightIsSynced(s.detail, Details(s0.ledger.chart, s.delivered));
    RightIsSynced(s.group, Groups(s0.ledger.chart, s.delivered));
  }
}

/** Every call of a handler is one act of the journal engine, or nothing: what is proved of the engine's runs, and of
    the index that follows them, holds of the service's. */
module Calls {
  import opened Sums
  import opened Accounts
  import opened Journal
  import opened Books
  import opened Rollback
  import opened Equation
  import opened DailyTable
  import opened AsyncIndex
  import opened Orders
  import opened Inbound
  import opened Register
  import Acceptance
  import Payments
  import Revenue

  datatype Call =
    | OrderCall(order: OrderPayload, day: Day)
    | CancelCall(orderId: nat, teams: seq<TeamId>, day: Day)
    | EventCall(team: TeamId, shop: nat, event: Revenue.Event, day: Day)
    | RestockCall(restock: InboundPayload, tags: seq<string>, day: Day)
    | UpdateCall(update: InboundPayload, old1: Option<real>, old2: Option<real>, day: Day)
    | GoodsCall(goods: Acceptance.AcceptPayload, day: Day)
    | AdjustCall(adjustment: Acceptance.AdjustPayload, day: Day)
    | PaymentCall(table: Payments.Table, id: nat, team: TeamId, day: Day)

  /** What the call leaves of the ledger. */
  ghost function Effect(l: Ledger, call: Call): Ledger
    requires call.EventCall? ==> Revenue.Recordable(call.event)
  {
    match call
    case OrderCall(order, day) => OnOrderSpec(l, order, day).0
    case CancelCall(id, teams, day) => CancelSpec(l, id, teams, day).0
    case EventCall(team, shop, e, day) => Revenue.EventSpec(l, team, shop, e, day).0
    case RestockCall(pay, tags, day) => CreateSpec(l, pay, tags, day).0
    case UpdateCall(pay, old1, old2, day) => UpdateSpec(l, pay, old1, old2, day).0
    case GoodsCall(pay, day) => Acceptance.AcceptSpec(l, pay, day).0
    case AdjustCall(pay, day) => Acceptance.AdjustSpec(l, pay, day).0
    case PaymentCall(t, id, team, day) => Payments.AcceptSpec(l, t, id, team, day).0
  }

  /** A cancelling visits each team of the order's transaction once. */
  ghost predicate LegalCall(l: Ledger, call: Call) {
    match call
    case CancelCall(id, teams, _) =>
      OrderRef(id) in l.txs ==> Enumerates(teams, TeamsOf(l.journal, l.txs[OrderRef(id)]))
    case EventCall(_, _, e, _) => Revenue.Recordable(e)
    case _ => true
  }

  /** The act that the call amounts to, if it amounts to any. */
  ghost function ActOf(l: Ledger, call: Call): Option<Act>
    requires LegalCall(l, call)
  {
    match call
    case OrderCall(pay, day) =>
      if OrderRef(pay.orderId) in l.txs then None
      else Some(Open(OrderCreation(pay), OrderBooks(l.chart, pay), AdditionalError(pay), day))
    case CancelCall(id, teams, day) =>
      if OrderRef(id) !in l.txs then None else Some(Cancel(l.txs[OrderRef(id)], teams, day))
    case EventCall(team, shop, e, day) =>
      if Revenue.Skips(l, shop, e) then None
      else Some(Open(Revenue.EventCreation(shop, e), [PostBook(l.chart, team, Revenue.EventPosts(team, e))], None, day))
    case RestockCall(pay, tags, day) => Some(Open(RestockCreation(pay, tags), [FreshBook(l.chart, pay)], None, day))
    case UpdateCall(pay, old1, old2, day) =>
      if UpdateRef(pay).None? || UpdateRef(pay).value !in l.txs || UpdateGoods(pay, old1).None? then None
      else Some(Amend(UpdateRef(pay).value, UpdateBooks(l, l.txs[UpdateRef(pay).value], pay, old1, old2), day))
    case GoodsCall(pay, day) =>
      if Acceptance.AcceptRef(pay).None? || Acceptance.ExtPriceFee(pay).None? then None
      else
        var c := Acceptance.AcceptCreation(Acceptance.AcceptRef(pay).value, pay);
        var fee := Acceptance.ExtPriceFee(pay).value;
        Some(Open(c, Acceptance.AcceptBooks(l.chart, pay, fee), None, day))
    case AdjustCall(pay, day) =>
      Some(Open(Plain(Acceptance.AdjustRef(pay)), Acceptance.AdjustBooks(l.chart, pay), None, day))
    case PaymentCall(t, id, team, day) =>
      if Payments.DecideError(t, id, team, Payments.To()).Some? then None
      else Some(Open(Plain(Payments.PaymentRef(id)), Payments.PaymentBooks(l.chart, t.rows[id]), None, day))
  }

  lemma UpdateBooksAreKnown(l: Ledger, tx: TxId, pay: InboundPayload, old1: Option<real>, old2: Option<real>)
    ensures BooksKnown(l.chart, UpdateBooks(l, tx, pay, old1, old2))
  {
    if UpdateGoods(pay, old1).Some? {
      var b := PostBook(l.chart, pay.team, UpdatePosts(pay, UpdateGoods(pay, old1).value, UpdateShipping(pay, old2)));
      PostedBooksKnown(l.chart, [b]);
      assert b in [b];
    }
  }

  /** The books of the act only name accounts that exist. */
  lemma ActIsLegal(l: Ledger, call: Call)
    requires LegalCall(l, call) && ActOf(l, call).Some?
    ensures Legal(l, ActOf(l, call).value)
  {
    hide PostAll, OrderBooks, UpdateBooks, BooksKnown, Enumerates;
    match call
    case OrderCall(pay, day) =>
      OrderBooksPosted(l.chart, pay);
      PostedBooksKnown(l.chart, OrderBooks(l.chart, pay));
    case CancelCall(_, _, _) =>
    case EventCall(team, shop, e, day) =>
      PostedBooksKnown(l.chart, [PostBook(l.chart, team, Revenue.EventPosts(team, e))]);
    case RestockCall(pay, tags, day) => PostedBooksKnown(l.chart, [FreshBook(l.chart, pay)]);
    case UpdateCall(pay, old1, old2, day) =>
      UpdateBooksAreKnown(l, l.txs[UpdateRef(pay).value], pay, old1, old2);
    case GoodsCall(pay, day) =>
      PostedBooksKnown(l.chart, Acceptance.AcceptBooks(l.chart, pay, Acceptance.ExtPriceFee(pay).value));
    case AdjustCall(pay, day) => PostedBooksKnown(l.chart, Acceptance.AdjustBooks(l.chart, pay));
    case PaymentCall(t, id, _, _) => PostedBooksKnown(l.chart, Payments.PaymentBooks(l.chart, t.rows[id]));
  }

  /** An update with no goods to book fails, and leaves everything as it was. */
  lemma GoodslessUpdate(l: Ledger, pay: InboundPayload, old1: Option<real>, old2: Option<real>, day: Day)
    ensures UpdateGoods(pay, old1).None? ==> UpdateSpec(l, pay, old1, old2, day).0 == l
  {
    hide OpenSpec;
    if UpdateGoods(pay, old1).None? && UpdateRef(pay).Some? && UpdateRef(pay).value in l.txs {
      var tx := l.txs[UpdateRef(pay).value];
      TransactionEffect(l, l, tx, UpdateBooks(l, tx, pay, old1, old2), Some(AccountNotFound), day);
    }
  }

  /** Every call is a legal act, or changes nothing. */
  lemma CallIsAct(l: Ledger, call: Call)
    requires LegalCall(l, call)
    ensures match ActOf(l, call)
            case None => Effect(l, call) == l
            case Some(act) => Legal(l, act) && Effect(l, call) == Step(l, act).0
  {
    hide OpenSpec, PostSpec, RollbackSpec, OrderBooks, Legal;
    if ActOf(l, call).Some? { ActIsLegal(l, call); }
    if call.UpdateCall? { GoodslessUpdate(l, call.update, call.old1, call.old2, call.day); }
  }

  // ---- runs of the service -----------------------------------------------------------------

  datatype Happening = Called(call: Call) | Counted(row: Row)

  /** The ledger and the two index tables. */
  datatype Service = Service(ledger: Ledger, detail: DetailTable, group: GroupTable)

  ghost predicate Possible(s: Service, h: Happening) {
    match h
    case Called(call) => LegalCall(s.ledger, call)
    case Counted(r) => r in s.ledger.pending
  }

  ghost function Happen(s: Service, h: Happening): Service
    requires Possible(s, h)
  {
    match h
    case Called(call) => s.(ledger := Effect(s.ledger, call))
    case Counted(r) =>
      Service(s.ledger.(pending := s.ledger.pending - multiset{r}),
              DailyTable.Update(s.detail, ToDetail(s.ledger.chart, r)),
              DailyTable.Update(s.group, ToGroup(s.ledger.chart, r)))
  }

  ghost predicate PossibleRun(s: Service, hs: seq<Happening>)
    decreases |hs|, 0
  {
    hs != [] ==> PossibleRun(s, hs[..|hs| - 1]) && Possible(AfterAll(s, hs[..|hs| - 1]), hs[|hs| - 1])
  }

  ghost function AfterAll(s: Service, hs: seq<Happening>): Service
    requires PossibleRun(s, hs)
    decreases |hs|, 1
  {
    if hs == [] then s else Happen(AfterAll(s, hs[..|hs| - 1]), hs[|hs| - 1])
  }

  /** No call books an account on both sides. */
  ghost predicate QuietService(s: Service, hs: seq<Happening>)
    requires PossibleRun(s, hs)
    decreases |hs|
  {
    hs != [] ==> QuietService(s, hs[..|hs| - 1]) && QuietHappening(AfterAll(s, hs[..|hs| - 1]).ledger, hs[|hs| - 1])
  }

  ghost predicate QuietHappening(l: Ledger, h: Happening)
    requires h.Called? ==> LegalCall(l, h.call)
  {
    h.Called? && ActOf(l, h.call).Some? ==> NoneTwoSided(ActBooks(l, ActOf(l, h.call).value))
  }

  ghost function View(s: System): Service { Service(s.ledger, s.detail, s.group) }

  ghost predicate QuietEvent(l: Ledger, e: Event) { e.Commit? ==> NoneTwoSided(ActBooks(l, e.act)) }

  /** One happening is at most one event of the protocol. */
  ghost function EventsOf(l: Ledger, h: Happening): seq<Event>
    requires h.Called? ==> LegalCall(l, h.call)
  {
    match h
    case Called(call) => (match ActOf(l, call) case None => [] case Some(act) => [Commit(act)])
    case Counted(r) => [Deliver(r)]
  }

  lemma HappeningIsEvent(s: System, h: Happening)
    requires Possible(View(s), h)
    ensures var es := EventsOf(s.ledger, h);
            && |es| <= 1 && (es != [] ==> Enabled(s, es[0]))
            && Happen(View(s), h) == View(if es == [] then s else Next(s, es[0]))
            && (es != [] && QuietHappening(s.ledger, h) ==> QuietEvent(s.ledger, es[0]))
  {
    hide Effect, Legal, Step, ActHalves, ActBooks, NoneTwoSided;
    if h.Called? { CallIsAct(s.ledger, h.call); }
  }

  /** The events of a run of the service. */
  ghost function EventsOfRun(s: Service, hs: seq<Happening>): seq<Event>
    requires PossibleRun(s, hs)
    decreases |hs|
  {
    if hs == [] then []
    else EventsOfRun(s, hs[..|hs| - 1]) + EventsOf(AfterAll(s, hs[..|hs| - 1]).ledger, hs[|hs| - 1])
  }

  lemma OneMoreEvent(s0: System, es: seq<Event>, e: Event)
    requires Runs(s0, es) && Enabled(After(s0, es), e)
    ensures Runs(s0, es + [e]) && After(s0, es + [e]) == Next(After(s0, es), e)
    ensures QuietRun(s0, es) && QuietEvent(After(s0, es).ledger, e) ==> QuietRun(s0, es + [e])
  {
    hide Enabled, Next, ActBooks, NoneTwoSided;
    assert (es + [e])[..|es + [e]| - 1] == es;
  }

  /** Every run of the service, its calls and its index updates interleaved in any way, is a run of the protocol. */
  lemma {:induction false} ServiceRunsAreRuns(s0: System, hs: seq<Happening>)
    requires PossibleRun(View(s0), hs)
    ensures var es := EventsOfRun(View(s0), hs);
            && Runs(s0, es) && View(After(s0, es)) == AfterAll(View(s0), hs)
            && (QuietService(View(s0), hs) ==> QuietRun(s0, es))
    decreases |hs|
  {
    hide Happen, Enabled, Next, QuietHappening, QuietEvent, EventsOf, LegalCall;
    if hs != [] {
      var init, h := hs[..|hs| - 1], hs[|hs| - 1];
      ServiceRunsAreRuns(s0, init);
      var es := EventsOfRun(View(s0), init);
      HappeningIsEvent(After(s0, es), h);
      var more := EventsOf(After(s0, es).ledger, h);
      if more == [] {
        assert es + more == es;
      } else {
        assert more == [more[0]];
        OneMoreEvent(s0, es, more[0]);
      }
    }
  }

  /** So in every state of the service the two index tables agree on turnover, whatever was called and counted. */
  lemma ServiceTablesAgree(l: Ledger, hs: seq<Happening>, k: GroupKey, day: Day)
    requires NothingBooked(l) && PossibleRun(View(Start(l)), hs)
    ensures var s := AfterAll(View(Start(l)), hs);
            && StoredDebit(s.group, Slot(k, day)) ==
               Sum(multiset(AccountsWith(s.detail, k)), DetailDebit(s.detail, k.team, day))
            && StoredCredit(s.group, Slot(k, day)) ==
               Sum(multiset(AccountsWith(s.detail, k)), DetailCredit(s.detail, k.team, day))
  {
    StartIsConsistent(l);
    ServiceRunsAreRuns(Start(l), hs);
    var es := EventsOfRun(View(Start(l)), hs);
    TablesAgreeAlways(Start(l), es, k, day);
  }
}

/** The selling receivable over runs of orders and revenue events. */
module Settlement {
  import opened Accounts
  import opened Journal
  import opened Books
  import opened Nets
  import opened Rollback
  import opened Orders
  import opened Revenue
  import opened Effects
  import opened OrderEffects
  import opened EventEffects
  import References
  import Replay

  function Selling(team: TeamId): AccountRef { AccountRef(SellingReceivable, team) }

  /** A positive fund corrects the estimate to the amount, a negative one (a return) takes the estimate off, a
      withdrawal takes its amount off, and an adjustment of either sign adds its amount. */
  function EventAmount(e: Event): real
    requires Recordable(e)
  {
    match e
    case Fund(_, est, amount) => if amount < 0.0 then -est else amount - est
    case Withdrawal(_, amount) => -Abs(amount)
    case Adjustment(_, _, amount, _) => Abs(amount)
  }

  // ---- runs ------------------------------------------------------------------------------

  datatype Booking =
    | NewOrder(order: OrderPayload, day: Day)
    | NewEvent(team: TeamId, shop: nat, event: Event, day: Day)
    | CancelledOrder(orderId: nat, teams: seq<TeamId>, day: Day)

  /** A cancelling visits each team of the order's transaction once. */
  ghost predicate Legal(l: Ledger, b: Booking) {
    match b
    case NewOrder(_, _) => true
    case NewEvent(_, _, e, _) => Recordable(e)
    case CancelledOrder(id, teams, _) =>
      OrderRef(id) in l.txs ==> Enumerates(teams, TeamsOf(l.journal, l.txs[OrderRef(id)]))
  }

  ghost function Step(l: Ledger, b: Booking): Ledger
    requires Legal(l, b)
  {
    match b
    case NewOrder(order, day) => OnOrderSpec(l, order, day).0
    case NewEvent(team, shop, e, day) => EventSpec(l, team, shop, e, day).0
    case CancelledOrder(id, teams, day) => CancelSpec(l, id, teams, day).0
  }

  /** The booking is recorded: it is new, and nothing refuses it. */
  ghost predicate Recorded(l: Ledger, b: Booking)
    requires Legal(l, b)
  {
    match b
    case NewOrder(order, day) => OrderRef(order.orderId) !in l.txs && OnOrderSpec(l, order, day).1.None?
    case NewEvent(team, shop, e, day) => !Skips(l, shop, e) && EventSpec(l, team, shop, e, day).1.None?
    case CancelledOrder(id, teams, day) => CancelSpec(l, id, teams, day).1.None?
  }

  ghost predicate LegalRun(l: Ledger, bs: seq<Booking>)
    decreases |bs|, 0
  {
    bs != [] ==> LegalRun(l, bs[..|bs| - 1]) && Legal(Run(l, bs[..|bs| - 1]), bs[|bs| - 1])
  }

  ghost function Run(l: Ledger, bs: seq<Booking>): Ledger
    requires LegalRun(l, bs)
    decreases |bs|, 1
  {
    if bs == [] then l else Step(Run(l, bs[..|bs| - 1]), bs[|bs| - 1])
  }

  /** What the order stands for in the team's receivable after the run: its revenue amount from when it is recorded
      until it is cancelled. before is what it stood for before the run. */
  ghost function Standing(l: Ledger, bs: seq<Booking>, orderId: nat, team: TeamId, before: real): real
    requires LegalRun(l, bs)
    decreases |bs|
  {
    if bs == [] then before
    else
      var init, b := bs[..|bs| - 1], bs[|bs| - 1];
      if !Recorded(Run(l, init), b) then Standing(l, init, orderId, team, before)
      else
        match b
        case NewOrder(order, _) =>
          if order.orderId == orderId then (if order.team == team then OrderAmount(order) else 0.0)
          else Standing(l, init, orderId, team, before)
        case NewEvent(_, _, _, _) => Standing(l, init, orderId, team, before)
        case CancelledOrder(id, _, _) => if id == orderId then 0.0 else Standing(l, init, orderId, team, before)
  }

  /** What an order that the ledger already has stands for. */
  ghost function InitialStanding(l: Ledger, orderId: nat, team: TeamId): real {
    if OrderRef(orderId) in l.txs then Net(l.journal, l.txs[OrderRef(orderId)], team, Selling(team)) else 0.0
  }

  /** What the recorded bookings add up to: an order its amount, an event its amount, and a cancelling takes off what
      the order stood for. */
  ghost function Expected(l: Ledger, bs: seq<Booking>, team: TeamId): real
    requires LegalRun(l, bs)
    decreases |bs|
  {
    if bs == [] then 0.0
    else
      var init, b := bs[..|bs| - 1], bs[|bs| - 1];
      Expected(l, init, team)
      + if !Recorded(Run(l, init), b) then 0.0
        else
          match b
          case NewOrder(order, _) => if order.team == team then OrderAmount(order) else 0.0
          case NewEvent(t, _, e, _) => if t == team then EventAmount(e) else 0.0
          case CancelledOrder(id, _, _) => -Standing(l, init, id, team, InitialStanding(l, id, team))
  }

  ghost function SellingBalance(l: Ledger, team: TeamId): real {
    BookBalance(l.journal, team, Selling(team))
  }

  ghost function SellingNet(l: Ledger, tx: TxId, team: TeamId): real {
    Net(l.journal, tx, team, Selling(team))
  }

  /** The ledger keeps its references and its chart. */
  ghost predicate Kept(l: Ledger) {
    ValidLedger(l) && Seeded(l.chart)
  }

  lemma OrderStep(l: Ledger, pay: OrderPayload, day: Day, team: TeamId)
    requires Kept(l)
    ensures var l', amount := OnOrderSpec(l, pay, day).0, if pay.team == team then OrderAmount(pay) else 0.0;
            && Kept(l')
            && SellingBalance(l', team) ==
               SellingBalance(l, team) + (if Recorded(l, NewOrder(pay, day)) then amount else 0.0)
            && (Recorded(l, NewOrder(pay, day)) ==>
                  l'.txs == l.txs[OrderRef(pay.orderId) := l.nextTx] && SellingNet(l', l.nextTx, team) == amount)
            && (!Recorded(l, NewOrder(pay, day)) ==> l' == l)
            && forall tx :: tx != l.nextTx ==> SellingNet(l', tx, team) == SellingNet(l, tx, team)
  {
    hide PostSpec, OrderBooks, BookBalance, Net, OrderRef, ValidLedger, Accepts, CreateError, Seeded;
    if OrderRef(pay.orderId) !in l.txs {
      var c, bs := OrderCreation(pay), OrderBooks(l.chart, pay);
      OrderBooksPosted(l.chart, pay);
      PostedBooksKnown(l.chart, bs);
      PostKeepsValid(l, c, bs, AdditionalError(pay), day);
      PostAccepted(l, c, bs, AdditionalError(pay), day);
      PostAddsRef(l, c, bs, AdditionalError(pay), day);
      OrderSale(l, pay, day, team, team);
    }
  }

  lemma EventStep(l: Ledger, t: TeamId, shop: nat, e: Event, day: Day, team: TeamId)
    requires Kept(l) && Recordable(e)
    ensures var b, l' := NewEvent(t, shop, e, day), EventSpec(l, t, shop, e, day).0;
            && Kept(l')
            && SellingBalance(l', team) ==
               SellingBalance(l, team) + (if Recorded(l, b) && t == team then EventAmount(e) else 0.0)
            && (Recorded(l, b) ==> l'.txs == l.txs[EventRef(shop, e) := l.nextTx])
            && (!Recorded(l, b) ==> l' == l)
            && forall tx :: tx != l.nextTx ==> SellingNet(l', tx, team) == SellingNet(l, tx, team)
  {
    hide PostSpec, EventPosts, BookBalance, Net, EventRef, ValidLedger, Accepts, CreateError, PostAll, Seeded;
    SkippedEvent(l, shop, e);
    if !Skips(l, shop, e) {
      var bs, c := [PostBook(l.chart, t, EventPosts(t, e))], EventCreation(shop, e);
      PostedBooksKnown(l.chart, bs);
      PostKeepsValid(l, c, bs, None, day);
      PostAccepted(l, c, bs, None, day);
      PostAddsRef(l, c, bs, None, day);
      EventGains(l, t, shop, e, day, Cell(team, SellingReceivable, team));
    }
  }

  lemma ReverseStep(l: Ledger, tx: TxId, teams: seq<TeamId>, day: Day, team: TeamId)
    requires Kept(l) && Enumerates(teams, TeamsOf(l.journal, tx))
    ensures var (l', e) := RollbackSpec(l, tx, teams, day);
            && Kept(l') && l'.txs == l.txs
            && (e.Some? ==> l' == l)
            && (e.None? ==> SellingBalance(l', team) == SellingBalance(l, team) - SellingNet(l, tx, team))
            && (e.None? ==> forall x :: SellingNet(l', x, team) == if x == tx then 0.0 else SellingNet(l, x, team))
  {
    hide OpenSpec, Net, BookBalance, BooksNet, Reversible;
    RollbackAccepted(l, tx, teams, day);
    RollbackKeepsValid(l, tx, teams, day);
    if RollbackSpec(l, tx, teams, day).1.None? {
      RollbackIsExact(l, tx, teams, day);
      BalanceAfterOpen(l, l, tx, ReverseBooks(l, tx, teams), None, day, team, Selling(team));
      ReverseBooksNet(l, tx, teams, team, Selling(team));
      if team !in teams { NoRowNoNet(l.journal, tx, team, Selling(team)); }
    }
  }

  /** Every order that the ledger has nets to what it stands for. */
  ghost predicate OrdersStand(l: Ledger, l': Ledger, bs: seq<Booking>, team: TeamId)
    requires LegalRun(l, bs)
  {
    forall id :: OrderRef(id) in l'.txs ==>
      SellingNet(l', l'.txs[OrderRef(id)], team) == Standing(l, bs, id, team, InitialStanding(l, id, team))
  }

  ghost predicate Settled(l: Ledger, bs: seq<Booking>, team: TeamId)
    requires LegalRun(l, bs)
  {
    var l' := Run(l, bs);
    Kept(l') && SellingBalance(l', team) == SellingBalance(l, team) + Expected(l, bs, team)
    && OrdersStand(l, l', bs, team)
  }

  lemma OrderRefInjective(id: nat, other: nat)
    ensures OrderRef(id) == OrderRef(other) <==> id == other
  {
    References.NumberedRefsInjective(References.Order, id, References.Order, other);
  }

  lemma EventRefIsNoOrder(shop: nat, e: Event, id: nat)
    requires Recordable(e)
    ensures EventRef(shop, e) != OrderRef(id)
  {
    var (t, name) := Replay.RefParts(shop, e);
    References.RefsDetermineTypeAndId(t, name, References.Order, References.Decimal(id));
  }

  lemma OrderSettles(l: Ledger, bs: seq<Booking>, team: TeamId)
    requires bs != [] && LegalRun(l, bs) && bs[|bs| - 1].NewOrder? && Settled(l, bs[..|bs| - 1], team)
    ensures Settled(l, bs, team)
  {
    hide OnOrderSpec, SellingBalance, SellingNet, OrderAmount, InitialStanding, OrderRef, Seeded;
    var init, b := bs[..|bs| - 1], bs[|bs| - 1];
    var l1 := Run(l, init);
    OrderStep(l1, b.order, b.day, team);
    var l2 := Run(l, bs);
    forall id | OrderRef(id) in l2.txs
      ensures SellingNet(l2, l2.txs[OrderRef(id)], team) == Standing(l, bs, id, team, InitialStanding(l, id, team))
    {
      OrderRefInjective(id, b.order.orderId);
    }
  }

  lemma EventSettles(l: Ledger, bs: seq<Booking>, team: TeamId)
    requires bs != [] && LegalRun(l, bs) && bs[|bs| - 1].NewEvent? && Settled(l, bs[..|bs| - 1], team)
    ensures Settled(l, bs, team)
  {
    hide EventSpec, SellingBalance, SellingNet, EventAmount, InitialStanding, OrderRef, EventRef, Seeded, EventPosts;
    hide Skips;
    var init, b := bs[..|bs| - 1], bs[|bs| - 1];
    EventStep(Run(l, init), b.team, b.shop, b.event, b.day, team);
    var l2 := Run(l, bs);
    forall id | OrderRef(id) in l2.txs
      ensures SellingNet(l2, l2.txs[OrderRef(id)], team) == Standing(l, bs, id, team, InitialStanding(l, id, team))
    {
      EventRefIsNoOrder(b.shop, b.event, id);
    }
  }

  lemma CancelSettles(l: Ledger, bs: seq<Booking>, team: TeamId)
    requires bs != [] && LegalRun(l, bs) && bs[|bs| - 1].CancelledOrder? && Settled(l, bs[..|bs| - 1], team)
    ensures Settled(l, bs, team)
  {
    hide RollbackSpec, SellingBalance, SellingNet, InitialStanding, OrderRef, Seeded;
    var init, b := bs[..|bs| - 1], bs[|bs| - 1];
    var l1 := Run(l, init);
    if OrderRef(b.orderId) in l1.txs {
      var tx := l1.txs[OrderRef(b.orderId)];
      ReverseStep(l1, tx, b.teams, b.day, team);
      var l2 := Run(l, bs);
      forall id | OrderRef(id) in l2.txs
        ensures SellingNet(l2, l2.txs[OrderRef(id)], team) == Standing(l, bs, id, team, InitialStanding(l, id, team))
      {
        OrderRefInjective(id, b.orderId);
      }
    }
  }

  lemma NothingBooked(l: Ledger, team: TeamId)
    requires Kept(l)
    ensures Settled(l, [], team)
  {
  }

  /** Settlement: over every run of orders, revenue events and cancellings, a team's selling receivable moves by exactly
      the amounts of the recorded bookings, through every sign branch of a fund, and a cancelled order stands for
      nothing. */
  lemma {:induction false} ReceivableSettles(l: Ledger, bs: seq<Booking>, team: TeamId)
    requires Kept(l) && LegalRun(l, bs)
    ensures Settled(l, bs, team)
    decreases |bs|
  {
    hide Step, Recorded, SellingBalance, SellingNet;
    if bs == [] {
      NothingBooked(l, team);
    } else {
      var init, b := bs[..|bs| - 1], bs[|bs| - 1];
      ReceivableSettles(l, init, team);
      match b
      case NewOrder(_, _) => OrderSettles(l, bs, team);
      case NewEvent(_, _, _, _) => EventSettles(l, bs, team);
      case CancelledOrder(_, _, _) => CancelSettles(l, bs, team);
    }
  }
}

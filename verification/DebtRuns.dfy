/** Runs of the operations that move debts between teams: orders and their cancelling, goods acceptance, stock
    adjustments, and payments made, accepted, rejected and cancelled. */
module DebtRuns {
  import opened Sums
  import opened Accounts
  import opened Journal
  import opened Books
  import opened Nets
  import opened Rollback
  import opened References
  import opened Orders
  import opened Acceptance
  import opened Payments
  import opened Effects
  import opened OrderEffects
  import opened StockEffects
  import opened PaymentEffects
  import opened DebtMirror

  datatype World = World(ledger: Ledger, payments: Table)

  datatype Action =
    | CreateOrder(order: OrderPayload, day: Day)
    | CancelOrder(orderId: nat, teams: seq<TeamId>, day: Day)
    | AcceptGoods(goods: AcceptPayload, day: Day)
    | AdjustStock(adjustment: AdjustPayload, day: Day)
    | MakePayment(from: TeamId, to: TeamId, amount: real)
    | AcceptPayment(id: nat, team: TeamId, day: Day)
    | RejectPayment(id: nat, team: TeamId)
    | CancelPayment(id: nat, team: TeamId)

  ghost function Step(w: World, a: Action): World {
    match a
    case CreateOrder(order, day) => w.(ledger := OnOrderSpec(w.ledger, order, day).0)
    case CancelOrder(id, teams, day) => w.(ledger := CancelSpec(w.ledger, id, teams, day).0)
    case AcceptGoods(goods, day) => w.(ledger := Acceptance.AcceptSpec(w.ledger, goods, day).0)
    case AdjustStock(adjustment, day) => w.(ledger := AdjustSpec(w.ledger, adjustment, day).0)
    case MakePayment(from, to, amount) => w.(payments := Payments.CreateSpec(w.payments, from, to, amount))
    case AcceptPayment(id, team, day) =>
      var (l, t, _) := Payments.AcceptSpec(w.ledger, w.payments, id, team, day);
      World(l, t)
    case RejectPayment(id, team) => w.(payments := DecideSpec(w.payments, id, team, To(), Rejected).0)
    case CancelPayment(id, team) => w.(payments := DecideSpec(w.payments, id, team, From(), Canceled).0)
  }

  /** A cancelling visits each team of the order's transaction once. */
  ghost predicate Legal(w: World, a: Action) {
    a.CancelOrder? && OrderRef(a.orderId) in w.ledger.txs ==>
      Enumerates(a.teams, TeamsOf(w.ledger.journal, w.ledger.txs[OrderRef(a.orderId)]))
  }

  ghost function Run(w: World, actions: seq<Action>): World
    decreases |actions|
  {
    if actions == [] then w else Step(Run(w, actions[..|actions| - 1]), actions[|actions| - 1])
  }

  ghost predicate LegalRun(w: World, actions: seq<Action>)
    decreases |actions|
  {
    actions != [] ==>
      LegalRun(w, actions[..|actions| - 1]) && Legal(Run(w, actions[..|actions| - 1]), actions[|actions| - 1])
  }

  // ---- the mirror -----------------------------------------------------------------------

  /** Receivable of a against b in a transaction, less payable of b against a. */
  ghost function Debt(j: multiset<Row>, tx: TxId, a: TeamId, b: TeamId): real {
    Net(j, tx, a, AccountRef(Receivable, b)) + Net(j, tx, b, AccountRef(Payable, a))
  }

  ghost predicate Mirrored(l: Ledger) {
    forall tx, a, b :: Debt(l.journal, tx, a, b) == 0.0
  }

  ghost predicate Sound(l: Ledger) {
    ValidLedger(l) && Seeded(l.chart) && Mirrored(l)
  }

  /** A transaction in which a claim gains what the debt gains keeps the mirror. */
  lemma GainsKeepMirror(l: Ledger, l': Ledger, tx: TxId, a: TeamId, b: TeamId, amount: real)
    requires Debt(l.journal, tx, a, b) == 0.0
    requires Gains(l, l', l.nextTx, Claim(a, b), amount) && Gains(l, l', l.nextTx, Owing(a, b), amount)
    ensures Debt(l'.journal, tx, a, b) == 0.0
  {
    hide Net, BookBalance;
    assert Account(Claim(a, b)) == AccountRef(Receivable, b) && Account(Owing(a, b)) == AccountRef(Payable, a);
  }

  lemma PostedKeepsValid(l: Ledger, c: Creation, bs: seq<Book>, tail: Option<Error>, day: Day)
    requires ValidLedger(l) && PostedBooks(l.chart, bs)
    ensures var (l', e) := PostSpec(l, c, bs, tail, day);
            ValidLedger(l') && l'.chart == l.chart && (e.Some? ==> l' == l)
  {
    hide PostSpec, PostedBooks, ValidLedger, Accepts;
    PostedBooksKnown(l.chart, bs);
    PostKeepsValid(l, c, bs, tail, day);
    PostAccepted(l, c, bs, tail, day);
  }

  lemma CancelKeepsSound(l: Ledger, orderId: nat, teams: seq<TeamId>, day: Day)
    requires Sound(l)
    requires OrderRef(orderId) in l.txs ==> Enumerates(teams, TeamsOf(l.journal, l.txs[OrderRef(orderId)]))
    ensures Sound(CancelSpec(l, orderId, teams, day).0)
    ensures CancelSpec(l, orderId, teams, day).0.txs == l.txs
  {
    hide RollbackSpec, OrderRef, Sound;
    if OrderRef(orderId) in l.txs {
      ReverseKeepsSound(l, l.txs[OrderRef(orderId)], teams, day);
    }
  }

  lemma ReverseKeepsSound(l: Ledger, tx: TxId, teams: seq<TeamId>, day: Day)
    requires Sound(l) && Enumerates(teams, TeamsOf(l.journal, tx))
    ensures Sound(RollbackSpec(l, tx, teams, day).0)
    ensures RollbackSpec(l, tx, teams, day).0.txs == l.txs
  {
    hide RollbackSpec, Mirrored, ValidLedger, Enumerates;
    RollbackKeepsValid(l, tx, teams, day);
    RollbackAccepted(l, tx, teams, day);
    if RollbackSpec(l, tx, teams, day).1.None? {
      MirrorAfterReverse(l, tx, teams, day);
    }
  }

  lemma MirrorAfterReverse(l: Ledger, tx: TxId, teams: seq<TeamId>, day: Day)
    requires ValidLedger(l) && Mirrored(l) && Enumerates(teams, TeamsOf(l.journal, tx))
    requires RollbackSpec(l, tx, teams, day).1.None?
    ensures Mirrored(RollbackSpec(l, tx, teams, day).0)
  {
    hide RollbackSpec, ValidLedger, Enumerates, Net, TeamsOf;
    RollbackIsExact(l, tx, teams, day);
    var j := RollbackSpec(l, tx, teams, day).0.journal;
    forall x, a, b
      ensures Debt(j, x, a, b) == 0.0
    {
      assert Debt(l.journal, x, a, b) == 0.0;
    }
  }

  lemma OrderKeepsSound(l: Ledger, pay: OrderPayload, day: Day)
    requires Sound(l)
    ensures Sound(OnOrderSpec(l, pay, day).0)
  {
    hide PostSpec, OrderRef, Gains, ByOrder, Debt, ValidLedger, Seeded, OrderBooks;
    if OrderRef(pay.orderId) !in l.txs {
      OrderBooksPosted(l.chart, pay);
      PostedKeepsValid(l, OrderCreation(pay), OrderBooks(l.chart, pay), AdditionalError(pay), day);
      if OnOrderSpec(l, pay, day).1.None? {
        forall tx, a, b
          ensures Debt(OnOrderSpec(l, pay, day).0.journal, tx, a, b) == 0.0
        {
          OrderGains(l, pay, day, Claim(a, b));
          OrderGains(l, pay, day, Owing(a, b));
          OrderNeutral(pay, a, b);
          GainsKeepMirror(l, OnOrderSpec(l, pay, day).0, tx, a, b, ByOrder(pay, Claim(a, b)));
        }
      }
    }
  }

  lemma AcceptKeepsSound(l: Ledger, pay: AcceptPayload, day: Day)
    requires Sound(l)
    ensures Sound(Acceptance.AcceptSpec(l, pay, day).0)
  {
    hide PostSpec, ExtPriceFee, Gains, ByAccept, Debt, ValidLedger, Seeded, PostAll;
    if AcceptRef(pay).Some? && ExtPriceFee(pay).Some? {
      var c, bs := AcceptCreation(AcceptRef(pay).value, pay), AcceptBooks(l.chart, pay, ExtPriceFee(pay).value);
      PostedKeepsValid(l, c, bs, None, day);
      if Acceptance.AcceptSpec(l, pay, day).1.None? {
        forall tx, a, b
          ensures Debt(Acceptance.AcceptSpec(l, pay, day).0.journal, tx, a, b) == 0.0
        {
          AcceptMoves(l, pay, day, Claim(a, b));
          AcceptMoves(l, pay, day, Owing(a, b));
          AcceptNeutral(pay, a, b);
          GainsKeepMirror(l, Acceptance.AcceptSpec(l, pay, day).0, tx, a, b, ByAccept(pay, Claim(a, b)));
        }
      }
    }
  }

  lemma AdjustKeepsSound(l: Ledger, pay: AdjustPayload, day: Day)
    requires Sound(l)
    ensures Sound(AdjustSpec(l, pay, day).0)
  {
    hide PostSpec, Gains, ByAdjustment, Debt, ValidLedger, Seeded, PostAll, AdjustRef;
    PostedKeepsValid(l, Plain(AdjustRef(pay)), AdjustBooks(l.chart, pay), None, day);
    if AdjustSpec(l, pay, day).1.None? {
      forall tx, a, b
        ensures Debt(AdjustSpec(l, pay, day).0.journal, tx, a, b) == 0.0
      {
        AdjustMoves(l, pay, day, Claim(a, b));
        AdjustMoves(l, pay, day, Owing(a, b));
        AdjustNeutral(pay, a, b);
        GainsKeepMirror(l, AdjustSpec(l, pay, day).0, tx, a, b, ByAdjustment(pay, Claim(a, b)));
      }
    }
  }

  lemma PaymentKeepsSound(l: Ledger, t: Table, id: nat, team: TeamId, day: Day)
    requires Sound(l)
    ensures Sound(Payments.AcceptSpec(l, t, id, team, day).0)
  {
    hide PostSpec, Gains, Paid, Debt, ValidLedger, Seeded, PostAll, PaymentRef;
    if id in t.rows {
      PostedKeepsValid(l, Plain(PaymentRef(id)), PaymentBooks(l.chart, t.rows[id]), None, day);
      if Payments.AcceptSpec(l, t, id, team, day).2.None? {
        forall tx, a, b
          ensures Debt(Payments.AcceptSpec(l, t, id, team, day).0.journal, tx, a, b) == 0.0
        {
          PaymentMoves(l, t, id, team, day, Claim(a, b));
          PaymentMoves(l, t, id, team, day, Owing(a, b));
          PaymentNeutral(t.rows[id], a, b);
          GainsKeepMirror(l, Payments.AcceptSpec(l, t, id, team, day).0, tx, a, b, Paid(t.rows[id], Claim(a, b)));
        }
      }
    }
  }

  lemma StepKeepsSound(w: World, a: Action)
    requires Sound(w.ledger) && Legal(w, a)
    ensures Sound(Step(w, a).ledger)
  {
    hide Sound, Payments.AcceptSpec, Acceptance.AcceptSpec, AdjustSpec, OnOrderSpec, CancelSpec;
    match a
    case CreateOrder(order, day) => OrderKeepsSound(w.ledger, order, day);
    case CancelOrder(id, teams, day) => CancelKeepsSound(w.ledger, id, teams, day);
    case AcceptGoods(goods, day) => AcceptKeepsSound(w.ledger, goods, day);
    case AdjustStock(adjustment, day) => AdjustKeepsSound(w.ledger, adjustment, day);
    case AcceptPayment(id, team, day) => PaymentKeepsSound(w.ledger, w.payments, id, team, day);
    case _ =>
  }

  lemma {:induction false} RunKeepsSound(w: World, actions: seq<Action>)
    requires Sound(w.ledger) && LegalRun(w, actions)
    ensures Sound(Run(w, actions).ledger)
    decreases |actions|
  {
    if actions != [] {
      var init := actions[..|actions| - 1];
      RunKeepsSound(w, init);
      StepKeepsSound(Run(w, init), actions[|actions| - 1]);
    }
  }

  // ---- from transactions to balances ----------------------------------------------------

  ghost function RowTx(): Row -> TxId { (r: Row) => r.tx }

  ghost function NetIn(j: multiset<Row>, team: TeamId, a: AccountRef): TxId -> real {
    (tx: TxId) => Net(j, tx, team, a)
  }

  /** A balance is the total of the transactions' nets. */
  lemma BalanceIsNets(j: multiset<Row>, team: TeamId, a: AccountRef, txs: set<TxId>)
    requires forall r :: r in j ==> r.tx in txs
    ensures BookBalance(j, team, a) == Sum(multiset(txs), NetIn(j, team, a))
  {
    SumByGroup(j, Raw(InBook(team, a)), RowTx(), txs);
    forall tx | tx in txs
      ensures GroupTotal(j, Raw(InBook(team, a)), RowTx())(tx) == NetIn(j, team, a)(tx)
    {
      SumSame(j, Group(Raw(InBook(team, a)), RowTx(), tx), Raw(At(tx, team, a)));
    }
    SumSame(multiset(txs), GroupTotal(j, Raw(InBook(team, a)), RowTx()), NetIn(j, team, a));
  }

  lemma MirroredBalances(j: multiset<Row>, a: TeamId, b: TeamId)
    requires forall tx :: Debt(j, tx, a, b) == 0.0
    ensures NetReceivable(j, a, b) == NetPayable(j, b, a)
  {
    var txs := set r | r in j :: r.tx;
    var recv, pay := NetIn(j, a, AccountRef(Receivable, b)), NetIn(j, b, AccountRef(Payable, a));
    BalanceIsNets(j, a, AccountRef(Receivable, b), txs);
    BalanceIsNets(j, b, AccountRef(Payable, a), txs);
    var sum := (tx: TxId) => Debt(j, tx, a, b);
    SumPlus(multiset(txs), recv, pay, sum);
    SumZero(multiset(txs), sum);
  }

  /** Debt mirror: in every state that a run reaches, for all teams, what one has to receive from the other is what
      the other has to pay to it. */
  lemma {:induction false} DebtsAreMirrored(w: World, actions: seq<Action>, a: TeamId, b: TeamId)
    requires ValidLedger(w.ledger) && Seeded(w.ledger.chart) && w.ledger.journal == multiset{} && LegalRun(w, actions)
    ensures var j := Run(w, actions).ledger.journal; NetReceivable(j, a, b) == NetPayable(j, b, a)
  {
    assert Sound(w.ledger);
    RunKeepsSound(w, actions);
    var j := Run(w, actions).ledger.journal;
    assert forall tx :: Debt(j, tx, a, b) == 0.0;
    MirroredBalances(j, a, b);
  }

  // ---- payments and the journal ---------------------------------------------------------

  /** The accepted payments are exactly the booked ones. */
  ghost predicate PaymentsBooked(w: World) {
    && (forall id :: id in w.payments.rows ==> id < w.payments.nextId)
    && (forall id :: PaymentRef(id) in w.ledger.txs <==>
          id in w.payments.rows && w.payments.rows[id].status == Accepted)
  }

  /** Booking under another reference adds no payment reference. */
  lemma OtherRef(l: Ledger, c: Creation, bs: seq<Book>, tail: Option<Error>, day: Day, t: References.RefType, n: nat,
                 id: nat)
    requires c.ref == NewRefID(t, n) && t != References.Payment
    ensures PaymentRef(id) in PostSpec(l, c, bs, tail, day).0.txs <==> PaymentRef(id) in l.txs
  {
    PostAddsRef(l, c, bs, tail, day);
    NumberedRefsInjective(t, n, References.Payment, id);
  }

  lemma LedgerStepRefs(w: World, a: Action, id: nat)
    requires a.CreateOrder? || a.AcceptGoods? || a.AdjustStock? || a.CancelOrder?
    requires Sound(w.ledger) && Legal(w, a)
    ensures PaymentRef(id) in Step(w, a).ledger.txs <==> PaymentRef(id) in w.ledger.txs
  {
    hide PostSpec, PaymentRef, RollbackSpec, Sound;
    match a
    case CreateOrder(pay, day) =>
      OtherRef(w.ledger, OrderCreation(pay), OrderBooks(w.ledger.chart, pay), AdditionalError(pay), day,
               References.Order, pay.orderId, id);
    case CancelOrder(orderId, teams, day) => CancelKeepsSound(w.ledger, orderId, teams, day);
    case AcceptGoods(pay, day) => AcceptRefs(w.ledger, pay, day, id);
    case AdjustStock(pay, day) =>
      OtherRef(w.ledger, Plain(AdjustRef(pay)), AdjustBooks(w.ledger.chart, pay), None, day,
               References.StockAdjustment, pay.extTxId, id);
  }

  lemma AcceptRefs(l: Ledger, pay: AcceptPayload, day: Day, id: nat)
    ensures PaymentRef(id) in Acceptance.AcceptSpec(l, pay, day).0.txs <==> PaymentRef(id) in l.txs
  {
    hide PostSpec, PaymentRef, ExtPriceFee;
    if AcceptRef(pay).Some? && ExtPriceFee(pay).Some? {
      var t := match pay.source
        case FromRestock => StockAccept
        case FromReturn => StockReturnAccept
        case _ => StockTransferAccept;
      OtherRef(l, AcceptCreation(AcceptRef(pay).value, pay), AcceptBooks(l.chart, pay, ExtPriceFee(pay).value), None,
               day, t, pay.extTxId, id);
    }
  }

  lemma PaymentStepBooked(w: World, id: nat, team: TeamId, day: Day)
    requires PaymentsBooked(w)
    ensures PaymentsBooked(Step(w, AcceptPayment(id, team, day)))
  {
    hide PostSpec, PaymentRef;
    if DecideError(w.payments, id, team, To()).None? {
      PostAddsRef(w.ledger, Plain(PaymentRef(id)), PaymentBooks(w.ledger.chart, w.payments.rows[id]), None, day);
      forall other
        ensures PaymentRef(other) == PaymentRef(id) <==> other == id
      {
        PaymentRefInjective(other, id);
      }
    }
  }

  lemma PaymentRefInjective(id: nat, other: nat)
    ensures PaymentRef(id) == PaymentRef(other) <==> id == other
  {
    NumberedRefsInjective(References.Payment, id, References.Payment, other);
  }

  lemma StepKeepsBooked(w: World, a: Action)
    requires Sound(w.ledger) && Legal(w, a) && PaymentsBooked(w)
    ensures PaymentsBooked(Step(w, a))
  {
    hide Sound, PaymentRef, Payments.AcceptSpec, Acceptance.AcceptSpec, AdjustSpec, OnOrderSpec, CancelSpec;
    match a
    case AcceptPayment(id, team, day) => PaymentStepBooked(w, id, team, day);
    case MakePayment(_, _, _) =>
    case RejectPayment(_, _) =>
    case CancelPayment(_, _) =>
    case _ =>
      forall id
        ensures PaymentRef(id) in Step(w, a).ledger.txs <==> PaymentRef(id) in w.ledger.txs
      {
        LedgerStepRefs(w, a, id);
      }
  }

  lemma {:induction false} RunKeepsBooked(w: World, actions: seq<Action>)
    requires Sound(w.ledger) && PaymentsBooked(w) && LegalRun(w, actions)
    ensures PaymentsBooked(Run(w, actions))
    decreases |actions|
  {
    if actions != [] {
      var init := actions[..|actions| - 1];
      RunKeepsBooked(w, init);
      RunKeepsSound(w, init);
      StepKeepsBooked(Run(w, init), actions[|actions| - 1]);
    }
  }

  /** In every reachable state the status guard stands in for the unique reference: a pending payment of the team
      is accepted exactly when it is not zero and its accounts exist. */
  lemma PendingPaymentGoesThrough(w: World, actions: seq<Action>, id: nat, team: TeamId, day: Day)
    requires Sound(w.ledger) && PaymentsBooked(w) && LegalRun(w, actions)
    requires var v := Run(w, actions);
             id in v.payments.rows && v.payments.rows[id].to == team && v.payments.rows[id].status == Pending
    ensures var v := Run(w, actions);
            Payments.AcceptSpec(v.ledger, v.payments, id, team, day).2.None? <==>
            v.payments.rows[id].amount != 0.0 && Payments.AccountsFound(v.ledger.chart, v.payments.rows[id])
  {
    RunKeepsSound(w, actions);
    RunKeepsBooked(w, actions);
    var v := Run(w, actions);
    PaymentAcceptedExactlyWhen(v.ledger, v.payments, id, team, day);
  }

  lemma StepKeepsDecided(w: World, a: Action, id: nat)
    requires id in w.payments.rows && id < w.payments.nextId && w.payments.rows[id].status != Pending
    ensures var t := Step(w, a).payments;
            id in t.rows && id < t.nextId && t.rows[id] == w.payments.rows[id]
  {
    hide PostSpec, Acceptance.AcceptSpec, AdjustSpec, OnOrderSpec, CancelSpec, PaymentRef;
    match a
    case AcceptPayment(_, team, day) => DecidedOnce(w.ledger, w.payments, id, team, day);
    case _ =>
  }

  /** A decision is final: over every run a payment that was accepted, rejected or cancelled keeps its status and
      amount. */
  lemma {:induction false} DecidedForever(w: World, actions: seq<Action>, id: nat)
    requires id in w.payments.rows && id < w.payments.nextId && w.payments.rows[id].status != Pending
    ensures var t := Run(w, actions).payments;
            id in t.rows && id < t.nextId && t.rows[id] == w.payments.rows[id]
    decreases |actions|
  {
    if actions != [] {
      DecidedForever(w, actions[..|actions| - 1], id);
      StepKeepsDecided(Run(w, actions[..|actions| - 1]), actions[|actions| - 1], id);
    }
  }

  /** A payment of a debt, from start to end: made by one team and accepted by the other, it takes its amount off what
      they owe each other and brings the receiver's cash up by it; it is then accepted for good. */
  lemma PaidDebt(w: World, from: TeamId, to: TeamId, amount: real, day: Day)
    requires Sound(w.ledger) && PaymentsBooked(w)
    ensures var id := w.payments.nextId;
            var w' := Run(w, [MakePayment(from, to, amount), AcceptPayment(id, to, day)]);
            var j, j' := w.ledger.journal, w'.ledger.journal;
            && id !in w.payments.rows && id in w'.payments.rows
            && (w'.payments.rows[id].status == Accepted <==>
                  amount != 0.0 && AccountRef(Cash, to) in w.ledger.chart && AccountRef(Payable, to) in w.ledger.chart
                  && AccountRef(Receivable, from) in w.ledger.chart)
            && (w'.payments.rows[id].status == Accepted ==>
                  && NetReceivable(j', to, from) == NetReceivable(j, to, from) - amount
                  && NetPayable(j', from, to) == NetPayable(j, from, to) - amount
                  && (from != to ==> BookBalance(j', to, AccountRef(Cash, to)) ==
                                     BookBalance(j, to, AccountRef(Cash, to)) + amount))
            && (w'.payments.rows[id].status != Accepted ==> w'.ledger == w.ledger)
  {
    hide Payments.AcceptSpec, ValidLedger, PaymentRef, Mirrored;
    var id, l := w.payments.nextId, w.ledger;
    var t := Payments.CreateSpec(w.payments, from, to, amount);
    RunOfTwo(w, MakePayment(from, to, amount), AcceptPayment(id, to, day));
    AcceptKeepsTable(l, t, id, to, day);
    PaymentAcceptedExactlyWhen(l, t, id, to, day);
    FoundFour(l.chart, t.rows[id]);
    hide AccountsFound, Seeded;
    if Payments.AcceptSpec(l, t, id, to, day).2.None? {
      PaymentSettlesDebt(l, t, id, to, day, to, from);
      PaymentMoves(l, t, id, to, day, Cell(to, Cash, to));
    }
  }

  lemma RunOfTwo(w: World, a: Action, b: Action)
    ensures Run(w, [a, b]) == Step(Step(w, a), b)
  {
    assert [a, b][..1] == [a] && [a][..0] == [];
    assert Run(w, [a]) == Step(Run(w, []), a);
  }

  /** Accepting gives the payment its status, or changes neither table nor ledger. */
  lemma AcceptKeepsTable(l: Ledger, t: Table, id: nat, team: TeamId, day: Day)
    requires id in t.rows
    ensures var (l', t', e) := Payments.AcceptSpec(l, t, id, team, day);
            && id in t'.rows
            && (e.None? ==> t'.rows[id] == t.rows[id].(status := Accepted))
            && (e.Some? ==> l' == l && t' == t)
  {
    hide PostSpec, Accepts;
    PostAccepted(l, Plain(PaymentRef(id)), PaymentBooks(l.chart, t.rows[id]), None, day);
  }

  lemma FoundFour(chart: Chart, p: Payment)
    ensures AccountsFound(chart, p) <==>
      AccountRef(Cash, p.to) in chart && AccountRef(Payable, p.to) in chart && AccountRef(Receivable, p.from) in chart
  {
    var s, r := SenderPosts(p), ReceiverPosts(p);
    assert s[0] in s && s[1] in s && r[0] in r && r[1] in r;
  }

  /** A payment is rejected exactly by its receiver and cancelled exactly by its sender, while it is pending; nothing is
      booked, and no other payment changes. */
  lemma DecidedExactlyWhen(w: World, id: nat, team: TeamId)
    ensures var t, w' := w.payments, Step(w, RejectPayment(id, team));
            && w'.ledger == w.ledger
            && w'.payments == if id in t.rows && t.rows[id].to == team && t.rows[id].status == Pending
                              then t.(rows := t.rows[id := t.rows[id].(status := Rejected)]) else t
    ensures var t, w' := w.payments, Step(w, CancelPayment(id, team));
            && w'.ledger == w.ledger
            && w'.payments == if id in t.rows && t.rows[id].from == team && t.rows[id].status == Pending
                              then t.(rows := t.rows[id := t.rows[id].(status := Canceled)]) else t
  {
  }
}

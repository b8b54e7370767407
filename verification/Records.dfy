/** What a booked call leaves on record: its reference and its labels; and that a call made again books nothing more. */
module Records {
  import opened Accounts
  import opened Journal
  import opened Books
  import opened Rollback
  import opened Equation
  import opened References
  import opened Orders
  import opened Inbound
  import opened Register
  import opened Calls
  import Acceptance
  import Payments
  import Revenue
  import Replay

  /** A type and an identifier. */
  datatype Record = Record(kind: RefType, id: string)

  function RefOf(r: Record): RefId { NewStringRefID(r.kind, r.id) }

  /** What a call is recorded as; an update and a cancelling work on what is there. */
  function RecordedAs(call: Call): Option<Record>
    requires call.EventCall? ==> Revenue.Recordable(call.event)
  {
    match call
    case OrderCall(pay, _) => Some(Record(References.Order, Decimal(pay.orderId)))
    case EventCall(_, shop, e, _) =>
      Some(if e.Fund? then Record(OrderFund, e.orderId)
           else if e.Withdrawal? then Record(References.Withdrawal, Decimal(shop) + "#" + SignedDecimal(e.at))
           else if Replay.DashesAndSpaces(e.orderId)
           then Record(References.Adjustment, Decimal(shop) + "#" + SignedDecimal(e.at))
           else Record(References.Adjustment, e.orderId))
    case RestockCall(pay, _, _) => Some(Record(Restock, Decimal(pay.extTxId)))
    case GoodsCall(pay, _) =>
      (match pay.source
       case FromRestock => Some(Record(StockAccept, Decimal(pay.extTxId)))
       case FromReturn => Some(Record(StockReturnAccept, Decimal(pay.extTxId)))
       case FromTransfer => Some(Record(StockTransferAccept, Decimal(pay.extTxId)))
       case OtherSource => None)
    case AdjustCall(pay, _) => Some(Record(References.StockAdjustment, Decimal(pay.extTxId)))
    case PaymentCall(_, id, _, _) => Some(Record(References.Payment, Decimal(id)))
    case _ => None
  }

  /** The shop a call is labelled with, and its tags. */
  function LabelledWith(call: Call): (Option<nat>, seq<string>) {
    match call
    case OrderCall(pay, _) => (Some(pay.shop), pay.tags)
    case EventCall(_, shop, e, _) => (Some(shop), if e.Adjustment? then e.tags else [])
    case RestockCall(_, tags, _) => (None, tags)
    case GoodsCall(pay, _) => (None, pay.tags)
    case _ => (None, [])
  }

  /** The call opens a transaction, and it is accepted. */
  ghost predicate Opens(l: Ledger, call: Call) {
    LegalCall(l, call) && ActOf(l, call).Some? && ActOf(l, call).value.Open?
    && Step(l, ActOf(l, call).value).1.None?
  }

  lemma OpenedCreation(l: Ledger, call: Call)
    requires LegalCall(l, call)
    ensures ActOf(l, call).Some? && ActOf(l, call).value.Open? ==>
      && RecordedAs(call).Some?
      && ActOf(l, call).value.creation ==
         Creation(RefOf(RecordedAs(call).value), LabelledWith(call).0, LabelledWith(call).1)
  {
    hide PostSpec, OrderBooks, UpdateBooks;
    match call
    case EventCall(_, shop, e, _) => if e.Adjustment? { Replay.AdjustmentNaming(e.orderId); }
    case _ =>
  }

  /** A booked call is recorded under the one reference that its kind and identifier determine, which was new, with the
      next number; the tags that exist are the old ones, the call's, and the one of its shop's marketplace. */
  lemma BookedUnder(l: Ledger, call: Call)
    requires LegalCall(l, call)
    ensures Opens(l, call) ==>
      && RecordedAs(call).Some?
      && var ref, l' := RefOf(RecordedAs(call).value), Effect(l, call);
         var (shop, tags) := LabelledWith(call);
         && ref !in l.txs && l'.txs == l.txs[ref := l.nextTx] && l'.nextTx == l.nextTx + 1
         && (shop.Some? ==> shop.value != 0 && shop.value in l.shops)
         && l'.tags == l.tags + (if shop.Some? then {l.shops[shop.value]} else {}) + set tag | tag in tags
         && l'.chart == l.chart && l'.shops == l.shops
  {
    hide Effect, ActOf, RecordedAs, LabelledWith, PostSpec;
    OpenedCreation(l, call);
    CallIsAct(l, call);
    if Opens(l, call) {
      var act := ActOf(l, call).value;
      OpenedLedger(l, act.creation, act.books, act.tail, act.day);
    }
  }

  lemma OpenedLedger(l: Ledger, c: Creation, bs: seq<Book>, tail: Option<Error>, day: Day)
    requires PostSpec(l, c, bs, tail, day).1.None?
    ensures var l' := PostSpec(l, c, bs, tail, day).0;
            && CreateError(l, c).None?
            && l'.txs == l.txs[c.ref := l.nextTx] && l'.nextTx == l.nextTx + 1
            && l'.tags == KnownTags(l, c.shop) + (set tag | tag in c.tags)
            && l'.chart == l.chart && l'.shops == l.shops
  {
    hide OpenSpec, Accepts, CreateError;
    TransactionEffect(l, WithTransaction(l, c), l.nextTx, bs, tail, day);
  }

  /** Two calls with one reference are of the same kind: goods received are told apart by their source too. */
  lemma RecordsNeverMix(call: Call, other: Call)
    requires !call.EventCall? && !other.EventCall?
    requires RecordedAs(call).Some? && RecordedAs(other).Some?
    requires RefOf(RecordedAs(call).value) == RefOf(RecordedAs(other).value)
    ensures (call.OrderCall? <==> other.OrderCall?) && (call.RestockCall? <==> other.RestockCall?)
    ensures (call.GoodsCall? <==> other.GoodsCall?) && (call.AdjustCall? <==> other.AdjustCall?)
    ensures (call.PaymentCall? <==> other.PaymentCall?)
    ensures call.OrderCall? ==> call.order.orderId == other.order.orderId
    ensures call.RestockCall? ==> call.restock.extTxId == other.restock.extTxId
    ensures call.GoodsCall? ==> call.goods.source == other.goods.source && call.goods.extTxId == other.goods.extTxId
    ensures call.AdjustCall? ==> call.adjustment.extTxId == other.adjustment.extTxId
    ensures call.PaymentCall? ==> call.id == other.id
  {
    var r, s := RecordedAs(call).value, RecordedAs(other).value;
    RefsDetermineTypeAndId(r.kind, r.id, s.kind, s.id);
    DecimalInjective(NumberOf(call), NumberOf(other));
  }

  function NumberOf(call: Call): nat {
    match call
    case OrderCall(pay, _) => pay.orderId
    case RestockCall(pay, _, _) => pay.extTxId
    case GoodsCall(pay, _) => pay.extTxId
    case AdjustCall(pay, _) => pay.extTxId
    case PaymentCall(_, id, _, _) => id
    case _ => 0
  }

  /** A call that opens nothing, or is refused, changes nothing. */
  lemma NotOpened(l: Ledger, call: Call)
    requires LegalCall(l, call) && !call.UpdateCall? && !call.CancelCall? && !Opens(l, call)
    ensures Effect(l, call) == l
  {
    CallIsAct(l, call);
    hide Effect, LegalCall, PostSpec, OrderBooks;
    if ActOf(l, call).Some? {
      var act := ActOf(l, call).value;
      PostAccepted(l, act.creation, act.books, act.tail, act.day);
    }
  }

  /** A call whose reference is recorded changes nothing. */
  lemma RecordedCall(l: Ledger, call: Call)
    requires LegalCall(l, call) && RecordedAs(call).Some? && RefOf(RecordedAs(call).value) in l.txs
    ensures Effect(l, call) == l
  {
    if Opens(l, call) {
      BookedUnder(l, call);
    }
    hide RecordedAs;
    NotOpened(l, call);
  }

  /** Every call but an update can be made again at no harm: it books nothing more, however often it is sent. */
  lemma SentTwice(l: Ledger, call: Call)
    requires ValidLedger(l) && LegalCall(l, call) && LegalCall(Effect(l, call), call) && !call.UpdateCall?
    ensures Effect(Effect(l, call), call) == Effect(l, call)
  {
    if call.CancelCall? {
      CancelledTwice(l, call.orderId, call.teams, call.day);
    } else if Opens(l, call) {
      BookedUnder(l, call);
      RecordedCall(Effect(l, call), call);
    } else {
      NotOpened(l, call);
    }
  }

  lemma CancelledTwice(l: Ledger, orderId: nat, teams: seq<TeamId>, day: Day)
    requires ValidLedger(l) && LegalCall(l, CancelCall(orderId, teams, day))
    requires LegalCall(CancelSpec(l, orderId, teams, day).0, CancelCall(orderId, teams, day))
    ensures var l' := CancelSpec(l, orderId, teams, day).0; CancelSpec(l', orderId, teams, day).0 == l'
  {
    hide RollbackSpec, OrderRef, ValidLedger, Enumerates;
    if OrderRef(orderId) in l.txs {
      var tx := l.txs[OrderRef(orderId)];
      RollbackAccepted(l, tx, teams, day);
      if RollbackSpec(l, tx, teams, day).1.None? { SecondRollbackRefused(l, tx, teams, day, teams, day); }
    }
  }

  /** How a call is answered whose reference is taken: an order is reported as done, whatever else its payload says, and
      so is an event; every other booking is refused as existing. Nothing changes. */
  lemma TakenAnswer(l: Ledger, call: Call)
    requires LegalCall(l, call) && RecordedAs(call).Some? && !call.PaymentCall?
    requires RefOf(RecordedAs(call).value) in l.txs
    ensures match call
            case OrderCall(pay, day) => OnOrderSpec(l, pay, day) == (l, None)
            case EventCall(team, shop, e, day) => Revenue.EventSpec(l, team, shop, e, day) == (l, None)
            case RestockCall(pay, tags, day) => CreateSpec(l, pay, tags, day) == (l, Some(TransactionAlreadyExist))
            case GoodsCall(pay, day) => Acceptance.AcceptSpec(l, pay, day) == (l, Some(TransactionAlreadyExist))
            case AdjustCall(pay, day) => Acceptance.AdjustSpec(l, pay, day) == (l, Some(TransactionAlreadyExist))
            case _ => true
  {
    hide OpenSpec, OrderBooks, Acceptance.ExtPriceFee, Acceptance.AcceptBooks, Acceptance.AdjustBooks, CreatePosts;
    match call
    case EventCall(_, shop, e, _) => if e.Adjustment? { Replay.AdjustmentNaming(e.orderId); }
    case _ =>
  }
}

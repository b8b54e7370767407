/** What a booking lets one team claim from another, the other comes to owe it: orders, goods acceptance, stock
    adjustments and payments, between every two teams. */
module DebtMirror {
  import opened Accounts
  import opened Journal
  import opened Books
  import opened Nets
  import opened Orders
  import opened Acceptance
  import opened Payments
  import opened Effects
  import opened OrderEffects
  import opened StockEffects
  import opened PaymentEffects

  /** What a has to receive from b, in its book, and what b has to pay to a, in b's. */
  function Claim(a: TeamId, b: TeamId): Cell { Cell(a, Receivable, b) }
  function Owing(a: TeamId, b: TeamId): Cell { Cell(b, Payable, a) }

  lemma {:induction false} BorrowsNeutral(pay: OrderPayload, borrows: seq<Borrow>, a: TeamId, b: TeamId)
    ensures ByBorrows(pay, borrows, Claim(a, b)) == ByBorrows(pay, borrows, Owing(a, b))
    decreases |borrows|
  {
    if borrows != [] {
      BorrowsNeutral(pay, borrows[..|borrows| - 1], a, b);
    }
  }

  /** The fee and the borrowings of an order, and nothing else of it, are debts, and they meet. */
  lemma OrderNeutral(pay: OrderPayload, a: TeamId, b: TeamId)
    ensures ByOrder(pay, Claim(a, b)) == ByOrder(pay, Owing(a, b))
  {
    hide ByBorrows;
    BorrowsNeutral(pay, pay.borrows, a, b);
    assert ByFee(pay, Claim(a, b)) == ByFee(pay, Owing(a, b));
    assert ByAdditional(pay, Claim(a, b)) == 0.0 == ByAdditional(pay, Owing(a, b));
  }

  /** The courier's fee of an acceptance. */
  lemma AcceptNeutral(pay: AcceptPayload, a: TeamId, b: TeamId)
    ensures ByAccept(pay, Claim(a, b)) == ByAccept(pay, Owing(a, b))
  {
    hide TotalOf, PerItem, GoodsWorth;
  }

  /** The charges of an adjustment. */
  lemma AdjustNeutral(pay: AdjustPayload, a: TeamId, b: TeamId)
    ensures ByAdjustment(pay, Claim(a, b)) == ByAdjustment(pay, Owing(a, b))
  {
    hide TotalOf;
  }

  /** The amount of a payment. */
  lemma PaymentNeutral(p: Payment, a: TeamId, b: TeamId)
    ensures Paid(p, Claim(a, b)) == Paid(p, Owing(a, b))
  {
  }
}

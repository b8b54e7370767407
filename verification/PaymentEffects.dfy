/** What an accepted payment moves: the debt it settles and the cash of both teams. */
module PaymentEffects {
  import opened Accounts
  import opened Journal
  import opened Books
  import opened Nets
  import opened Rollback
  import opened Moves
  import opened Payments
  import opened Effects

  /** The sender's cash and what it owes go down, and so does what the receiver claims; the receiver's cash goes up. */
  function Paid(p: Payment, c: Cell): real {
    On(c, Cell(p.from, Cash, p.to), -p.amount) + On(c, Cell(p.from, Payable, p.to), -p.amount)
    + On(c, Cell(p.to, Receivable, p.from), -p.amount) + On(c, Cell(p.to, Cash, p.to), p.amount)
  }

  /** An accepted payment takes its amount off the sender's cash and off what it owes the receiver, off what the
      receiver claims from the sender, and adds it to the receiver's cash; no other account of any book moves. */
  lemma PaymentMoves(l: Ledger, t: Table, id: nat, team: TeamId, day: Day, c: Cell)
    requires ValidLedger(l) && Seeded(l.chart)
    ensures var (l', _, e) := Payments.AcceptSpec(l, t, id, team, day);
            e.None? ==>
              && id in t.rows && t.rows[id].to == team
              && Gains(l, l', l.nextTx, c, Paid(t.rows[id], c))
  {
    hide PostSpec, Accepts, PaymentRef, BooksMove, PostBook, Seeded, ValidLedger, AllPass, Gains;
    if id in t.rows {
      var p := t.rows[id];
      var bs, s, r := PaymentBooks(l.chart, p), SenderPosts(p), ReceiverPosts(p);
      if AllPass(bs, l.nextTx, day) { TwoMove(l.chart, p.from, s, p.to, r, l.nextTx, day, c); }
      MovedTwo(s[0], s[1], Account(c));
      MovedTwo(r[0], r[1], Account(c));
      assert s == [s[0], s[1]] && r == [r[0], r[1]];
      PostGains(l, Plain(PaymentRef(id)), bs, None, day, c, Paid(p, c));
    }
  }

  /** Paying settles a debt: an accepted payment lowers what the receiver claims from the sender, and what the sender
      owes the receiver, by exactly its amount, and moves nothing that two other teams claim or owe. */
  lemma PaymentSettlesDebt(l: Ledger, t: Table, id: nat, team: TeamId, day: Day, a: TeamId, b: TeamId)
    requires ValidLedger(l) && Seeded(l.chart)
    ensures var (l', _, e) := Payments.AcceptSpec(l, t, id, team, day);
            e.None? ==>
              && id in t.rows
              && var paid := if a == t.rows[id].to && b == t.rows[id].from then t.rows[id].amount else 0.0;
                 && NetReceivable(l'.journal, a, b) == NetReceivable(l.journal, a, b) - paid
                 && NetPayable(l'.journal, b, a) == NetPayable(l.journal, b, a) - paid
  {
    hide Payments.AcceptSpec, ValidLedger, Seeded;
    PaymentMoves(l, t, id, team, day, Cell(a, Receivable, b));
    PaymentMoves(l, t, id, team, day, Cell(b, Payable, a));
  }
}

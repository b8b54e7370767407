/** When a revenue event is recorded: over a seeded chart, exactly for a new reference, an existing shop, tags that
    repeat no new one, a nonzero amount and existing accounts. */
module EventAcceptance {
  import opened Accounts
  import opened Journal
  import opened Books
  import opened Nets
  import opened Rollback
  import opened Balanced
  import opened Revenue
  import opened Moves
  import opened Effects
  import opened EventEffects

  lemma DiffSigned(chart: Chart, team: TeamId, diff: real)
    requires Seeded(chart) && Found(chart, DiffPosts(team, diff))
    ensures Signed(chart, DiffPosts(team, diff)) == 0.0
  {
    hide Seeded, Found, Signed;
    if diff == 0.0 {
      SignedNone(chart);
    } else {
      SignedPair(chart, DiffPosts(team, diff)[0], DiffPosts(team, diff)[1]);
    }
  }

  lemma FundSigned(chart: Chart, team: TeamId, est: real, amount: real)
    requires Seeded(chart) && Found(chart, FundPosts(team, est, amount))
    ensures Signed(chart, FundPosts(team, est, amount)) == 0.0
  {
    hide Seeded, Found, Signed, DiffPosts;
    if amount < 0.0 {
      var p := Post(Own(SellingReturnExpense, team), Abs(amount));
      if est == 0.0 {
        SignedPair(chart, p, Post(Own(SellingAdjReceivable, team), -Abs(amount)));
      } else {
        var q := Post(Own(SellingReceivable, team), -Abs(amount));
        FoundParts(chart, [p, q], DiffPosts(team, est - Abs(amount)));
        SignedConcat(chart, [p, q], DiffPosts(team, est - Abs(amount)));
        SignedPair(chart, p, q);
        DiffSigned(chart, team, est - Abs(amount));
      }
    } else if amount > 0.0 {
      DiffSigned(chart, team, est - amount);
    } else {
      SignedNone(chart);
    }
  }

  /** The book of an event balances exactly. */
  lemma EventSigned(chart: Chart, team: TeamId, e: Event)
    requires Seeded(chart) && Recordable(e) && Found(chart, EventPosts(team, e))
    ensures Signed(chart, EventPosts(team, e)) == 0.0
  {
    hide Seeded, Found, Signed, FundPosts;
    match e
    case Fund(_, est, amount) => FundSigned(chart, team, est, amount);
    case Withdrawal(_, amount) =>
      SignedPair(chart, WithdrawalPosts(team, amount)[0], WithdrawalPosts(team, amount)[1]);
    case Adjustment(_, _, amount, _) =>
      if amount == 0.0 {
        SignedNone(chart);
      } else {
        SignedPair(chart, AdjustmentPosts(team, amount)[0], AdjustmentPosts(team, amount)[1]);
      }
  }

  /** A return against an estimate moves the expense, the receivable by the estimate, and the adjustment by the rest. */
  lemma ReturnMoves(team: TeamId, est: real, amount: real)
    requires amount < 0.0 && est != 0.0
    ensures AllMove(FundPosts(team, est, amount))
  {
    hide Moved;
    forall p | p in FundPosts(team, est, amount)
      ensures Moved(FundPosts(team, est, amount), p.account) != 0.0
    {
      FundMoved(team, Fund("", est, amount), Cell(team, p.account.key, p.account.team));
    }
  }

  lemma FundAllMove(team: TeamId, est: real, amount: real)
    requires !Close(est, amount)
    ensures AllMove(FundPosts(team, est, amount))
  {
    hide AllMove;
    if amount < 0.0 {
      if est == 0.0 {
        PairMoves(FundPosts(team, est, amount)[0], FundPosts(team, est, amount)[1]);
      } else {
        ReturnMoves(team, est, amount);
      }
    } else if amount > 0.0 {
      PairMoves(FundPosts(team, est, amount)[0], FundPosts(team, est, amount)[1]);
    } else {
      NoneMove();
    }
  }

  lemma EventAllMove(team: TeamId, e: Event)
    requires Recordable(e) && (e.Fund? ==> !Close(e.est, e.amount)) && (e.Withdrawal? ==> e.amount != 0.0)
    ensures AllMove(EventPosts(team, e))
  {
    hide AllMove, FundPosts;
    match e
    case Fund(_, est, amount) => FundAllMove(team, est, amount);
    case Withdrawal(_, amount) => PairMoves(WithdrawalPosts(team, amount)[0], WithdrawalPosts(team, amount)[1]);
    case Adjustment(_, _, amount, _) =>
      if amount == 0.0 {
        NoneMove();
      } else {
        PairMoves(AdjustmentPosts(team, amount)[0], AdjustmentPosts(team, amount)[1]);
      }
  }

  lemma EventNonzero(team: TeamId, e: Event)
    requires Recordable(e) && (e.Fund? ==> !Close(e.est, e.amount))
    ensures EventPosts(team, e) != [] && Nonzero(EventPosts(team, e)) <==> e.amount != 0.0
    ensures e.Withdrawal? && e.amount == 0.0 ==> !Nonzero(EventPosts(team, e))
  {
    var ps := EventPosts(team, e);
    if ps != [] { assert ps[0] in ps; }
  }

  /** An event that is not skipped is booked exactly when its shop exists, its tags repeat no new one, its amount is not
      zero and the accounts it touches exist. */
  lemma EventBookedExactlyWhen(l: Ledger, team: TeamId, shop: nat, e: Event, day: Day)
    requires Seeded(l.chart) && Recordable(e) && !Skips(l, shop, e)
    ensures EventSpec(l, team, shop, e, day).1.None? <==>
      && shop != 0 && shop in l.shops && (e.Adjustment? ==> !RepeatsNewTag(l.tags + {l.shops[shop]}, e.tags))
      && e.amount != 0.0 && Found(l.chart, EventPosts(team, e))
  {
    hide PostSpec, Accepts, EventPosts, EventRef, AllMove, Nonzero, Found, Signed, Seeded, PostBook, NoneFails;
    var ps := EventPosts(team, e);
    EventNonzero(team, e);
    if e.Withdrawal? ==> e.amount != 0.0 { EventAllMove(team, e); }
    if Found(l.chart, ps) { EventSigned(l.chart, team, e); }
    SeededPostErrors(l.chart, ps);
    SingleAccepts(l.chart, team, ps, l.nextTx, day);
    PostAccepted(l, EventCreation(shop, e), [PostBook(l.chart, team, ps)], None, day);
    EventCreated(l, shop, e);
  }

  /** A creation of an event is refused for its shop or its tags only. */
  lemma EventCreated(l: Ledger, shop: nat, e: Event)
    requires Recordable(e) && EventRef(shop, e) !in l.txs
    ensures CreateError(l, EventCreation(shop, e)).None? <==>
      shop != 0 && shop in l.shops && (e.Adjustment? ==> !RepeatsNewTag(l.tags + {l.shops[shop]}, e.tags))
  {
    hide EventRef;
    assert !RepeatsNewTag(KnownTags(l, Some(shop)), []);
  }
}

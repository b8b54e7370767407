/** What a booked revenue event moves, in closed form. */
module EventEffects {
  import opened Accounts
  import opened Journal
  import opened Books
  import opened Nets
  import opened Rollback
  import opened Moves
  import opened Revenue
  import opened Effects

  /** A return is an expense of its amount: the estimate leaves the receivable, and what the two differ by goes to the
      adjustments. A payout above or below the estimate corrects the receivable from the adjustments. A withdrawal turns
      receivable into cash, and an adjustment of either sign is other revenue to be received. */
  function ByEvent(team: TeamId, e: Event, c: Cell): real
    requires Recordable(e)
  {
    match e
    case Fund(_, est, amount) =>
      if amount < 0.0 then
        On(c, Cell(team, SellingReturnExpense, team), -amount) + On(c, Cell(team, SellingReceivable, team), -est)
        + On(c, Cell(team, SellingAdjReceivable, team), est + amount)
      else
        On(c, Cell(team, SellingReceivable, team), amount - est)
        + On(c, Cell(team, SellingAdjReceivable, team), est - amount)
    case Withdrawal(_, amount) =>
      On(c, Cell(team, SellingReceivable, team), -Abs(amount)) + On(c, Cell(team, Cash, team), Abs(amount))
    case Adjustment(_, _, amount, _) =>
      On(c, Cell(team, OtherRevenue, team), Abs(amount)) + On(c, Cell(team, SellingReceivable, team), Abs(amount))
  }

  lemma DiffMoved(team: TeamId, diff: real, c: Cell)
    ensures (if c.book == team then Moved(DiffPosts(team, diff), Account(c)) else 0.0) ==
      On(c, Cell(team, SellingReceivable, team), -diff) + On(c, Cell(team, SellingAdjReceivable, team), diff)
  {
    if diff != 0.0 {
      var ps := DiffPosts(team, diff);
      assert ps == [ps[0], ps[1]];
      MovedTwo(ps[0], ps[1], Account(c));
    }
  }

  lemma FundMoved(team: TeamId, e: Event, c: Cell)
    requires e.Fund? && e.amount != 0.0
    ensures (if c.book == team then Moved(FundPosts(team, e.est, e.amount), Account(c)) else 0.0) == ByEvent(team, e, c)
  {
    hide DiffPosts;
    if e.amount < 0.0 {
      var returned := Post(Own(SellingReturnExpense, team), -e.amount);
      var p, q := Post(Own(SellingAdjReceivable, team), e.amount), Post(Own(SellingReceivable, team), e.amount);
      MovedTwo(returned, p, Account(c));
      MovedTwo(returned, q, Account(c));
      MovedConcat([returned, q], DiffPosts(team, e.est + e.amount), Account(c));
      DiffMoved(team, e.est + e.amount, c);
    } else {
      DiffMoved(team, e.est - e.amount, c);
    }
  }

  lemma EventMoved(team: TeamId, e: Event, c: Cell)
    requires Recordable(e) && EventPosts(team, e) != []
    ensures (if c.book == team then Moved(EventPosts(team, e), Account(c)) else 0.0) == ByEvent(team, e, c)
  {
    match e
    case Fund(_, est, amount) => FundMoved(team, e, c);
    case Withdrawal(_, _) => MovedTwo(EventPosts(team, e)[0], EventPosts(team, e)[1], Account(c));
    case Adjustment(_, _, _, _) => MovedTwo(EventPosts(team, e)[0], EventPosts(team, e)[1], Account(c));
  }

  /** The fund is what was estimated, within the tolerance. */
  predicate AsEstimated(e: Event) { e.Fund? && -0.0001 < e.est - e.amount < 0.0001 }

  /** An event that did not fail moves every account of every book by what it stands for, and nothing else; but a fund
      as estimated, or an event whose reference exists, changes nothing at all. */
  lemma EventGains(l: Ledger, team: TeamId, shop: nat, e: Event, day: Day, c: Cell)
    requires ValidLedger(l) && Seeded(l.chart) && Recordable(e)
    ensures var (l', err) := EventSpec(l, team, shop, e, day);
            if AsEstimated(e) || EventRef(shop, e) in l.txs then l' == l && err.None?
            else err.None? ==> Gains(l, l', l.nextTx, c, ByEvent(team, e, c))
  {
    hide PostSpec, BooksMove, PostBook, AllPass, Seeded, ValidLedger, Gains, EventPosts, EventRef, ByEvent, Skips;
    SkippedEvent(l, shop, e);
    var ps, creation := EventPosts(team, e), EventCreation(shop, e);
    var bs := [PostBook(l.chart, team, ps)];
    if AllPass(bs, l.nextTx, day) {
      SomePosts(l.chart, team, ps, l.nextTx, day);
      OneMoves(l.chart, team, ps, l.nextTx, day, c);
      EventMoved(team, e, c);
    }
    PostGains(l, creation, bs, None, day, c, ByEvent(team, e, c));
  }

  lemma SkippedEvent(l: Ledger, shop: nat, e: Event)
    requires Recordable(e)
    ensures Skips(l, shop, e) <==> AsEstimated(e) || EventRef(shop, e) in l.txs
  {
  }

  lemma SomePosts(chart: Chart, team: TeamId, ps: seq<Post>, tx: TxId, day: Day)
    requires AllPass([PostBook(chart, team, ps)], tx, day)
    ensures ps != []
  {
    assert PostBook(chart, team, ps) in [PostBook(chart, team, ps)];
  }
}

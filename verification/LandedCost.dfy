/** When goods received and stock adjustments are accepted, and that both their books balance. */
module LandedCost {
  import opened Sums
  import opened Accounts
  import opened Journal
  import opened Books
  import opened Nets
  import opened Balanced
  import opened Moves
  import opened References
  import opened Inbound
  import opened Acceptance

  lemma {:induction false} SpreadAddsFee(ls: seq<Line>, fee: real)
    ensures SpreadValue(ls, fee) == GoodsValue(ls) + fee * Count(ls) as real
    decreases |ls|
  {
    if ls != [] {
      SpreadAddsFee(ls[..|ls| - 1], fee);
      FeeAdds(fee, Count(ls[..|ls| - 1]), ls[|ls| - 1].count, ls[|ls| - 1].price);
    }
  }

  lemma FeeAdds(fee: real, n: int, m: int, price: real)
    ensures fee * n as real + (price + fee) * m as real == price * m as real + fee * (n + m) as real
  {
  }

  /** Landed cost is conserved: what is accepted, lost and broken is worth the goods and the two fees. */
  lemma LandedCostConserved(pay: AcceptPayload)
    requires ExtPriceFee(pay).Some?
    ensures var fee := ExtPriceFee(pay).value;
            Accepted(pay, fee) + Lost(pay, fee) + Broken(pay, fee) == Goods(pay) + pay.shippingFee + pay.codFee
  {
    SpreadAll(pay, ExtPriceFee(pay).value);
    FeesAreSpread(pay);
  }

  lemma SpreadAll(pay: AcceptPayload, fee: real)
    ensures Accepted(pay, fee) + Lost(pay, fee) + Broken(pay, fee) == Goods(pay) + fee * ItemCount(pay) as real
  {
    hide SpreadValue, GoodsValue, Count;
    SpreadAddsFee(pay.accepts, fee);
    SpreadAddsFee(pay.losts, fee);
    SpreadAddsFee(pay.brokens, fee);
    FeeOfAll(fee, Count(pay.accepts), Count(pay.losts), Count(pay.brokens));
  }

  /** The fee per item, over all items, is the two fees. */
  lemma FeesAreSpread(pay: AcceptPayload)
    requires ExtPriceFee(pay).Some?
    ensures ExtPriceFee(pay).value * ItemCount(pay) as real == pay.shippingFee + pay.codFee
  {
    if ItemCount(pay) != 0 {
      DivideBack(pay.shippingFee + pay.codFee, ItemCount(pay) as real);
    }
  }

  lemma DivideBack(x: real, n: real)
    requires n != 0.0
    ensures x / n * n == x
  {
  }

  lemma FeeOfAll(fee: real, x: int, y: int, z: int)
    ensures fee * x as real + fee * y as real + fee * z as real == fee * (x + y + z) as real
  {
  }

  // ---- balance ----------------------------------------------------------------------------

  lemma SignedIf(chart: Chart, c: bool, p: Post)
    requires Seeded(chart) && Found(chart, OneIf(c, p))
    ensures Signed(chart, OneIf(c, p)) == if c then Weight(p) else 0.0
  {
    if c { SignedOne(chart, p); assert p in OneIf(c, p); }
  }

  lemma SignedParts(chart: Chart, a: seq<Post>, b: seq<Post>, c: seq<Post>)
    ensures Signed(chart, a + b + c) == Signed(chart, a) + Signed(chart, b) + Signed(chart, c)
    ensures Found(chart, a + b + c) <==> Found(chart, a) && Found(chart, b) && Found(chart, c)
  {
    SignedConcat(chart, a + b, c);
    SignedConcat(chart, a, b);
    FoundParts(chart, a + b, c);
    FoundParts(chart, a, b);
  }

  function Min0(x: real): real { if x < 0.0 then x else 0.0 }

  lemma GoodsSigned(chart: Chart, other: TeamId, pay: AcceptPayload, fee: real)
    requires Seeded(chart) && Found(chart, GoodsPosts(other, pay, fee))
    ensures Signed(chart, GoodsPosts(other, pay, fee)) ==
      Accepted(pay, fee) + Lost(pay, fee) + Broken(pay, fee) - Goods(pay) - Min0(Lost(pay, fee))
        - Min0(Broken(pay, fee))
  {
    hide Accepted, Lost, Broken, Goods, Found, Signed, OneIf, Seeded;
    var p, q := Post(AccountRef(StockPending, other), -Goods(pay)),
      Post(AccountRef(StockReady, other), Accepted(pay, fee));
    var r, s := Post(AccountRef(StockBroken, other), Broken(pay, fee)),
      Post(AccountRef(StockLost, other), Lost(pay, fee));
    SignedParts(chart, [p, q], OneIf(Broken(pay, fee) > 0.0, r), OneIf(Lost(pay, fee) > 0.0, s));
    SignedPair(chart, p, q);
    SignedIf(chart, Broken(pay, fee) > 0.0, r);
    SignedIf(chart, Lost(pay, fee) > 0.0, s);
  }

  lemma CodSigned(chart: Chart, pay: AcceptPayload)
    requires Seeded(chart) && Found(chart, CodPosts(pay))
    ensures Signed(chart, CodPosts(pay)) == -pay.codFee
  {
    if pay.codFee != 0.0 {
      var ps := CodPosts(pay);
      assert ps == [ps[0], ps[1]] + [ps[2]];
      assert ps[0] in ps && ps[1] in ps && ps[2] in ps;
      SignedConcat(chart, [ps[0], ps[1]], [ps[2]]);
      SignedTwo(chart, ps[0], ps[1]);
      SignedOne(chart, ps[2]);
    }
  }

  /** Both books of an acceptance miss their balance by what a negative lost or broken total leaves out, so they
      balance exactly when neither is negative. */
  lemma AcceptBalance(chart: Chart, pay: AcceptPayload)
    requires Seeded(chart) && ExtPriceFee(pay).Some?
    requires Found(chart, WarePosts(pay, ExtPriceFee(pay).value))
    requires Found(chart, SellPosts(pay, ExtPriceFee(pay).value))
    ensures var fee := ExtPriceFee(pay).value;
            && Signed(chart, WarePosts(pay, fee)) == -Min0(Lost(pay, fee)) - Min0(Broken(pay, fee))
            && Signed(chart, SellPosts(pay, fee)) == -Min0(Lost(pay, fee)) - Min0(Broken(pay, fee))
  {
    hide SpreadValue, GoodsValue, GoodsPosts, CodPosts;
    var fee := ExtPriceFee(pay).value;
    LandedCostConserved(pay);
    WareSigned(chart, pay, fee);
    SellSigned(chart, pay, fee);
  }

  lemma WareSigned(chart: Chart, pay: AcceptPayload, fee: real)
    requires Seeded(chart) && Found(chart, WarePosts(pay, fee))
    ensures Signed(chart, WarePosts(pay, fee)) == Accepted(pay, fee) + Lost(pay, fee) + Broken(pay, fee) - Goods(pay)
      - pay.shippingFee - pay.codFee - Min0(Lost(pay, fee)) - Min0(Broken(pay, fee))
  {
    hide Accepted, Lost, Broken, Goods, Found, Signed, OneIf, Seeded, GoodsPosts, CodPosts;
    var ship := Post(AccountRef(StockPending, pay.team), -pay.shippingFee);
    SignedParts(chart, OneIf(pay.shippingFee != 0.0, ship), CodPosts(pay), GoodsPosts(pay.team, pay, fee));
    SignedIf(chart, pay.shippingFee != 0.0, ship);
    CodSigned(chart, pay);
    GoodsSigned(chart, pay.team, pay, fee);
  }

  lemma SellSigned(chart: Chart, pay: AcceptPayload, fee: real)
    requires Seeded(chart) && Found(chart, SellPosts(pay, fee))
    ensures Signed(chart, SellPosts(pay, fee)) == Accepted(pay, fee) + Lost(pay, fee) + Broken(pay, fee) - Goods(pay)
      - pay.shippingFee - pay.codFee - Min0(Lost(pay, fee)) - Min0(Broken(pay, fee))
  {
    hide Accepted, Lost, Broken, Goods, Found, Signed, OneIf, Seeded, GoodsPosts, CodPosts;
    var ship, owed := Post(AccountRef(StockPending, pay.warehouse), -pay.shippingFee),
      Post(AccountRef(Payable, pay.warehouse), pay.codFee);
    SignedParts(chart, OneIf(pay.shippingFee != 0.0, ship), OneIf(pay.codFee != 0.0, owed),
                GoodsPosts(pay.warehouse, pay, fee));
    SignedIf(chart, pay.shippingFee != 0.0, ship);
    SignedIf(chart, pay.codFee != 0.0, owed);
    GoodsSigned(chart, pay.warehouse, pay, fee);
  }

  // ---- acceptance -------------------------------------------------------------------------

  /** Every account an acceptance touches exists. */
  ghost predicate AccountsFound(chart: Chart, pay: AcceptPayload, fee: real) {
    Found(chart, WarePosts(pay, fee)) && Found(chart, SellPosts(pay, fee))
  }

  /** What both books miss: the negative totals that are not booked. */
  function Gap(pay: AcceptPayload, fee: real): real { -Min0(Lost(pay, fee)) - Min0(Broken(pay, fee)) }

  /** The amount if the accounts are the same. */
  function At(a: AccountRef, p: Post): real { if p.account == a then p.amount else 0.0 }

  lemma MovedIf(c: bool, p: Post, a: AccountRef)
    ensures Moved(OneIf(c, p), a) == if c then At(a, p) else 0.0
  {
    if c { MovedOne(p, a); }
  }

  lemma GoodsMoved(other: TeamId, pay: AcceptPayload, fee: real, a: AccountRef)
    ensures Moved(GoodsPosts(other, pay, fee), a) ==
      At(a, Post(AccountRef(StockPending, other), -Goods(pay)))
        + At(a, Post(AccountRef(StockReady, other), Accepted(pay, fee)))
      + (if Broken(pay, fee) > 0.0 then At(a, Post(AccountRef(StockBroken, other), Broken(pay, fee))) else 0.0)
      + (if Lost(pay, fee) > 0.0 then At(a, Post(AccountRef(StockLost, other), Lost(pay, fee))) else 0.0)
  {
    hide Accepted, Lost, Broken, Goods, OneIf;
    var p, q := Post(AccountRef(StockPending, other), -Goods(pay)),
      Post(AccountRef(StockReady, other), Accepted(pay, fee));
    var broken := OneIf(Broken(pay, fee) > 0.0, Post(AccountRef(StockBroken, other), Broken(pay, fee)));
    var lost := OneIf(Lost(pay, fee) > 0.0, Post(AccountRef(StockLost, other), Lost(pay, fee)));
    MovedConcat([p, q] + broken, lost, a);
    MovedConcat([p, q], broken, a);
    MovedTwo(p, q, a);
    MovedIf(Broken(pay, fee) > 0.0, Post(AccountRef(StockBroken, other), Broken(pay, fee)), a);
    MovedIf(Lost(pay, fee) > 0.0, Post(AccountRef(StockLost, other), Lost(pay, fee)), a);
  }

  lemma CodMoved(pay: AcceptPayload, a: AccountRef)
    ensures Moved(CodPosts(pay), a) ==
      At(a, Post(AccountRef(Cash, pay.warehouse), -pay.codFee))
        + At(a, Post(AccountRef(StockCodFee, pay.warehouse), -pay.codFee))
      + At(a, Post(AccountRef(Receivable, pay.team), pay.codFee))
  {
    if pay.codFee != 0.0 {
      var ps := CodPosts(pay);
      assert ps == [ps[0], ps[1]] + [ps[2]];
      MovedConcat([ps[0], ps[1]], [ps[2]], a);
      MovedTwo(ps[0], ps[1], a);
      MovedOne(ps[2], a);
    }
  }

  lemma WareMoved(pay: AcceptPayload, fee: real, a: AccountRef)
    ensures Moved(WarePosts(pay, fee), a) ==
      At(a, Post(AccountRef(StockPending, pay.team), -pay.shippingFee)) + Moved(CodPosts(pay), a)
        + Moved(GoodsPosts(pay.team, pay, fee), a)
  {
    hide GoodsPosts, CodPosts;
    var ship := Post(AccountRef(StockPending, pay.team), -pay.shippingFee);
    var shipping := OneIf(pay.shippingFee != 0.0, ship);
    MovedConcat(shipping + CodPosts(pay), GoodsPosts(pay.team, pay, fee), a);
    MovedConcat(shipping, CodPosts(pay), a);
    MovedIf(pay.shippingFee != 0.0, ship, a);
  }

  lemma SellMoved(pay: AcceptPayload, fee: real, a: AccountRef)
    ensures Moved(SellPosts(pay, fee), a) ==
      At(a, Post(AccountRef(StockPending, pay.warehouse), -pay.shippingFee))
        + At(a, Post(AccountRef(Payable, pay.warehouse), pay.codFee))
      + Moved(GoodsPosts(pay.warehouse, pay, fee), a)
  {
    hide GoodsPosts;
    var ship, owed := Post(AccountRef(StockPending, pay.warehouse), -pay.shippingFee),
      Post(AccountRef(Payable, pay.warehouse), pay.codFee);
    var shipping, cod := OneIf(pay.shippingFee != 0.0, ship), OneIf(pay.codFee != 0.0, owed);
    MovedConcat(shipping + cod, GoodsPosts(pay.warehouse, pay, fee), a);
    MovedConcat(shipping, cod, a);
    MovedIf(pay.shippingFee != 0.0, ship, a);
    MovedIf(pay.codFee != 0.0, owed, a);
  }

  /** In the goods, every account is posted to once. */
  lemma GoodsMoves(other: TeamId, pay: AcceptPayload, fee: real, p: Post)
    requires p in GoodsPosts(other, pay, fee)
    ensures Moved(GoodsPosts(other, pay, fee), p.account) == p.amount
    ensures p.account.team == other && p.account.key in {StockPending, StockReady, StockBroken, StockLost}
    ensures p.account.key == StockPending ==> p.amount == -Goods(pay)
  {
    hide Accepted, Lost, Broken, Goods, Moved;
    GoodsMoved(other, pay, fee, p.account);
  }

  lemma GoodsElsewhere(other: TeamId, pay: AcceptPayload, fee: real, a: AccountRef)
    ensures a.key !in {StockPending, StockReady, StockBroken, StockLost} ==>
      Moved(GoodsPosts(other, pay, fee), a) == 0.0
    ensures a == AccountRef(StockPending, other) ==> Moved(GoodsPosts(other, pay, fee), a) == -Goods(pay)
  {
    hide Accepted, Lost, Broken, Goods, Moved, GoodsPosts;
    GoodsMoved(other, pay, fee, a);
  }

  /** Only the pending account is posted to twice. */
  lemma WareMoves(pay: AcceptPayload, fee: real, p: Post)
    requires p in WarePosts(pay, fee)
    ensures Moved(WarePosts(pay, fee), p.account) ==
      if p.account.key == StockPending then -pay.shippingFee - Goods(pay) else p.amount
  {
    hide Goods, Moved, GoodsPosts;
    WareMoved(pay, fee, p.account);
    CodMoved(pay, p.account);
    GoodsElsewhere(pay.team, pay, fee, p.account);
    if p in GoodsPosts(pay.team, pay, fee) { GoodsMoves(pay.team, pay, fee, p); }
  }

  lemma SellMoves(pay: AcceptPayload, fee: real, p: Post)
    requires p in SellPosts(pay, fee)
    ensures Moved(SellPosts(pay, fee), p.account) ==
      if p.account.key == StockPending then -pay.shippingFee - Goods(pay) else p.amount
  {
    hide Goods, Moved, GoodsPosts;
    SellMoved(pay, fee, p.account);
    GoodsElsewhere(pay.warehouse, pay, fee, p.account);
    if p in GoodsPosts(pay.warehouse, pay, fee) { GoodsMoves(pay.warehouse, pay, fee, p); }
  }

  lemma GoodsNonzero(other: TeamId, pay: AcceptPayload, fee: real)
    ensures Nonzero(GoodsPosts(other, pay, fee)) <==> Goods(pay) != 0.0 && Accepted(pay, fee) != 0.0
  {
    hide Accepted, Lost, Broken, Goods;
    var ps := GoodsPosts(other, pay, fee);
    assert ps[0] in ps && ps[1] in ps;
  }

  lemma BothNonzero(pay: AcceptPayload, fee: real)
    ensures Nonzero(WarePosts(pay, fee)) <==> Goods(pay) != 0.0 && Accepted(pay, fee) != 0.0
    ensures Nonzero(SellPosts(pay, fee)) <==> Goods(pay) != 0.0 && Accepted(pay, fee) != 0.0
  {
    hide Accepted, Lost, Broken, Goods, GoodsPosts;
    GoodsNonzero(pay.team, pay, fee);
    GoodsNonzero(pay.warehouse, pay, fee);
    assert forall p :: p in GoodsPosts(pay.team, pay, fee) ==> p in WarePosts(pay, fee);
    assert forall p :: p in GoodsPosts(pay.warehouse, pay, fee) ==> p in SellPosts(pay, fee);
  }

  lemma WareAllMove(pay: AcceptPayload, fee: real)
    requires Nonzero(WarePosts(pay, fee))
    ensures AllMove(WarePosts(pay, fee)) <==> pay.shippingFee + Goods(pay) != 0.0
  {
    hide Accepted, Lost, Broken, Goods;
    var pending := GoodsPosts(pay.team, pay, fee)[0];
    assert pending in GoodsPosts(pay.team, pay, fee) && pending in WarePosts(pay, fee);
    forall p | p in WarePosts(pay, fee) { WareMoves(pay, fee, p); }
    assert Moved(WarePosts(pay, fee), pending.account) == -pay.shippingFee - Goods(pay);
  }

  lemma SellAllMove(pay: AcceptPayload, fee: real)
    requires Nonzero(SellPosts(pay, fee))
    ensures AllMove(SellPosts(pay, fee)) <==> pay.shippingFee + Goods(pay) != 0.0
  {
    hide Accepted, Lost, Broken, Goods;
    var pending := GoodsPosts(pay.warehouse, pay, fee)[0];
    assert pending in GoodsPosts(pay.warehouse, pay, fee) && pending in SellPosts(pay, fee);
    forall p | p in SellPosts(pay, fee) { SellMoves(pay, fee, p); }
    assert Moved(SellPosts(pay, fee), pending.account) == -pay.shippingFee - Goods(pay);
  }

  lemma SomePosts(pay: AcceptPayload, fee: real)
    ensures WarePosts(pay, fee) != [] && SellPosts(pay, fee) != []
  {
    assert |GoodsPosts(pay.team, pay, fee)| >= 2 && |GoodsPosts(pay.warehouse, pay, fee)| >= 2;
  }

  lemma AcceptBooksPass(chart: Chart, pay: AcceptPayload, tx: TxId, day: Day)
    requires Seeded(chart) && ExtPriceFee(pay).Some?
    ensures var fee := ExtPriceFee(pay).value;
            Accepts(AcceptBooks(chart, pay, fee), tx, None, day) <==>
            && Goods(pay) != 0.0 && Accepted(pay, fee) != 0.0 && pay.shippingFee + Goods(pay) != 0.0
            && Gap(pay, fee) < EPSILON && AccountsFound(chart, pay, fee)
  {
    hide Accepted, Lost, Broken, Goods, WarePosts, SellPosts, ExtPriceFee, Seeded, Found, Nonzero, AllMove, Signed;
    hide NoneFails;
    var fee := ExtPriceFee(pay).value;
    var ware, sell := WarePosts(pay, fee), SellPosts(pay, fee);
    PairAccepts(chart, pay.warehouse, ware, pay.team, sell, tx, day);
    SeededPostErrors(chart, ware);
    SeededPostErrors(chart, sell);
    SomePosts(pay, fee);
    BothNonzero(pay, fee);
    if AccountsFound(chart, pay, fee) { AcceptBalance(chart, pay); }
    if Nonzero(ware) && Nonzero(sell) {
      WareAllMove(pay, fee);
      SellAllMove(pay, fee);
    }
  }

  /** Goods are accepted exactly when the source is known, the creation is not refused, the fee divides, neither goods
      nor accepted value nor goods with shipping are zero, what is left unbooked is under the tolerance, and every
      account exists. */
  lemma AcceptedExactlyWhen(l: Ledger, pay: AcceptPayload, day: Day)
    requires Seeded(l.chart)
    ensures AcceptSpec(l, pay, day).1.None? <==>
      && AcceptRef(pay).Some? && CreateError(l, AcceptCreation(AcceptRef(pay).value, pay)).None?
      && ExtPriceFee(pay).Some?
      && var fee := ExtPriceFee(pay).value;
         && Goods(pay) != 0.0 && Accepted(pay, fee) != 0.0 && pay.shippingFee + Goods(pay) != 0.0
         && Gap(pay, fee) < EPSILON && AccountsFound(l.chart, pay, fee)
  {
    hide Accepted, Lost, Broken, Goods, ExtPriceFee, AcceptBooks, AccountsFound, Gap, PostSpec, Accepts, CreateError;
    hide AcceptRef;
    if AcceptRef(pay).Some? && ExtPriceFee(pay).Some? {
      var c, fee := AcceptCreation(AcceptRef(pay).value, pay), ExtPriceFee(pay).value;
      AcceptBooksPass(l.chart, pay, l.nextTx, day);
      PostAccepted(l, c, AcceptBooks(l.chart, pay, fee), None, day);
    }
  }

  ghost predicate Nonnegative(ls: seq<Line>) {
    forall l :: l in ls ==> l.count >= 0 && l.price >= 0.0
  }

  lemma TimesNonneg(x: real, n: int)
    requires x >= 0.0 && n >= 0
    ensures x * n as real >= 0.0
  {
  }

  lemma {:induction false} SpreadNonneg(ls: seq<Line>, fee: real)
    requires Nonnegative(ls) && fee >= 0.0
    ensures SpreadValue(ls, fee) >= 0.0 && Count(ls) >= 0
    decreases |ls|
  {
    if ls != [] {
      var l := ls[|ls| - 1];
      assert l in ls;
      SpreadNonneg(ls[..|ls| - 1], fee);
      TimesNonneg(l.price + fee, l.count);
    }
  }

  /** With nonnegative counts, prices and fees nothing is left unbooked: both books balance exactly. */
  lemma NothingUnbooked(pay: AcceptPayload)
    requires pay.shippingFee >= 0.0 && pay.codFee >= 0.0 && ExtPriceFee(pay).Some?
    requires Nonnegative(pay.accepts) && Nonnegative(pay.losts) && Nonnegative(pay.brokens)
    ensures Gap(pay, ExtPriceFee(pay).value) == 0.0
  {
    SpreadNonneg(pay.accepts, 0.0);
    SpreadNonneg(pay.losts, 0.0);
    SpreadNonneg(pay.brokens, 0.0);
    var fee := ExtPriceFee(pay).value;
    SpreadNonneg(pay.losts, fee);
    SpreadNonneg(pay.brokens, fee);
  }

  // ---- adjustments ------------------------------------------------------------------------

  lemma SignedTwoIf(chart: Chart, c: bool, p: Post, q: Post)
    requires Seeded(chart) && Found(chart, TwoIf(c, p, q))
    ensures Signed(chart, TwoIf(c, p, q)) == if c then Weight(p) + Weight(q) else 0.0
  {
    if c { SignedPair(chart, p, q); }
  }

  lemma TwoPairs(chart: Chart, c: bool, p: Post, q: Post, d: bool, r: Post, s: Post)
    requires Seeded(chart) && Found(chart, TwoIf(c, p, q) + TwoIf(d, r, s))
    requires Weight(p) + Weight(q) == 0.0 && Weight(r) + Weight(s) == 0.0
    ensures Signed(chart, TwoIf(c, p, q) + TwoIf(d, r, s)) == 0.0
  {
    hide TwoIf;
    FoundParts(chart, TwoIf(c, p, q), TwoIf(d, r, s));
    SignedConcat(chart, TwoIf(c, p, q), TwoIf(d, r, s));
    SignedTwoIf(chart, c, p, q);
    SignedTwoIf(chart, d, r, s);
  }

  lemma DamageSigned(chart: Chart, other: TeamId, pay: AdjustPayload)
    requires Seeded(chart) && Found(chart, DamagePosts(other, pay))
    ensures Signed(chart, DamagePosts(other, pay)) == 0.0
  {
    hide TwoIf, GoodsValue, Seeded, Found, Signed;
    var broken := GoodsValue(pay.brokens);
    TwoPairs(chart, broken > 0.0, Post(AccountRef(StockReady, other), -broken),
             Post(AccountRef(StockBroken, other), broken),
             GoodsValue(pay.losts) > 0.0, Post(AccountRef(StockReady, other), -broken),
             Post(AccountRef(StockLost, other), broken));
  }

  lemma OwedSigned(chart: Chart, pay: AdjustPayload)
    requires Seeded(chart) && Found(chart, OwedPosts(pay))
    ensures Signed(chart, OwedPosts(pay)) == 0.0
  {
    hide TwoIf, Charged, Seeded, Found, Signed;
    var lost, broken := Charged(pay.losts), Charged(pay.brokens);
    TwoPairs(chart, lost > 0.0, Post(AccountRef(StockLostCost, pay.team), lost),
             Post(AccountRef(Payable, pay.team), lost),
             broken > 0.0, Post(AccountRef(StockBrokenCost, pay.team), broken),
             Post(AccountRef(Payable, pay.team), broken));
  }

  lemma ClaimSigned(chart: Chart, pay: AdjustPayload)
    requires Seeded(chart) && Found(chart, ClaimPosts(pay))
    ensures Signed(chart, ClaimPosts(pay)) == 0.0
  {
    hide TwoIf, Charged, Seeded, Found, Signed;
    var lost, broken := Charged(pay.losts), Charged(pay.brokens);
    TwoPairs(chart, lost > 0.0, Post(AccountRef(StockLostCost, pay.warehouse), -lost),
             Post(AccountRef(Receivable, pay.warehouse), lost),
             broken > 0.0, Post(AccountRef(StockBrokenCost, pay.warehouse), -broken),
             Post(AccountRef(Receivable, pay.warehouse), broken));
  }

  /** Both books of an adjustment balance exactly, whatever the lines. */
  lemma AdjustBalance(chart: Chart, pay: AdjustPayload)
    requires Seeded(chart) && Found(chart, WareAdjust(pay)) && Found(chart, SellAdjust(pay))
    ensures Signed(chart, WareAdjust(pay)) == 0.0 && Signed(chart, SellAdjust(pay)) == 0.0
  {
    hide DamagePosts, OwedPosts, ClaimPosts, Found, Signed, Seeded;
    FoundParts(chart, DamagePosts(pay.team, pay), OwedPosts(pay));
    FoundParts(chart, DamagePosts(pay.warehouse, pay), ClaimPosts(pay));
    SignedConcat(chart, DamagePosts(pay.team, pay), OwedPosts(pay));
    SignedConcat(chart, DamagePosts(pay.warehouse, pay), ClaimPosts(pay));
    DamageSigned(chart, pay.team, pay);
    DamageSigned(chart, pay.warehouse, pay);
    OwedSigned(chart, pay);
    ClaimSigned(chart, pay);
  }

  function OrZero(c: bool, x: real): real { if c then x else 0.0 }

  lemma MovedTwoIf(c: bool, p: Post, q: Post, a: AccountRef)
    ensures Moved(TwoIf(c, p, q), a) == if c then At(a, p) + At(a, q) else 0.0
  {
    if c { MovedTwo(p, q, a); }
  }

  /** The totals of two optional pairs. */
  lemma MovedPairs(c: bool, p: Post, q: Post, d: bool, r: Post, s: Post, a: AccountRef)
    ensures Moved(TwoIf(c, p, q) + TwoIf(d, r, s), a) ==
      (if c then At(a, p) + At(a, q) else 0.0) + (if d then At(a, r) + At(a, s) else 0.0)
  {
    MovedConcat(TwoIf(c, p, q), TwoIf(d, r, s), a);
    MovedTwoIf(c, p, q, a);
    MovedTwoIf(d, r, s, a);
  }

  lemma DamageMoved(other: TeamId, pay: AdjustPayload, a: AccountRef)
    ensures var broken, lost := GoodsValue(pay.brokens), GoodsValue(pay.losts);
            Moved(DamagePosts(other, pay), a) ==
            OrZero(broken > 0.0, At(a, Post(AccountRef(StockReady, other), -broken))
                                 + At(a, Post(AccountRef(StockBroken, other), broken)))
            + OrZero(lost > 0.0, At(a, Post(AccountRef(StockReady, other), -broken))
                                 + At(a, Post(AccountRef(StockLost, other), broken)))
  {
    hide GoodsValue, TwoIf, At;
    var broken := GoodsValue(pay.brokens);
    MovedPairs(broken > 0.0, Post(AccountRef(StockReady, other), -broken), Post(AccountRef(StockBroken, other), broken),
               GoodsValue(pay.losts) > 0.0, Post(AccountRef(StockReady, other), -broken),
             Post(AccountRef(StockLost, other), broken), a);
  }

  lemma OwedMoved(pay: AdjustPayload, a: AccountRef)
    ensures var lost, broken := Charged(pay.losts), Charged(pay.brokens);
            Moved(OwedPosts(pay), a) ==
            OrZero(lost > 0.0, At(a, Post(AccountRef(StockLostCost, pay.team), lost))
                                 + At(a, Post(AccountRef(Payable, pay.team), lost)))
            + OrZero(broken > 0.0, At(a, Post(AccountRef(StockBrokenCost, pay.team), broken))
                                 + At(a, Post(AccountRef(Payable, pay.team), broken)))
  {
    hide Charged, TwoIf, At;
    var lost, broken := Charged(pay.losts), Charged(pay.brokens);
    MovedPairs(lost > 0.0, Post(AccountRef(StockLostCost, pay.team), lost), Post(AccountRef(Payable, pay.team), lost),
               broken > 0.0, Post(AccountRef(StockBrokenCost, pay.team), broken),
             Post(AccountRef(Payable, pay.team), broken), a);
  }

  lemma ClaimMoved(pay: AdjustPayload, a: AccountRef)
    ensures var lost, broken := Charged(pay.losts), Charged(pay.brokens);
            Moved(ClaimPosts(pay), a) ==
            OrZero(lost > 0.0, At(a, Post(AccountRef(StockLostCost, pay.warehouse), -lost))
                                 + At(a, Post(AccountRef(Receivable, pay.warehouse), lost)))
            + OrZero(broken > 0.0, At(a, Post(AccountRef(StockBrokenCost, pay.warehouse), -broken))
                                 + At(a, Post(AccountRef(Receivable, pay.warehouse), broken)))
  {
    hide Charged, TwoIf, At;
    var lost, broken := Charged(pay.losts), Charged(pay.brokens);
    MovedPairs(lost > 0.0, Post(AccountRef(StockLostCost, pay.warehouse), -lost),
               Post(AccountRef(Receivable, pay.warehouse), lost),
               broken > 0.0, Post(AccountRef(StockBrokenCost, pay.warehouse), -broken),
             Post(AccountRef(Receivable, pay.warehouse), broken), a);
  }

  /** No zero amount is posted exactly when lost goods come with a broken total to book them at. */
  lemma DamageNonzero(other: TeamId, pay: AdjustPayload)
    ensures Nonzero(DamagePosts(other, pay)) <==> (GoodsValue(pay.losts) > 0.0 ==> GoodsValue(pay.brokens) != 0.0)
    ensures DamagePosts(other, pay) == [] <==> GoodsValue(pay.brokens) <= 0.0 && GoodsValue(pay.losts) <= 0.0
    ensures forall p :: p in DamagePosts(other, pay) ==>
      p.account.key in {StockReady, StockBroken, StockLost} && p.account.team == other
  {
    hide GoodsValue;
    var ps := DamagePosts(other, pay);
    if GoodsValue(pay.losts) > 0.0 { assert ps[|ps| - 1] in ps; }
  }

  lemma ChargesNonzero(pay: AdjustPayload)
    ensures Nonzero(OwedPosts(pay)) && Nonzero(ClaimPosts(pay))
    ensures OwedPosts(pay) == [] <==> Charged(pay.losts) <= 0.0 && Charged(pay.brokens) <= 0.0
    ensures ClaimPosts(pay) == [] <==> Charged(pay.losts) <= 0.0 && Charged(pay.brokens) <= 0.0
  {
    hide Charged;
  }

  lemma NonzeroParts(a: seq<Post>, b: seq<Post>)
    ensures Nonzero(a + b) <==> Nonzero(a) && Nonzero(b)
  {
    assert forall p :: p in a + b <==> p in a || p in b;
  }

  /** Damage, with no zero amount, moves every account it names, and no other team's or charge account. */
  lemma DamageMoves(other: TeamId, pay: AdjustPayload, p: Post)
    requires Nonzero(DamagePosts(other, pay)) && p in DamagePosts(other, pay)
    ensures Moved(DamagePosts(other, pay), p.account) != 0.0
  {
    hide GoodsValue, Moved;
    DamageMoved(other, pay, p.account);
  }

  lemma DamageElsewhere(other: TeamId, pay: AdjustPayload, a: AccountRef)
    requires a.key !in {StockReady, StockBroken, StockLost}
    ensures Moved(DamagePosts(other, pay), a) == 0.0
  {
    hide GoodsValue, Moved;
    DamageMoved(other, pay, a);
  }

  lemma OwedMoves(pay: AdjustPayload, p: Post)
    requires p in OwedPosts(pay)
    ensures Moved(OwedPosts(pay), p.account) != 0.0
    ensures p.account.key !in {StockReady, StockBroken, StockLost}
  {
    hide Charged, Moved;
    OwedMoved(pay, p.account);
  }

  lemma OwedElsewhere(pay: AdjustPayload, a: AccountRef)
    requires a.key in {StockReady, StockBroken, StockLost}
    ensures Moved(OwedPosts(pay), a) == 0.0
  {
    hide Charged, Moved;
    OwedMoved(pay, a);
  }

  lemma ClaimMoves(pay: AdjustPayload, p: Post)
    requires p in ClaimPosts(pay)
    ensures Moved(ClaimPosts(pay), p.account) != 0.0
    ensures p.account.key !in {StockReady, StockBroken, StockLost}
  {
    hide Charged, Moved;
    ClaimMoved(pay, p.account);
  }

  lemma ClaimElsewhere(pay: AdjustPayload, a: AccountRef)
    requires a.key in {StockReady, StockBroken, StockLost}
    ensures Moved(ClaimPosts(pay), a) == 0.0
  {
    hide Charged, Moved;
    ClaimMoved(pay, a);
  }

  lemma WareAdjustMoves(pay: AdjustPayload, p: Post)
    requires Nonzero(WareAdjust(pay)) && p in WareAdjust(pay)
    ensures Moved(WareAdjust(pay), p.account) != 0.0
  {
    hide DamagePosts, OwedPosts, Moved, Nonzero;
    MovedConcat(DamagePosts(pay.team, pay), OwedPosts(pay), p.account);
    NonzeroParts(DamagePosts(pay.team, pay), OwedPosts(pay));
    if p in OwedPosts(pay) {
      OwedMoves(pay, p);
      DamageElsewhere(pay.team, pay, p.account);
    } else {
      DamageNonzero(pay.team, pay);
      DamageMoves(pay.team, pay, p);
      OwedElsewhere(pay, p.account);
    }
  }

  lemma SellAdjustMoves(pay: AdjustPayload, p: Post)
    requires Nonzero(SellAdjust(pay)) && p in SellAdjust(pay)
    ensures Moved(SellAdjust(pay), p.account) != 0.0
  {
    hide DamagePosts, ClaimPosts, Moved, Nonzero;
    MovedConcat(DamagePosts(pay.warehouse, pay), ClaimPosts(pay), p.account);
    NonzeroParts(DamagePosts(pay.warehouse, pay), ClaimPosts(pay));
    if p in ClaimPosts(pay) {
      ClaimMoves(pay, p);
      DamageElsewhere(pay.warehouse, pay, p.account);
    } else {
      DamageNonzero(pay.warehouse, pay);
      DamageMoves(pay.warehouse, pay, p);
      ClaimElsewhere(pay, p.account);
    }
  }

  /** There is something to book. */
  predicate AdjustsSomething(pay: AdjustPayload) {
    || GoodsValue(pay.brokens) > 0.0 || GoodsValue(pay.losts) > 0.0
    || Charged(pay.losts) > 0.0 || Charged(pay.brokens) > 0.0
  }

  lemma AdjustBooksPass(chart: Chart, pay: AdjustPayload, tx: TxId, day: Day)
    requires Seeded(chart)
    ensures Accepts(AdjustBooks(chart, pay), tx, None, day) <==>
      && AdjustsSomething(pay) && (GoodsValue(pay.losts) > 0.0 ==> GoodsValue(pay.brokens) != 0.0)
      && Found(chart, WareAdjust(pay)) && Found(chart, SellAdjust(pay))
  {
    hide GoodsValue, Charged, DamagePosts, OwedPosts, ClaimPosts, Found, Nonzero, Signed, Seeded, NoneFails;
    var ware, sell := WareAdjust(pay), SellAdjust(pay);
    PairAccepts(chart, pay.warehouse, ware, pay.team, sell, tx, day);
    SeededPostErrors(chart, ware);
    SeededPostErrors(chart, sell);
    if Found(chart, ware) && Found(chart, sell) { AdjustBalance(chart, pay); }
    DamageNonzero(pay.team, pay);
    DamageNonzero(pay.warehouse, pay);
    ChargesNonzero(pay);
    NonzeroParts(DamagePosts(pay.team, pay), OwedPosts(pay));
    NonzeroParts(DamagePosts(pay.warehouse, pay), ClaimPosts(pay));
    if Nonzero(ware) { forall p | p in ware { WareAdjustMoves(pay, p); } }
    if Nonzero(sell) { forall p | p in sell { SellAdjustMoves(pay, p); } }
  }

  /** An adjustment is accepted exactly when its reference is new, there is something to book, lost goods come with a
      broken total that is not zero, and every account exists: lost goods alone are always refused, since they are
      booked at the broken total. */
  lemma AdjustedExactlyWhen(l: Ledger, pay: AdjustPayload, day: Day)
    requires Seeded(l.chart)
    ensures AdjustSpec(l, pay, day).1.None? <==>
      && AdjustRef(pay) !in l.txs
      && AdjustsSomething(pay) && (GoodsValue(pay.losts) > 0.0 ==> GoodsValue(pay.brokens) != 0.0)
      && Found(l.chart, WareAdjust(pay)) && Found(l.chart, SellAdjust(pay))
  {
    hide GoodsValue, AdjustBooks, Found, AdjustRef, AdjustsSomething, PostSpec, Accepts;
    AdjustBooksPass(l.chart, pay, l.nextTx, day);
    PostAccepted(l, Plain(AdjustRef(pay)), AdjustBooks(l.chart, pay), None, day);
    PlainCreation(l, AdjustRef(pay));
  }
}

/** Transaction references: unique strings that say what a transaction is for (accounting_core/model.go,
    revenue/revenue.go). */
module References {

  /** The reference types of the bookings modelled here. */
  datatype RefType =
    | Order | OrderFund | Withdrawal | Adjustment
    | Restock | StockReturn | StockAccept | StockReturnAccept | StockTransferAccept | StockAdjustment
    | Payment

  function Name(t: RefType): string {
    match t
    case Order => "order"
    case OrderFund => "order_fund"
    case Withdrawal => "wd"
    case Adjustment => "common_adjustment"
    case Restock => "restock"
    case StockReturn => "stock_return"
    case StockAccept => "stock_accept"
    case StockReturnAccept => "stock_return_accept"
    case StockTransferAccept => "stock_transfer_accept"
    case StockAdjustment => "stock_adjustment"
    case Payment => "payment"
  }

  function Digit(n: nat): char
    requires n < 10
  {
    "0123456789"[n]
  }

  /** Decimal digits, as `%d` prints them. */
  function Decimal(n: nat): (s: string)
    ensures s != [] && forall i :: 0 <= i < |s| ==> '0' <= s[i] <= '9'
  {
    if n < 10 then [Digit(n)] else Decimal(n / 10) + [Digit(n % 10)]
  }

  function SignedDecimal(n: int): string {
    if n < 0 then "-" + Decimal(-n) else Decimal(n)
  }

  function NewStringRefID(t: RefType, id: string): string { Name(t) + "#" + id }
  function NewRefID(t: RefType, id: nat): string { NewStringRefID(t, Decimal(id)) }

  /** `NewShopDateRefID`: the shop and the second of the event. */
  function NewShopDateRefID(t: RefType, shop: nat, at: int): string {
    NewStringRefID(t, Decimal(shop) + "#" + SignedDecimal(at))
  }

  ghost predicate NoHash(s: string) { '#' !in s }

  /** The part before the first # and the part after it are determined by the whole. */
  lemma SplitAtHash(a: string, x: string, b: string, y: string)
    requires NoHash(a) && NoHash(b) && a + "#" + x == b + "#" + y
    ensures a == b && x == y
  {
    var w := a + "#" + x;
    assert w[|a|] == '#' && w[|b|] == '#';
    assert |a| == |b|;
    assert a == w[..|a|] && b == w[..|b|];
    assert x == w[|a| + 1..] && y == w[|b| + 1..];
  }

  lemma NamesHaveNoHash(t: RefType)
    ensures NoHash(Name(t))
  {
    match t
    case Order =>
    case OrderFund =>
    case Withdrawal =>
    case Adjustment =>
    case Restock =>
    case StockReturn =>
    case StockAccept =>
    case StockReturnAccept =>
    case StockTransferAccept =>
    case StockAdjustment =>
    case Payment =>
  }

  /** The type is the initial letter, the length and the seventh letter of its name. */
  lemma NamesDiffer(t: RefType, u: RefType)
    requires Name(t) == Name(u)
    ensures t == u
  {
    assert |Name(t)| == |Name(u)|;
    if |Name(t)| == 12 {
      assert Name(t)[6] == Name(u)[6];
    }
    if |Name(t)| == 7 {
      assert Name(t)[0] == Name(u)[0];
    }
  }

  /** References of different types never collide, and within a type the identifier decides. */
  lemma RefsDetermineTypeAndId(t: RefType, id: string, u: RefType, jd: string)
    ensures NewStringRefID(t, id) == NewStringRefID(u, jd) <==> t == u && id == jd
  {
    if NewStringRefID(t, id) == NewStringRefID(u, jd) {
      NamesHaveNoHash(t);
      NamesHaveNoHash(u);
      SplitAtHash(Name(t), id, Name(u), jd);
      NamesDiffer(t, u);
    }
  }

  lemma {:induction false} DecimalInjective(n: nat, m: nat)
    ensures Decimal(n) == Decimal(m) <==> n == m
    decreases n
  {
    if Decimal(n) == Decimal(m) {
      assert Decimal(n)[|Decimal(n)| - 1] == Digit(n % 10);
      assert Decimal(m)[|Decimal(m)| - 1] == Digit(m % 10);
      DigitInjective(n % 10, m % 10);
      if n >= 10 && m >= 10 {
        assert Decimal(n / 10) == Decimal(n)[..|Decimal(n)| - 1];
        assert Decimal(m / 10) == Decimal(m)[..|Decimal(m)| - 1];
        DecimalInjective(n / 10, m / 10);
      }
    }
  }

  lemma DigitInjective(n: nat, m: nat)
    requires n < 10 && m < 10 && Digit(n) == Digit(m)
    ensures n == m
  {
  }

  lemma SignedDecimalInjective(n: int, m: int)
    requires SignedDecimal(n) == SignedDecimal(m)
    ensures n == m
  {
    MinusIsNoDigit(n);
    MinusIsNoDigit(m);
    if n < 0 {
      assert Decimal(-n) == Decimal(-m);
      DecimalInjective(-n, -m);
    } else {
      assert Decimal(n) == Decimal(m);
      DecimalInjective(n, m);
    }
  }

  lemma MinusIsNoDigit(n: int)
    ensures SignedDecimal(n) != []
    ensures SignedDecimal(n)[0] == '-' <==> n < 0
    ensures n < 0 ==> SignedDecimal(n)[1..] == Decimal(-n)
  {
    if n >= 0 {
      assert '0' <= Decimal(n)[0];
    }
  }

  /** A numbered reference names one object. */
  lemma NumberedRefsInjective(t: RefType, n: nat, u: RefType, m: nat)
    ensures NewRefID(t, n) == NewRefID(u, m) <==> t == u && n == m
  {
    RefsDetermineTypeAndId(t, Decimal(n), u, Decimal(m));
    DecimalInjective(n, m);
  }

  /** A shop-dated reference names one shop and second. */
  lemma ShopDateRefsInjective(t: RefType, shop: nat, at: int, u: RefType, shop': nat, at': int)
    ensures NewShopDateRefID(t, shop, at) == NewShopDateRefID(u, shop', at') <==> t == u && shop == shop' && at == at'
  {
    var id, jd := Decimal(shop) + "#" + SignedDecimal(at), Decimal(shop') + "#" + SignedDecimal(at');
    RefsDetermineTypeAndId(t, id, u, jd);
    if id == jd {
      SplitAtHash(Decimal(shop), SignedDecimal(at), Decimal(shop'), SignedDecimal(at'));
      DecimalInjective(shop, shop');
      SignedDecimalInjective(at, at');
    }
  }
}

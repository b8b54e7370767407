/** Accounts, their balance side and the seeded chart
    (accounting_core/model.go, accounting_core/reserved_account.go). */
module Accounts {

  type TeamId = nat

  datatype Option<+T> = None | Some(value: T)

  datatype Coa = Asset | Liability | Equity | Revenue | Expense

  /** The stored string is "d", "c" or anything else. */
  datatype BalanceType = DebitBalance | CreditBalance | OtherBalance

  datatype AccountKey =
    // assets
    | Cash | Shopeepay | SellingEstReceivable | SellingAdjReceivable | SellingReceivable
    | StockPending | StockTransfer | StockLost | StockBroken | StockCodFee | StockReady
    | Receivable | PendingPaymentReceive | PendingPaymentPay | AdjAsset
    // liabilities
    | Payable | AdjLiability
    // expenses
    | SellingOtherExpense | CodCost | StockCost | StockToBorrowCost | StockBorrowCost
    | StockBrokenCost | StockLostCost | WarehouseCost | Salary | InternetConnection
    | PackingExpense | ElectricityExpense | KitchenExpense | EquipmentExpense | ToolExpense
    | TransportExpense | OwnerAccommodation | ServerExpense | ShippingExpense | AdsExpense
    | AdjExpense | BonusesExpense | ContentMediaExpense | SellingReturnExpense
    | FakeOrderExpense | OtherExpense | BankFee
    // revenue
    | ServiceRevenue | BorrowStockRevenue | SalesRevenueAdjustment | SalesRevenue
    | OtherRevenue | SalesReturnRevenue | AdjRevenue
    // any other key string
    | Unseeded(name: string)

  /** The unique index (account_key, team_id) makes this pair the identity of an account. */
  datatype AccountRef = AccountRef(key: AccountKey, team: TeamId)

  /** The accounts table: which accounts exist, and the side each one is stored with. */
  type Chart = map<AccountRef, BalanceType>

  /** The class a key is seeded with; None when the default seed has no such key. */
  function SeedClass(key: AccountKey): Option<Coa> {
    match key
    case Cash | Shopeepay | SellingEstReceivable | SellingAdjReceivable | SellingReceivable
       | StockPending | StockTransfer | StockLost | StockBroken | StockCodFee | StockReady
       | Receivable | PendingPaymentReceive | PendingPaymentPay | AdjAsset => Some(Asset)
    case Payable | AdjLiability => Some(Liability)
    case ServiceRevenue | BorrowStockRevenue | SalesRevenueAdjustment | SalesRevenue
       | OtherRevenue | SalesReturnRevenue | AdjRevenue => Some(Revenue)
    case Unseeded(_) => None
    case _ => Some(Expense)
  }

  /** The balance side a key is seeded with. */
  function SeedSide(key: AccountKey): BalanceType {
    match key
    case ServiceRevenue | BorrowStockRevenue | SalesRevenueAdjustment | SalesRevenue
       | OtherRevenue | SalesReturnRevenue | AdjRevenue | Payable | AdjLiability => CreditBalance
    case Unseeded(_) => OtherBalance
    case _ => DebitBalance
  }

  /** Every account of the chart is a seeded one, stored with its seeded side. */
  ghost predicate Seeded(chart: Chart) {
    forall a :: a in chart ==> SeedClass(a.key).Some? && chart[a] == SeedSide(a.key)
  }

  /** In the seed, assets and expenses are exactly the debit-side accounts. */
  lemma SeedSideFollowsClass(key: AccountKey)
    requires SeedClass(key).Some?
    ensures SeedSide(key) == DebitBalance <==> SeedClass(key).value in {Asset, Expense}
    ensures SeedSide(key) == CreditBalance <==> SeedClass(key).value in {Liability, Equity, Revenue}
  {
    match key
    case _ =>
  }

  /** `DiffBalance` and `Change`: the balance in the account's own sign. */
  function Natural(side: BalanceType, debit: real, credit: real): (r: real)
    ensures side == OtherBalance ==> r == 0.0
  {
    match side
    case DebitBalance => debit - credit
    case CreditBalance => credit - debit
    case OtherBalance => 0.0
  }

  const EPSILON: real := 0.0001

  function Abs(x: real): real { if x < 0.0 then -x else x }

  /** `CompareFloatSafe` at the service's own epsilon. */
  predicate Close(a: real, b: real) { Abs(a - b) < EPSILON }
}

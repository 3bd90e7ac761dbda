/** The ten CyberMarket tables, in the order every loop over them uses. */
module Schema {

  datatype Table =
    | Markets | Vendors | Buyers | Products
    | Transactions | TransactionProducts | Sessions | Payments | Risk | Predictions

  const TABLES: seq<Table> :=
    [Markets, Vendors, Buyers, Products, Transactions, TransactionProducts, Sessions, Payments, Risk, Predictions]

  function Name(t: Table): string {
    match t
    case Markets => "markets"
    case Vendors => "vendors"
    case Buyers => "buyers"
    case Products => "products"
    case Transactions => "transactions"
    case TransactionProducts => "transaction_products"
    case Sessions => "BuyerSessionAnalytics"
    case Payments => "PaymentProcessingEvents"
    case Risk => "risk_analytics"
    case Predictions => "RiskModelPredictions"
  }

  function Position(t: Table): (i: nat)
    ensures i < |TABLES| && TABLES[i] == t
  {
    match t
    case Markets => 0
    case Vendors => 1
    case Buyers => 2
    case Products => 3
    case Transactions => 4
    case TransactionProducts => 5
    case Sessions => 6
    case Payments => 7
    case Risk => 8
    case Predictions => 9
  }

  lemma NameInjective(t: Table, u: Table)
    requires Name(t) == Name(u)
    ensures t == u
  {
    assert forall v :: |Name(v)| == match v
                                    case Markets => 7
                                    case Vendors => 7
                                    case Buyers => 6
                                    case Products => 8
                                    case Transactions => 12
                                    case TransactionProducts => 20
                                    case Sessions => 21
                                    case Payments => 23
                                    case Risk => 14
                                    case Predictions => 20;
    assert Name(Markets)[0] != Name(Vendors)[0] && Name(TransactionProducts)[0] != Name(Predictions)[0];
  }

  predicate IsFact(t: Table) { !t.Markets? && !t.Vendors? && !t.Buyers? && !t.Products? }

  const MARKET_COUNT: nat := 10
  const VENDOR_COUNT: nat := 1000
  const BUYER_COUNT: nat := 10000
  const PRODUCT_COUNT: nat := 4000
  const PRODUCTS_PER_VENDOR: nat := 4
  const HISTORY_REFERENCE_COUNT: nat := 1000000
}

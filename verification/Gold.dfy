/** The four Gold queries as DuckDB runs them, the per-key definitions they refine, and what their totals conserve. */
module Gold {
  import opened Collections
  import opened Ids
  import opened Records
  import opened Relational

  datatype Silver = Silver(vendors: seq<Vendor>, buyers: seq<Buyer>, products: seq<Product>, txns: seq<Txn>,
                           items: seq<Item>, sessions: seq<Session>, payments: seq<Payment>, risk: seq<RiskRow>)

  // ---------------------------------------------------------------- columns

  const MICROS_PER_DAY: nat := 86400000000

  const TXN_CODE: Txn -> Id := (t: Txn) => t.code
  const TXN_CODE_KEY: Txn -> Option<Id> := (t: Txn) => Some(t.code)
  const TXN_DAY: Txn -> (nat, nat) := (t: Txn) => (t.time / MICROS_PER_DAY, t.platform)
  const TXN_VENDOR: Txn -> nat := (t: Txn) => t.vendor
  const TXN_BUYER: Txn -> nat := (t: Txn) => t.buyer
  const TXN_AMOUNT: Txn -> Option<int> := (t: Txn) => AmountOf(t)
  const TXN_CROSS: Txn -> int := (t: Txn) => t.crossBorder
  const RISK_EVENT: RiskRow -> Id := (r: RiskRow) => r.event
  const PAYMENT_EVENT: Payment -> Id := (p: Payment) => p.event
  const IS_FAILED: Payment -> bool := (p: Payment) => p.stage == "declined" || p.stage == "failed"
  const SESSION_BUYER: Session -> nat := (s: Session) => s.buyer
  const IS_COMPLETED: Session -> bool := (s: Session) => s.completed
  const ITEM_EVENT: Item -> Id := (i: Item) => i.event
  const ITEM_KEY: Item -> ProductKey := (i: Item) => i.key
  const ITEM_QTY: Item -> Option<int> := (i: Item) => Some(i.qty)
  const ITEM_REVENUE: Item -> Option<int> := (i: Item) => Some(i.price * i.qty)
  const VENDOR_KEY: Vendor -> nat := (v: Vendor) => v.key
  const VENDOR_JOIN: Vendor -> Option<nat> := (v: Vendor) => Some(v.key)
  const BUYER_JOIN: Buyer -> Option<nat> := (b: Buyer) => Some(b.code)
  const PRODUCT_GROUP: Product -> (ProductKey, string) := (p: Product) => (p.key, p.availability)
  const PRODUCT_JOIN: Product -> Option<ProductKey> := (p: Product) => Some(p.key)

  // ---------------------------------------------------------------- daily_market_metrics

  datatype PaymentSum = PaymentSum(event: Id, failed: int)

  datatype DailyRow = DailyRow(day: nat, platform: nat, transactions: int, uniqueBuyers: int, uniqueVendors: int,
                               gmv: Option<int>, crossBorder: int, highRisk: int, failedPayments: int)

  type DailyTuple = ((Txn, Option<RiskRow>), Option<PaymentSum>)

  const SUM_EVENT: PaymentSum -> Id := (p: PaymentSum) => p.event
  const FAILED_OF: DailyTuple -> Option<int> := (r: DailyTuple) => if r.1.Some? then Some(r.1.value.failed) else None
  const PAIR_EVENT: ((Txn, Option<RiskRow>)) -> Option<Id> := (r: (Txn, Option<RiskRow>)) => Some(r.0.code)
  const TUPLE_DAY: DailyTuple -> (nat, nat) := (r: DailyTuple) => TXN_DAY(r.0.0)
  const TUPLE_BUYER: DailyTuple -> nat := (r: DailyTuple) => r.0.0.buyer
  const TUPLE_VENDOR: DailyTuple -> nat := (r: DailyTuple) => r.0.0.vendor
  const TUPLE_AMOUNT: DailyTuple -> Option<int> := (r: DailyTuple) => AmountOf(r.0.0)
  const TUPLE_CROSS: DailyTuple -> int := (r: DailyTuple) => r.0.0.crossBorder
  const TUPLE_HIGH: DailyTuple -> bool := (r: DailyTuple) => r.0.1.Some? && r.0.1.value.mlRisk == "high"

  function FailedSum(payments: seq<Payment>): Id -> PaymentSum {
    (e: Id) => PaymentSum(e, |Filter(Group(payments, PAYMENT_EVENT, e), IS_FAILED)|)
  }

  /** The `payment` subquery: one row per referenced transaction. */
  function PaymentSums(payments: seq<Payment>): seq<PaymentSum> {
    Map(Keys(payments, PAYMENT_EVENT), FailedSum(payments))
  }

  function DailyJoin(s: Silver): seq<DailyTuple> {
    LeftJoin(LeftJoin(s.txns, s.risk, TXN_CODE_KEY, RISK_EVENT), PaymentSums(s.payments), PAIR_EVENT, SUM_EVENT)
  }

  function DailyAggregate(rows: seq<DailyTuple>): ((nat, nat)) -> DailyRow {
    (k: (nat, nat)) =>
      var g := Group(rows, TUPLE_DAY, k);
      DailyRow(k.0, k.1, |g|, |Keys(g, TUPLE_BUYER)|, |Keys(g, TUPLE_VENDOR)|,
               NullableSum(g, TUPLE_AMOUNT), Sum(g, TUPLE_CROSS), |Filter(g, TUPLE_HIGH)|,
               Coalesce(NullableSum(g, FAILED_OF)))
  }

  function Daily(s: Silver): seq<DailyRow> {
    Map(Keys(DailyJoin(s), TUPLE_DAY), DailyAggregate(DailyJoin(s)))
  }

  /** Some risk row calls the transaction high-risk. */
  function IsHighRisk(risk: seq<RiskRow>): Txn -> bool {
    (t: Txn) => exists r :: r in risk && r.event == t.code && r.mlRisk == "high"
  }

  /** A failed payment of one of these transactions. */
  function FailedAmong(g: seq<Txn>): Payment -> bool {
    (p: Payment) => IS_FAILED(p) && exists t :: t in g && t.code == p.event
  }

  /** What the row of a date and platform means, without any join. */
  function DailyMeaning(s: Silver): ((nat, nat)) -> DailyRow {
    (k: (nat, nat)) =>
      var g := Group(s.txns, TXN_DAY, k);
      DailyRow(k.0, k.1, |g|, |Keys(g, TXN_BUYER)|, |Keys(g, TXN_VENDOR)|,
               NullableSum(g, TXN_AMOUNT), Sum(g, TXN_CROSS), |Filter(g, IsHighRisk(s.risk))|,
               |Filter(s.payments, FailedAmong(g))|)
  }

  // ---------------------------------------------------------------- vendor_risk_summary

  datatype VendorRow = VendorRow(seller: nat, transactions: int, uniqueBuyers: int, gmv: int, highRisk: int)

  type VendorTuple = ((Vendor, Option<Txn>), Option<RiskRow>)

  const VENDOR_PAIR_EVENT: ((Vendor, Option<Txn>)) -> Option<Id> :=
    (r: (Vendor, Option<Txn>)) => if r.1.Some? then Some(r.1.value.code) else None
  const VENDOR_PAIR_KEY: ((Vendor, Option<Txn>)) -> nat := LeftColumn(VENDOR_KEY)
  const VENDOR_TUPLE_KEY: VendorTuple -> nat := (r: VendorTuple) => r.0.0.key
  const VENDOR_HAS_TXN: VendorTuple -> bool := (r: VendorTuple) => r.0.1.Some?
  const VENDOR_BUYER: VendorTuple -> nat := (r: VendorTuple) => if r.0.1.Some? then r.0.1.value.buyer else 0
  const VENDOR_AMOUNT: VendorTuple -> Option<int> := (r: VendorTuple) => if r.0.1.Some? then AmountOf(r.0.1.value) else None
  const VENDOR_HIGH: VendorTuple -> bool := (r: VendorTuple) => r.1.Some? && r.1.value.mlRisk == "high"

  function VendorJoin(s: Silver): seq<VendorTuple> {
    LeftJoin(LeftJoin(s.vendors, s.txns, VENDOR_JOIN, TXN_VENDOR), s.risk, VENDOR_PAIR_EVENT, RISK_EVENT)
  }

  function VendorAggregate(rows: seq<VendorTuple>): nat -> VendorRow {
    (k: nat) =>
      var g := Group(rows, VENDOR_TUPLE_KEY, k);
      VendorRow(k, |Filter(g, VENDOR_HAS_TXN)|, |Keys(Filter(g, VENDOR_HAS_TXN), VENDOR_BUYER)|,
                Coalesce(NullableSum(g, VENDOR_AMOUNT)), |Filter(g, VENDOR_HIGH)|)
  }

  function VendorSummary(s: Silver): seq<VendorRow> {
    Map(Keys(VendorJoin(s), VENDOR_TUPLE_KEY), VendorAggregate(VendorJoin(s)))
  }

  function VendorMeaning(s: Silver): Vendor -> VendorRow {
    (v: Vendor) =>
      var g := Group(s.txns, TXN_VENDOR, v.key);
      VendorRow(v.key, |g|, |Keys(g, TXN_BUYER)|, Coalesce(NullableSum(g, TXN_AMOUNT)),
                |Filter(g, IsHighRisk(s.risk))|)
  }

  // ---------------------------------------------------------------- buyer_360

  datatype Purchases = Purchases(buyer: nat, transactions: int, value: Option<int>)

  datatype Visits = Visits(buyer: nat, sessions: int, completed: int)

  datatype BuyerRow = BuyerRow(buyer: nat, transactions: int, sessions: int, completed: int, lifetimeValue: int,
                               authLevel: string)

  const PURCHASES_BUYER: Purchases -> nat := (p: Purchases) => p.buyer
  const VISITS_BUYER: Visits -> nat := (v: Visits) => v.buyer
  const BUYER_PAIR: ((Buyer, Option<Purchases>)) -> Option<nat> := (r: (Buyer, Option<Purchases>)) => Some(r.0.code)

  function PurchasesOf(txns: seq<Txn>): nat -> Purchases {
    (k: nat) => Purchases(k, |Group(txns, TXN_BUYER, k)|, NullableSum(Group(txns, TXN_BUYER, k), TXN_AMOUNT))
  }

  function VisitsOf(sessions: seq<Session>): nat -> Visits {
    (k: nat) => Visits(k, |Group(sessions, SESSION_BUYER, k)|, |Filter(Group(sessions, SESSION_BUYER, k), IS_COMPLETED)|)
  }

  const BUYER_SELECT: (((Buyer, Option<Purchases>), Option<Visits>)) -> BuyerRow :=
    (r: ((Buyer, Option<Purchases>), Option<Visits>)) => BuyerRow(r.0.0.code,
                  if r.0.1.Some? then r.0.1.value.transactions else 0,
                  if r.1.Some? then r.1.value.sessions else 0,
                  if r.1.Some? then r.1.value.completed else 0,
                  if r.0.1.Some? then Coalesce(r.0.1.value.value) else 0,
                  r.0.0.authLevel)

  function Buyer360(s: Silver): seq<BuyerRow> {
    var purchase := Map(Keys(s.txns, TXN_BUYER), PurchasesOf(s.txns));
    var session := Map(Keys(s.sessions, SESSION_BUYER), VisitsOf(s.sessions));
    Map(LeftJoin(LeftJoin(s.buyers, purchase, BUYER_JOIN, PURCHASES_BUYER), session, BUYER_PAIR, VISITS_BUYER), BUYER_SELECT)
  }

  function BuyerMeaning(s: Silver): Buyer -> BuyerRow {
    (b: Buyer) =>
      var g := Group(s.txns, TXN_BUYER, b.code);
      var visits := Group(s.sessions, SESSION_BUYER, b.code);
      BuyerRow(b.code, |g|, |visits|, |Filter(visits, IS_COMPLETED)|, Coalesce(NullableSum(g, TXN_AMOUNT)), b.authLevel)
  }

  // ---------------------------------------------------------------- product_performance

  datatype ProductRow = ProductRow(key: ProductKey, availability: string, transactions: int, units: int, revenue: int)

  type ProductTuple = (Product, Option<Item>)

  const PRODUCT_TUPLE_GROUP: ProductTuple -> (ProductKey, string) := LeftColumn(PRODUCT_GROUP)
  const PRODUCT_HAS_ITEM: ProductTuple -> bool := (r: ProductTuple) => r.1.Some?
  const PRODUCT_QTY: ProductTuple -> Option<int> := (r: ProductTuple) => if r.1.Some? then Some(r.1.value.qty) else None
  const PRODUCT_REVENUE: ProductTuple -> Option<int> :=
    (r: ProductTuple) => if r.1.Some? then Some(r.1.value.price * r.1.value.qty) else None

  function ProductAggregate(rows: seq<ProductTuple>): ((ProductKey, string)) -> ProductRow {
    (k: (ProductKey, string)) =>
      var g := Group(rows, PRODUCT_TUPLE_GROUP, k);
      ProductRow(k.0, k.1, |Filter(g, PRODUCT_HAS_ITEM)|, Coalesce(NullableSum(g, PRODUCT_QTY)),
                 Coalesce(NullableSum(g, PRODUCT_REVENUE)))
  }

  function ProductPerformance(s: Silver): seq<ProductRow> {
    var rows := LeftJoin(s.products, s.items, PRODUCT_JOIN, ITEM_KEY);
    Map(Keys(rows, PRODUCT_TUPLE_GROUP), ProductAggregate(rows))
  }

  function ProductMeaning(s: Silver): Product -> ProductRow {
    (p: Product) =>
      var g := Group(s.items, ITEM_KEY, p.key);
      ProductRow(p.key, p.availability, |g|, Coalesce(NullableSum(g, ITEM_QTY)), Coalesce(NullableSum(g, ITEM_REVENUE)))
  }
}

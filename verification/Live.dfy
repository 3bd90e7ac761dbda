/** What one live event does to PostgreSQL, as functions on the tables, and the invariant every event keeps. */
module Live {
  import opened Collections
  import opened Text
  import opened Schema
  import opened Ids
  import opened Records
  import opened Relational
  import opened Gold
  import opened GoldTotals

  datatype Db = Db(vendors: seq<Vendor>, buyers: seq<Buyer>, products: seq<Product>, txns: seq<Txn>, items: seq<Item>,
                   sessions: seq<Session>, payments: seq<Payment>, risk: seq<RiskRow>, predictions: seq<Prediction>)

  const SETTLE_DELAY: nat := 10000  // ten milliseconds, in microseconds

  const PAYMENT_ID: Payment -> Id := (p: Payment) => p.id
  const PREDICTION_ID: Prediction -> Id := (p: Prediction) => p.id
  const SESSION_ID: Session -> Id := (s: Session) => s.id
  const PURCHASE_COUNT: Buyer -> int := (b: Buyer) => b.purchases

  // ---------------------------------------------------------------- the two products of a purchase

  function OfVendor(v: nat): ProductKey -> bool { (k: ProductKey) => k.vendor == v }

  function InsertByAge(k: ProductKey, s: seq<ProductKey>): seq<ProductKey> {
    if s == [] || k.age <= s[0].age then [k] + s else [s[0]] + InsertByAge(k, s[1..])
  }

  function SortByAge(s: seq<ProductKey>): seq<ProductKey> {
    if s == [] then [] else InsertByAge(s[0], SortByAge(s[1..]))
  }

  /** `.. WHERE "SellerPointer" = v ORDER BY "ListingAge" LIMIT 2` */
  function YoungestTwo(products: seq<Product>, v: nat): seq<ProductKey> {
    var sorted := SortByAge(Filter(Map(products, PRODUCT_KEY), OfVendor(v)));
    sorted[..Min(2, |sorted|)]
  }

  // ---------------------------------------------------------------- a purchase

  /** The outcome of the random draws of one purchase. */
  datatype Draw = Draw(event: nat, payment: nat, vendor: nat, buyer: nat, platform: nat, origin: nat, destination: nat,
                       cents: nat, fraudPercent: nat)

  function RiskLabel(percent: nat): string { if percent >= 70 then "high" else if percent >= 30 then "medium" else "low" }

  function NewTxn(d: Draw, now: nat): Txn {
    Txn(Id.Live(d.event), now, d.platform, d.vendor, d.buyer, if d.origin != d.destination then 1 else 0,
        map["amount" := Number(100 * d.cents), "currency" := Json.Text("USD"), "status" := Json.Text("authorized"),
            "updated_at" := Number(now)])
  }

  /** The first line carries 45 percent of the amount, the second 55. */
  function NewItem(d: Draw, key: ProductKey, line: nat): Item {
    Item(Id.Live(d.event), key, d.cents * (if line == 1 then 45 else 55), 1)
  }

  function NewPayment(d: Draw, now: nat): Payment {
    Payment(Id.Live(d.payment), Id.Live(d.event), now + SETTLE_DELAY, "authorized")
  }

  /** `COALESCE(NULLIF(text, ''), '0')::bigint` */
  function TextNumber(text: string): Option<nat> {
    if text == "" then Some(0) else if IsDigits(text) then Some(Value(text)) else None
  }

  function CountedBuyer(code: nat): Buyer -> Buyer {
    (b: Buyer) => if b.code == code then b.(purchases := b.purchases + 1) else b
  }

  function CountedVendor(key: nat, now: nat): Vendor -> Vendor {
    (v: Vendor) =>
      if v.key == key && TextNumber(v.totalTxns).Some? then
        v.(totalTxns := Decimal(TextNumber(v.totalTxns).value + 1), completed := v.completed + 1, lastActive := now)
      else v
  }

  function AfterPurchase(db: Db, d: Draw, products: seq<ProductKey>, now: nat): Db
    requires |products| == 2
  {
    db.(txns := db.txns + [NewTxn(d, now)],
        items := db.items + [NewItem(d, products[0], 1), NewItem(d, products[1], 2)],
        payments := db.payments + [NewPayment(d, now)],
        risk := db.risk + [RiskRow(Id.Live(d.event), RiskLabel(d.fraudPercent))],
        buyers := Map(db.buyers, CountedBuyer(d.buyer)),
        vendors := Map(db.vendors, CountedVendor(d.vendor, now)))
  }

  // ---------------------------------------------------------------- the other events

  function SettlePayment(id: Id, now: nat): Payment -> Payment {
    (p: Payment) => if p.id == id then p.(time := now, stage := "settled") else p
  }

  function CompleteTxn(event: Id, now: nat): Txn -> Txn {
    (t: Txn) =>
      if t.code == event then
        t.(financials := t.financials + map["status" := Json.Text("completed"), "updated_at" := Number(now)])
      else t
  }

  function AfterSession(db: Db, s: Session): Db { db.(sessions := db.sessions + [s]) }

  function AfterPaymentUpdate(db: Db, id: Id, now: nat): Db { db.(payments := Map(db.payments, SettlePayment(id, now))) }

  function AfterPrediction(db: Db, p: Prediction): Db { db.(predictions := db.predictions + [p]) }

  function AfterStatusUpdate(db: Db, event: Id, now: nat): Db { db.(txns := Map(db.txns, CompleteTxn(event, now))) }

  // ---------------------------------------------------------------- the invariant

  function Range(n: nat): (r: seq<nat>)
    ensures |r| == n && forall i :: 0 <= i < n ==> r[i] == i + 1
  {
    seq(n, i requires 0 <= i => i + 1)
  }

  function ProductRange(a: nat, b: nat): (r: seq<ProductKey>)
    requires 1 <= a <= b
    ensures |r| == b - a && forall i :: 0 <= i < b - a ==> r[i] == ProductKeyOf(a + i)
  {
    seq(b - a, i requires 0 <= i => ProductKeyOf(a + i))
  }

  /** The canonical universe: the writer never adds or removes a dimension row. */
  ghost predicate Universe(vendors: seq<Vendor>, buyers: seq<Buyer>, products: seq<Product>) {
    && Map(vendors, VENDOR_KEY) == Range(VENDOR_COUNT)
    && Map(buyers, BUYER_CODE) == Range(BUYER_COUNT)
    && Map(products, PRODUCT_KEY) == ProductRange(1, PRODUCT_COUNT + 1)
  }

  ghost predicate KeysHold(db: Db) {
    && UniqueKeys(db.txns, TXN_CODE) && UniqueKeys(db.risk, RISK_EVENT) && UniqueKeys(db.payments, PAYMENT_ID)
    && UniqueKeys(db.predictions, PREDICTION_ID) && UniqueKeys(db.sessions, SESSION_ID)
  }

  /** A transaction with this code, no later than this time. */
  ghost predicate TxnBy(txns: seq<Txn>, code: Id, time: nat) { exists t :: t in txns && t.code == code && t.time <= time }

  ghost predicate RiskFor(risk: seq<RiskRow>, code: Id) { exists r :: r in risk && r.event == code }

  /** A live transaction inside the universe, not from the future, with its amount and its risk row. */
  ghost predicate GoodTxn(t: Txn, risk: seq<RiskRow>, clock: nat) {
    && t.code.Live? && 1 <= t.platform <= MARKET_COUNT && 1 <= t.vendor <= VENDOR_COUNT && 1 <= t.buyer <= BUYER_COUNT
    && AmountOf(t).Some? && t.time <= clock && RiskFor(risk, t.code)
  }

  ghost predicate TxnsGood(txns: seq<Txn>, risk: seq<RiskRow>, clock: nat) {
    forall t {:trigger GoodTxn(t, risk, clock)} :: t in txns ==> GoodTxn(t, risk, clock)
  }

  ghost predicate ItemsResolve(items: seq<Item>, txns: seq<Txn>, clock: nat) {
    forall i {:trigger TxnBy(txns, i.event, clock)} :: i in items ==> TxnBy(txns, i.event, clock)
  }

  ghost predicate RiskResolves(risk: seq<RiskRow>, txns: seq<Txn>, clock: nat) {
    forall r {:trigger TxnBy(txns, r.event, clock)} :: r in risk ==> TxnBy(txns, r.event, clock)
  }

  /** No payment is orphaned or predates its transaction. */
  ghost predicate PaymentsResolve(payments: seq<Payment>, txns: seq<Txn>) {
    forall p {:trigger TxnBy(txns, p.event, p.time)} :: p in payments ==> TxnBy(txns, p.event, p.time)
  }

  /** No prediction lacks its risk row or predates its transaction. */
  ghost predicate PredictionsResolve(predictions: seq<Prediction>, txns: seq<Txn>, risk: seq<RiskRow>) {
    forall p {:trigger TxnBy(txns, p.event, p.time)} {:trigger RiskFor(risk, p.event)} ::
      p in predictions ==> TxnBy(txns, p.event, p.time) && RiskFor(risk, p.event)
  }

  ghost predicate SessionsResolve(sessions: seq<Session>) {
    forall s :: s in sessions ==> 1 <= s.buyer <= BUYER_COUNT
  }

  /**
   Two lines that add up to the amount: the youngest listing of the transaction's own vendor for 45 percent of it, the
   next one for 55.
   */
  ghost predicate GoodLines(lines: seq<Item>, t: Txn) {
    && |lines| == 2 && lines[0].key != lines[1].key
    && lines[0].key.age == 0 && lines[1].key.age == 1
    && lines[0].qty == lines[1].qty == 1
    && lines[0].key.vendor == lines[1].key.vendor == t.vendor
    && Canonical(lines[0].key) && Canonical(lines[1].key)
    && AmountOf(t) == Some(lines[0].price + lines[1].price)
    && 100 * lines[0].price == 45 * AmountOf(t).value && 100 * lines[1].price == 55 * AmountOf(t).value
  }

  ghost predicate LinesHold(txns: seq<Txn>, items: seq<Item>) {
    forall t {:trigger GoodLines(Group(items, ITEM_EVENT, t.code), t)} ::
      t in txns ==> GoodLines(Group(items, ITEM_EVENT, t.code), t)
  }

  /** Purchase counters add up to the seed plus the live transactions. */
  ghost predicate PurchasesCounted(buyers: seq<Buyer>, txns: nat, seed: int) {
    Sum(buyers, PURCHASE_COUNT) == seed + txns
  }

  /** Every vendor's text counter parses to its number of completed transactions. */
  ghost predicate VendorsAgree(vendors: seq<Vendor>) {
    forall v :: v in vendors ==> v.completed >= 0 && TextNumber(v.totalTxns) == Some(v.completed)
  }

  ghost predicate Inv(db: Db, clock: nat, seed: int) {
    && Universe(db.vendors, db.buyers, db.products)
    && KeysHold(db)
    && TxnsGood(db.txns, db.risk, clock)
    && ItemsResolve(db.items, db.txns, clock)
    && RiskResolves(db.risk, db.txns, clock)
    && PaymentsResolve(db.payments, db.txns)
    && PredictionsResolve(db.predictions, db.txns, db.risk)
    && SessionsResolve(db.sessions)
    && LinesHold(db.txns, db.items)
    && PurchasesCounted(db.buyers, |db.txns|, seed)
    && VendorsAgree(db.vendors)
  }

  /** A remembered pair names a transaction, its payment, and a risk row a prediction can refer to. */
  ghost predicate GoodPair(txns: seq<Txn>, payments: seq<Payment>, risk: seq<RiskRow>, pair: (Id, Id)) {
    && (exists t :: t in txns && t.code == pair.0)
    && (exists p :: p in payments && p.id == pair.1 && p.event == pair.0)
    && RiskFor(risk, pair.0)
  }

  ghost predicate PairsGood(db: Db, recent: seq<(Id, Id)>) {
    forall pair {:trigger GoodPair(db.txns, db.payments, db.risk, pair)} ::
      pair in recent ==> GoodPair(db.txns, db.payments, db.risk, pair)
  }
}

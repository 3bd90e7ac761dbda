/** Every live event keeps the database invariant. */
module LiveProofs {
  import opened Collections
  import opened Text
  import opened Schema
  import opened Ids
  import opened Records
  import opened Relational
  import opened Gold
  import opened GoldProofs
  import opened GoldTotals
  import opened Live

  // ---------------------------------------------------------------- the seeded products

  lemma {:induction false} RangeConcat(a: nat, b: nat, c: nat)
    requires 1 <= a <= b <= c
    ensures ProductRange(a, c) == ProductRange(a, b) + ProductRange(b, c)
  {
  }

  lemma RangeElsewhere(a: nat, b: nat, v: nat)
    requires 1 <= a <= b && forall i :: a <= i < b ==> ProductKeyOf(i).vendor != v
    ensures Filter(ProductRange(a, b), OfVendor(v)) == []
  {
    FilterNone(ProductRange(a, b), OfVendor(v));
  }

  lemma VendorRange(v: nat)
    requires 1 <= v <= VENDOR_COUNT
    ensures var i := PRODUCTS_PER_VENDOR * v - 3;
            Filter(ProductRange(1, PRODUCT_COUNT + 1), OfVendor(v)) == ProductRange(i, i + 4)
  {
    var i := PRODUCTS_PER_VENDOR * v - 3;
    var p := OfVendor(v);
    RangeConcat(1, i, PRODUCT_COUNT + 1);
    RangeConcat(i, i + 4, PRODUCT_COUNT + 1);
    FilterConcat(ProductRange(1, i), ProductRange(i, PRODUCT_COUNT + 1), p);
    FilterConcat(ProductRange(i, i + 4), ProductRange(i + 4, PRODUCT_COUNT + 1), p);
    RangeElsewhere(1, i, v);
    RangeElsewhere(i + 4, PRODUCT_COUNT + 1, v);
    FilterAll(ProductRange(i, i + 4), p);
  }

  lemma SortFour(a: ProductKey, b: ProductKey, c: ProductKey, d: ProductKey)
    requires d.age < a.age < b.age < c.age
    ensures SortByAge([a, b, c, d]) == [d, a, b, c]
  {
    assert [a, b, c, d][1..] == [b, c, d] && [b, c, d][1..] == [c, d] && [c, d][1..] == [d] && [d][1..] == [];
    assert SortByAge([d]) == [d];
    assert SortByAge([c, d]) == InsertByAge(c, [d]) == [d] + InsertByAge(c, [d][1..]) == [d, c];
    assert [d, c][1..] == [c];
    assert SortByAge([b, c, d]) == InsertByAge(b, [d, c]) == [d] + InsertByAge(b, [c]) == [d, b, c];
    assert [d, b, c][1..] == [b, c];
    assert SortByAge([a, b, c, d]) == InsertByAge(a, [d, b, c]) == [d] + InsertByAge(a, [b, c]) == [d, a, b, c];
  }

  /** In the seeded universe the query finds two products of every vendor, so the missing-products error never occurs. */
  lemma SeededProducts(db: Db, v: nat)
    requires Universe(db.vendors, db.buyers, db.products) && 1 <= v <= VENDOR_COUNT
    ensures YoungestTwo(db.products, v) == [ProductKeyOf(4 * v), ProductKeyOf(4 * v - 3)]
  {
    var i := PRODUCTS_PER_VENDOR * v - 3;
    VendorRange(v);
    assert ProductRange(i, i + 4) == [ProductKeyOf(i), ProductKeyOf(i + 1), ProductKeyOf(i + 2), ProductKeyOf(i + 3)];
    ProductOfVendor(v, 1);
    ProductOfVendor(v, 2);
    ProductOfVendor(v, 3);
    ProductOfVendor(v, 4);
    assert i + 3 == 4 * v;
    SortFour(ProductKeyOf(i), ProductKeyOf(i + 1), ProductKeyOf(i + 2), ProductKeyOf(i + 3));
  }

  // ---------------------------------------------------------------- updates in place

  /** An update that keeps the key column leaves the key column as it was. */
  lemma UpdateKeepsKeys<T, K>(s: seq<T>, f: T -> T, key: T -> K)
    requires forall x :: x in s ==> key(f(x)) == key(x)
    ensures Map(Map(s, f), key) == Map(s, key)
    ensures UniqueKeys(s, key) ==> UniqueKeys(Map(s, f), key)
  {
    MapMap(s, f, key, key);
    forall i | 0 <= i < |s| ensures key(Map(s, f)[i]) == key(s[i]) { assert s[i] in s; }
  }

  lemma {:induction false} SumOfCounter<T, K>(s: seq<T>, f: T -> int, g: T -> int, key: T -> K, k: K)
    requires forall x :: x in s ==> g(x) == f(x) + if key(x) == k then 1 else 0
    ensures Sum(s, g) == Sum(s, f) + |Group(s, key, k)|
  {
    if s != [] {
      assert s[0] in s;
      SumOfCounter(s[1..], f, g, key, k);
      GroupCons(s, Has(key, k));
    }
  }

  /** A key that occurs in a unique key column names exactly one row: every update of the writer hits one row. */
  lemma OneRow<T, K>(s: seq<T>, key: T -> K, k: K)
    requires UniqueKeys(s, key) && exists x :: x in s && key(x) == k
    ensures |Group(s, key, k)| == 1
  {
    UniqueMatch(s, key, k);
    var x :| x in s && key(x) == k;
    FilterMember(s, Has(key, k), x);
  }

  lemma KeyOfRange<T>(s: seq<T>, key: T -> nat, n: nat, k: nat)
    requires Map(s, key) == Range(n) && 1 <= k <= n
    ensures UniqueKeys(s, key) && exists x :: x in s && key(x) == k
  {
    assert |s| == n;
    forall i | 0 <= i < n ensures key(s[i]) == i + 1 { assert Map(s, key)[i] == Range(n)[i]; }
    assert s[k - 1] in s;
  }

  // ---------------------------------------------------------------- facts about references

  lemma TxnByAppend(txns: seq<Txn>, t: Txn, code: Id, time: nat, later: nat)
    requires TxnBy(txns, code, time) && time <= later
    ensures TxnBy(txns + [t], code, later)
  {
    var x :| x in txns && x.code == code && x.time <= time;
    assert x in txns + [t];
  }

  lemma TxnByUpdate(txns: seq<Txn>, f: Txn -> Txn, code: Id, time: nat, later: nat)
    requires TxnBy(txns, code, time) && time <= later
    requires forall t :: t in txns ==> f(t).code == t.code && f(t).time == t.time
    ensures TxnBy(Map(txns, f), code, later)
  {
    var x :| x in txns && x.code == code && x.time <= time;
    var i :| 0 <= i < |txns| && txns[i] == x;
    assert Map(txns, f)[i] == f(x) && f(x) in Map(txns, f);
  }

  lemma TxnByLater(txns: seq<Txn>, code: Id, time: nat, later: nat)
    requires TxnBy(txns, code, time) && time <= later
    ensures TxnBy(txns, code, later)
  {
  }

  lemma RiskForAppend(risk: seq<RiskRow>, r: RiskRow, code: Id)
    requires RiskFor(risk, code)
    ensures RiskFor(risk + [r], code)
  {
    var x :| x in risk && x.event == code;
    assert x in risk + [r];
  }

  lemma AppendUnique<T, K>(s: seq<T>, x: T, key: T -> K)
    requires UniqueKeys(s, key) && forall y :: y in s ==> key(y) != key(x)
    ensures UniqueKeys(s + [x], key)
  {
  }

  /** The clock moves on. */
  lemma LaterClock(db: Db, clock: nat, now: nat, seed: int)
    requires Inv(db, clock, seed) && clock <= now
    ensures Inv(db, now, seed)
  {
    forall t | t in db.txns ensures GoodTxn(t, db.risk, now) { assert GoodTxn(t, db.risk, clock); }
    forall i | i in db.items ensures TxnBy(db.txns, i.event, now) { TxnByLater(db.txns, i.event, clock, now); }
    forall r | r in db.risk ensures TxnBy(db.txns, r.event, now) { TxnByLater(db.txns, r.event, clock, now); }
  }

  // ---------------------------------------------------------------- purchase

  predicate GoodDraw(d: Draw) {
    1 <= d.vendor <= VENDOR_COUNT && 1 <= d.buyer <= BUYER_COUNT && 1 <= d.platform <= MARKET_COUNT
  }

  /** The UUIDs of the draw are new. */
  ghost predicate FreshDraw(db: Db, d: Draw) {
    && (forall t :: t in db.txns ==> t.code != Id.Live(d.event))
    && (forall p :: p in db.payments ==> p.id != Id.Live(d.payment))
  }

  function NewRisk(d: Draw): RiskRow { RiskRow(Id.Live(d.event), RiskLabel(d.fraudPercent)) }

  lemma NewTxnAmount(d: Draw, now: nat)
    ensures AmountOf(NewTxn(d, now)) == Some(100 * d.cents)
  {
  }

  lemma PurchaseUniverse(db: Db, d: Draw, now: nat)
    requires Universe(db.vendors, db.buyers, db.products)
    ensures Universe(Map(db.vendors, CountedVendor(d.vendor, now)), Map(db.buyers, CountedBuyer(d.buyer)), db.products)
  {
    UpdateKeepsKeys(db.vendors, CountedVendor(d.vendor, now), VENDOR_KEY);
    UpdateKeepsKeys(db.buyers, CountedBuyer(d.buyer), BUYER_CODE);
  }

  lemma NewEventUnused(db: Db, d: Draw, clock: nat)
    requires ItemsResolve(db.items, db.txns, clock) && RiskResolves(db.risk, db.txns, clock) && FreshDraw(db, d)
    ensures forall i :: i in db.items ==> i.event != Id.Live(d.event)
    ensures forall r :: r in db.risk ==> r.event != Id.Live(d.event)
  {
    forall i | i in db.items ensures i.event != Id.Live(d.event) { assert TxnBy(db.txns, i.event, clock); }
    forall r | r in db.risk ensures r.event != Id.Live(d.event) { assert TxnBy(db.txns, r.event, clock); }
  }

  lemma PurchaseTxns(db: Db, d: Draw, now: nat, clock: nat)
    requires TxnsGood(db.txns, db.risk, clock) && GoodDraw(d) && clock <= now
    ensures TxnsGood(db.txns + [NewTxn(d, now)], db.risk + [NewRisk(d)], now)
  {
    var txns, risk := db.txns + [NewTxn(d, now)], db.risk + [NewRisk(d)];
    NewTxnAmount(d, now);
    assert NewRisk(d) in risk;
    forall t | t in txns ensures GoodTxn(t, risk, now) {
      if t in db.txns {
        assert GoodTxn(t, db.risk, clock);
        RiskForAppend(db.risk, NewRisk(d), t.code);
      }
    }
  }

  lemma PurchaseFacts(db: Db, d: Draw, products: seq<ProductKey>, now: nat, clock: nat)
    requires |products| == 2 && clock <= now
    requires ItemsResolve(db.items, db.txns, clock) && RiskResolves(db.risk, db.txns, clock)
    requires PaymentsResolve(db.payments, db.txns) && PredictionsResolve(db.predictions, db.txns, db.risk)
    ensures var txns := db.txns + [NewTxn(d, now)];
            && ItemsResolve(db.items + LinesOf(d, products), txns, now)
            && RiskResolves(db.risk + [NewRisk(d)], txns, now)
            && PaymentsResolve(db.payments + [NewPayment(d, now)], txns)
            && PredictionsResolve(db.predictions, txns, db.risk + [NewRisk(d)])
  {
    var t := NewTxn(d, now);
    var txns := db.txns + [t];
    assert t in txns;
    forall i | i in db.items + LinesOf(d, products) ensures TxnBy(txns, i.event, now) {
      if i in db.items { TxnByAppend(db.txns, t, i.event, clock, now); }
    }
    forall r | r in db.risk + [NewRisk(d)] ensures TxnBy(txns, r.event, now) {
      if r in db.risk { TxnByAppend(db.txns, t, r.event, clock, now); }
    }
    forall p | p in db.payments + [NewPayment(d, now)] ensures TxnBy(txns, p.event, p.time) {
      if p in db.payments { TxnByAppend(db.txns, t, p.event, p.time, p.time); }
    }
    forall p | p in db.predictions ensures TxnBy(txns, p.event, p.time) && RiskFor(db.risk + [NewRisk(d)], p.event) {
      TxnByAppend(db.txns, t, p.event, p.time, p.time);
      RiskForAppend(db.risk, NewRisk(d), p.event);
    }
  }

  function LinesOf(d: Draw, products: seq<ProductKey>): seq<Item>
    requires |products| == 2
  {
    [NewItem(d, products[0], 1), NewItem(d, products[1], 2)]
  }

  lemma OldLines(db: Db, d: Draw, products: seq<ProductKey>, code: Id)
    requires |products| == 2 && code != Id.Live(d.event)
    ensures Group(db.items + LinesOf(d, products), ITEM_EVENT, code) == Group(db.items, ITEM_EVENT, code)
  {
    FilterConcat(db.items, LinesOf(d, products), Has(ITEM_EVENT, code));
    FilterNone(LinesOf(d, products), Has(ITEM_EVENT, code));
  }

  lemma NewLines(db: Db, d: Draw, products: seq<ProductKey>)
    requires |products| == 2 && forall i :: i in db.items ==> i.event != Id.Live(d.event)
    ensures Group(db.items + LinesOf(d, products), ITEM_EVENT, Id.Live(d.event)) == LinesOf(d, products)
  {
    var code := Id.Live(d.event);
    FilterConcat(db.items, LinesOf(d, products), Has(ITEM_EVENT, code));
    FilterAll(LinesOf(d, products), Has(ITEM_EVENT, code));
    FilterNone(db.items, Has(ITEM_EVENT, code));
  }

  /** The new lines form their own group and leave every other group alone. */
  lemma PurchaseLines(db: Db, d: Draw, products: seq<ProductKey>, now: nat)
    requires LinesHold(db.txns, db.items) && FreshDraw(db, d)
    requires forall i :: i in db.items ==> i.event != Id.Live(d.event)
    requires |products| == 2 && products[0] != products[1] && products[0].vendor == products[1].vendor == d.vendor
    requires Canonical(products[0]) && Canonical(products[1]) && products[0].age == 0 && products[1].age == 1
    ensures LinesHold(db.txns + [NewTxn(d, now)], db.items + LinesOf(d, products))
  {
    var items := db.items + LinesOf(d, products);
    forall t | t in db.txns + [NewTxn(d, now)] ensures GoodLines(Group(items, ITEM_EVENT, t.code), t) {
      if t in db.txns {
        assert GoodLines(Group(db.items, ITEM_EVENT, t.code), t);
        OldLines(db, d, products, t.code);
      } else {
        NewLines(db, d, products);
        NewTxnAmount(d, now);
      }
    }
  }

  lemma BuyersCounted(buyers: seq<Buyer>, code: nat, txns: nat, seed: int)
    requires Map(buyers, BUYER_CODE) == Range(BUYER_COUNT) && 1 <= code <= BUYER_COUNT
    requires PurchasesCounted(buyers, txns, seed)
    ensures PurchasesCounted(Map(buyers, CountedBuyer(code)), txns + 1, seed)
  {
    var counted := (b: Buyer) => b.purchases + if b.code == code then 1 else 0;
    SumOfMap(buyers, CountedBuyer(code), PURCHASE_COUNT, counted);
    SumOfCounter(buyers, PURCHASE_COUNT, counted, BUYER_CODE, code);
    KeyOfRange(buyers, BUYER_CODE, BUYER_COUNT, code);
    OneRow(buyers, BUYER_CODE, code);
  }

  /** The text-to-number-to-text update keeps text and number in step. */
  lemma VendorsCounted(vendors: seq<Vendor>, key: nat, now: nat)
    requires VendorsAgree(vendors)
    ensures VendorsAgree(Map(vendors, CountedVendor(key, now)))
  {
    var after := Map(vendors, CountedVendor(key, now));
    forall v | v in after ensures v.completed >= 0 && TextNumber(v.totalTxns) == Some(v.completed) {
      var i :| 0 <= i < |after| && after[i] == v;
      assert vendors[i] in vendors;
      DecimalRoundTrip(TextNumber(vendors[i].totalTxns).value + 1);
    }
  }

  lemma PurchaseKeys(db: Db, d: Draw, now: nat)
    requires KeysHold(db) && FreshDraw(db, d) && forall r :: r in db.risk ==> r.event != Id.Live(d.event)
    ensures UniqueKeys(db.txns + [NewTxn(d, now)], TXN_CODE) && UniqueKeys(db.risk + [NewRisk(d)], RISK_EVENT)
    ensures UniqueKeys(db.payments + [NewPayment(d, now)], PAYMENT_ID)
  {
    AppendUnique(db.txns, NewTxn(d, now), TXN_CODE);
    AppendUnique(db.payments, NewPayment(d, now), PAYMENT_ID);
    AppendUnique(db.risk, NewRisk(d), RISK_EVENT);
  }

  lemma PurchaseKeeps(db: Db, d: Draw, now: nat, clock: nat, seed: int)
    requires Inv(db, clock, seed) && GoodDraw(d) && FreshDraw(db, d) && clock <= now
    ensures var products := YoungestTwo(db.products, d.vendor);
            |products| == 2 && Inv(AfterPurchase(db, d, products, now), now, seed)
  {
    SeededProducts(db, d.vendor);
    var products := YoungestTwo(db.products, d.vendor);
    ProductOfVendor(d.vendor, 1);
    ProductOfVendor(d.vendor, 4);
    NewEventUnused(db, d, clock);
    PurchaseUniverse(db, d, now);
    PurchaseKeys(db, d, now);
    PurchaseTxns(db, d, now, clock);
    PurchaseFacts(db, d, products, now, clock);
    PurchaseLines(db, d, products, now);
    BuyersCounted(db.buyers, d.buyer, |db.txns|, seed);
    VendorsCounted(db.vendors, d.vendor, now);
  }

  // ---------------------------------------------------------------- the other events

  lemma SessionKeeps(db: Db, s: Session, clock: nat, seed: int)
    requires Inv(db, clock, seed) && 1 <= s.buyer <= BUYER_COUNT
    requires forall x :: x in db.sessions ==> x.id != s.id
    ensures Inv(AfterSession(db, s), clock, seed)
  {
    AppendUnique(db.sessions, s, SESSION_ID);
  }

  lemma PaymentsUpdated(db: Db, id: Id, now: nat)
    requires PaymentsResolve(db.payments, db.txns) && TxnsGood(db.txns, db.risk, now)
    ensures PaymentsResolve(Map(db.payments, SettlePayment(id, now)), db.txns)
  {
    var after := Map(db.payments, SettlePayment(id, now));
    forall p | p in after ensures TxnBy(db.txns, p.event, p.time) {
      var i :| 0 <= i < |after| && after[i] == p;
      assert TxnBy(db.txns, db.payments[i].event, db.payments[i].time);
      var t :| t in db.txns && t.code == p.event && t.time <= db.payments[i].time;
      assert GoodTxn(t, db.risk, now);
    }
  }

  /** An update keyed by a unique column replaces exactly one row. */
  lemma OneReplaced<T, K>(s: seq<T>, key: T -> K, k: K, f: T -> T) returns (i: nat)
    requires UniqueKeys(s, key) && exists x :: x in s && key(x) == k
    requires forall x :: x in s && key(x) != k ==> f(x) == x
    ensures i < |s| && key(s[i]) == k && Map(s, f) == s[i := f(s[i])]
  {
    var x :| x in s && key(x) == k;
    i :| 0 <= i < |s| && s[i] == x;
    forall j | 0 <= j < |s| ensures Map(s, f)[j] == s[i := f(s[i])][j] {
      if j != i {
        assert s[j] in s && key(s[j]) != key(s[i]);
      }
    }
  }

  /** For a remembered pair exactly one payment is settled: its own, which still belongs to the same transaction. */
  lemma PaymentUpdateTouches(db: Db, pair: (Id, Id), clock: nat, seed: int, now: nat) returns (i: nat)
    requires Inv(db, clock, seed) && GoodPair(db.txns, db.payments, db.risk, pair)
    ensures i < |db.payments| && db.payments[i].id == pair.1
    ensures AfterPaymentUpdate(db, pair.1, now) ==
            db.(payments := db.payments[i := Payment(pair.1, db.payments[i].event, now, "settled")])
  {
    i := OneReplaced(db.payments, PAYMENT_ID, pair.1, SettlePayment(pair.1, now));
  }

  lemma PaymentUpdateKeeps(db: Db, id: Id, now: nat, seed: int)
    requires Inv(db, now, seed)
    ensures Inv(AfterPaymentUpdate(db, id, now), now, seed)
  {
    UpdateKeepsKeys(db.payments, SettlePayment(id, now), PAYMENT_ID);
    PaymentsUpdated(db, id, now);
  }

  lemma PredictionsAppend(db: Db, p: Prediction, pair: (Id, Id))
    requires PredictionsResolve(db.predictions, db.txns, db.risk) && TxnsGood(db.txns, db.risk, p.time)
    requires GoodPair(db.txns, db.payments, db.risk, pair) && p.event == pair.0
    ensures PredictionsResolve(db.predictions + [p], db.txns, db.risk)
  {
    var t :| t in db.txns && t.code == p.event;
    assert GoodTxn(t, db.risk, p.time);
    forall q | q in db.predictions + [p] ensures TxnBy(db.txns, q.event, q.time) && RiskFor(db.risk, q.event) {
      if q in db.predictions { assert TxnBy(db.txns, q.event, q.time); }
    }
  }

  lemma PredictionKeeps(db: Db, p: Prediction, pair: (Id, Id), seed: int)
    requires Inv(db, p.time, seed) && GoodPair(db.txns, db.payments, db.risk, pair) && p.event == pair.0
    requires forall x :: x in db.predictions ==> x.id != p.id
    ensures Inv(AfterPrediction(db, p), p.time, seed)
  {
    AppendUnique(db.predictions, p, PREDICTION_ID);
    PredictionsAppend(db, p, pair);
  }

  /** A status update changes neither the amount nor any key. */
  lemma StatusKeepsAmount(event: Id, now: nat, t: Txn)
    ensures AmountOf(CompleteTxn(event, now)(t)) == AmountOf(t)
  {
  }

  /** For a remembered pair exactly one transaction is completed, and it keeps its amount. */
  lemma StatusUpdateTouches(db: Db, pair: (Id, Id), clock: nat, seed: int, now: nat) returns (i: nat)
    requires Inv(db, clock, seed) && GoodPair(db.txns, db.payments, db.risk, pair)
    ensures i < |db.txns| && db.txns[i].code == pair.0
    ensures var t := db.txns[i];
            var done := t.(financials := t.financials["status" := Json.Text("completed")]["updated_at" := Number(now)]);
            AfterStatusUpdate(db, pair.0, now) == db.(txns := db.txns[i := done]) && AmountOf(done) == AmountOf(t)
  {
    i := OneReplaced(db.txns, TXN_CODE, pair.0, CompleteTxn(pair.0, now));
    var t := db.txns[i];
    assert t.financials + map["status" := Json.Text("completed"), "updated_at" := Number(now)]
        == t.financials["status" := Json.Text("completed")]["updated_at" := Number(now)];
  }

  lemma StatusUpdateTxns(db: Db, event: Id, now: nat)
    requires TxnsGood(db.txns, db.risk, now)
    ensures TxnsGood(Map(db.txns, CompleteTxn(event, now)), db.risk, now)
  {
    var txns := Map(db.txns, CompleteTxn(event, now));
    forall t | t in txns ensures GoodTxn(t, db.risk, now) {
      var i :| 0 <= i < |txns| && txns[i] == t;
      assert GoodTxn(db.txns[i], db.risk, now);
      StatusKeepsAmount(event, now, db.txns[i]);
    }
  }

  lemma SameLines(lines: seq<Item>, t: Txn, u: Txn)
    requires GoodLines(lines, t) && u.vendor == t.vendor && AmountOf(u) == AmountOf(t)
    ensures GoodLines(lines, u)
  {
  }

  lemma StatusUpdateLines(db: Db, event: Id, now: nat)
    requires LinesHold(db.txns, db.items)
    ensures LinesHold(Map(db.txns, CompleteTxn(event, now)), db.items)
  {
    var txns := Map(db.txns, CompleteTxn(event, now));
    forall t | t in txns ensures GoodLines(Group(db.items, ITEM_EVENT, t.code), t) {
      var i :| 0 <= i < |txns| && txns[i] == t;
      var u := db.txns[i];
      assert GoodLines(Group(db.items, ITEM_EVENT, u.code), u);
      StatusKeepsAmount(event, now, u);
      SameLines(Group(db.items, ITEM_EVENT, u.code), u, t);
    }
  }

  lemma StatusUpdateFacts(db: Db, event: Id, now: nat)
    requires ItemsResolve(db.items, db.txns, now) && RiskResolves(db.risk, db.txns, now)
    requires PaymentsResolve(db.payments, db.txns) && PredictionsResolve(db.predictions, db.txns, db.risk)
    ensures var txns := Map(db.txns, CompleteTxn(event, now));
            && ItemsResolve(db.items, txns, now) && RiskResolves(db.risk, txns, now)
            && PaymentsResolve(db.payments, txns) && PredictionsResolve(db.predictions, txns, db.risk)
  {
    var f := CompleteTxn(event, now);
    var txns := Map(db.txns, f);
    forall i | i in db.items ensures TxnBy(txns, i.event, now) { TxnByUpdate(db.txns, f, i.event, now, now); }
    forall r | r in db.risk ensures TxnBy(txns, r.event, now) { TxnByUpdate(db.txns, f, r.event, now, now); }
    forall p | p in db.payments ensures TxnBy(txns, p.event, p.time) { TxnByUpdate(db.txns, f, p.event, p.time, p.time); }
    forall p | p in db.predictions ensures TxnBy(txns, p.event, p.time) && RiskFor(db.risk, p.event) {
      TxnByUpdate(db.txns, f, p.event, p.time, p.time);
    }
  }

  lemma StatusUpdateKeeps(db: Db, event: Id, now: nat, seed: int)
    requires Inv(db, now, seed)
    ensures Inv(AfterStatusUpdate(db, event, now), now, seed)
  {
    UpdateKeepsKeys(db.txns, CompleteTxn(event, now), TXN_CODE);
    StatusUpdateTxns(db, event, now);
    StatusUpdateLines(db, event, now);
    StatusUpdateFacts(db, event, now);
  }

  // ---------------------------------------------------------------- remembered pairs

  lemma PairsAfterPurchase(db: Db, d: Draw, products: seq<ProductKey>, now: nat, recent: seq<(Id, Id)>)
    requires |products| == 2 && PairsGood(db, recent)
    ensures PairsGood(AfterPurchase(db, d, products, now), recent + [(Id.Live(d.event), Id.Live(d.payment))])
  {
    var after := AfterPurchase(db, d, products, now);
    assert NewTxn(d, now) in after.txns && NewPayment(d, now) in after.payments && NewRisk(d) in after.risk;
    forall pair | pair in recent + [(Id.Live(d.event), Id.Live(d.payment))]
      ensures GoodPair(after.txns, after.payments, after.risk, pair)
    {
      if pair in recent {
        assert GoodPair(db.txns, db.payments, db.risk, pair);
        var t :| t in db.txns && t.code == pair.0;
        var p :| p in db.payments && p.id == pair.1 && p.event == pair.0;
        assert t in after.txns && p in after.payments;
        RiskForAppend(db.risk, NewRisk(d), pair.0);
      }
    }
  }

  lemma PairsAfterPaymentUpdate(db: Db, id: Id, now: nat, recent: seq<(Id, Id)>)
    requires PairsGood(db, recent)
    ensures PairsGood(AfterPaymentUpdate(db, id, now), recent)
  {
    var after := AfterPaymentUpdate(db, id, now);
    forall pair | pair in recent ensures GoodPair(after.txns, after.payments, after.risk, pair) {
      assert GoodPair(db.txns, db.payments, db.risk, pair);
      var p :| p in db.payments && p.id == pair.1 && p.event == pair.0;
      var i :| 0 <= i < |db.payments| && db.payments[i] == p;
      assert after.payments[i] in after.payments;
    }
  }

  lemma PairsAfterStatusUpdate(db: Db, event: Id, now: nat, recent: seq<(Id, Id)>)
    requires PairsGood(db, recent)
    ensures PairsGood(AfterStatusUpdate(db, event, now), recent)
  {
    var after := AfterStatusUpdate(db, event, now);
    forall pair | pair in recent ensures GoodPair(after.txns, after.payments, after.risk, pair) {
      assert GoodPair(db.txns, db.payments, db.risk, pair);
      var t :| t in db.txns && t.code == pair.0;
      var i :| 0 <= i < |db.txns| && db.txns[i] == t;
      assert after.txns[i] in after.txns;
    }
  }

  lemma PairsAfterInsert(db: Db, after: Db, recent: seq<(Id, Id)>)
    requires PairsGood(db, recent) && after.txns == db.txns && after.payments == db.payments && after.risk == db.risk
    ensures PairsGood(after, recent)
  {
    forall pair | pair in recent ensures GoodPair(after.txns, after.payments, after.risk, pair) {
      assert GoodPair(db.txns, db.payments, db.risk, pair);
    }
  }
}

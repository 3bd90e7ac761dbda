/** The row formulas of the bronze history, and their referential integrity at every row index. */
module HistoryRows {
  import opened Collections
  import opened Schema
  import opened Ids

  const YEAR_SECONDS: nat := 31536000

  // ---------------------------------------------------------------- the formulas

  datatype TxnRow = TxnRow(event: string, second: nat, platform: nat, vendor: nat, buyer: nat, origin: string,
                           dest: string, crossBorder: nat, route: string, border: string, amount: int)

  datatype ItemRow = ItemRow(event: nat, key: ProductKey, price: int, qty: nat)

  /** Times are milliseconds since the start of the history. */
  datatype RefRow = RefRow(id: nat, event: nat, time: nat)

  /** Money is counted in hundredths of a cent, so that the 45/55 split of a whole number of cents is exact. */
  function Amount(i: nat): int { 100 * (500 + i % 250000) }

  function Region(n: nat): string { if n == 0 then "NA" else if n == 1 then "EU" else if n == 2 then "APAC" else "LATAM" }

  function Transaction(i: nat): TxnRow
    requires i >= 1
  {
    var abroad := i % 4 != (i / 3) % 4;
    TxnRow(HistoryId("EVT", i), i % YEAR_SECONDS, 1 + (i - 1) % MARKET_COUNT, 1 + (i - 1) % VENDOR_COUNT,
           1 + (i - 1) % BUYER_COUNT, Region(i % 4), Region((i / 3) % 4), if abroad then 1 else 0,
           if abroad then "multi-hop" else "direct", if abroad then "cross-border" else "domestic", Amount(i))
  }

  function ItemProduct(i: nat): nat
    requires i >= 1
  {
    (((i - 1) / 2) % VENDOR_COUNT) * PRODUCTS_PER_VENDOR + 1 + (i - 1) % 2
  }

  function Item(i: nat): ItemRow
    requires i >= 1
  {
    ItemRow(1 + (i - 1) / 2,
            ProductKey(ItemProduct(i) % 20, ItemProduct(i) % 100, ItemProduct(i) % PRODUCTS_PER_VENDOR,
                       1 + ((i - 1) / 2) % VENDOR_COUNT),
            (500 + (1 + (i - 1) / 2) % 250000) * (if (i - 1) % 2 == 0 then 45 else 55),
            1)
  }

  function ReferencedEvent(i: nat): nat
    requires i >= 1
  {
    1 + (i - 1) % HISTORY_REFERENCE_COUNT
  }

  function Payment(i: nat): RefRow
    requires i >= 1
  {
    RefRow(i, ReferencedEvent(i), (ReferencedEvent(i) % YEAR_SECONDS) * 1000 + (10 + i % 900))
  }

  function Prediction(i: nat): RefRow
    requires i >= 1
  {
    RefRow(i, ReferencedEvent(i), (ReferencedEvent(i) % YEAR_SECONDS) * 1000 + (1 + i % 300) * 1000)
  }

  // ---------------------------------------------------------------- transactions and their items

  /** What the validator asks of a sampled transaction, from its printed columns. */
  predicate TxnRowGood(row: TxnRow, txns: nat) {
    var index := HistoryIndex("EVT", row.event);
    var crosses := row.origin != row.dest;
    && index.Some? && 1 <= index.value <= txns
    && 1 <= row.platform <= MARKET_COUNT && 1 <= row.vendor <= VENDOR_COUNT && 1 <= row.buyer <= BUYER_COUNT
    && row.crossBorder == (if crosses then 1 else 0)
    && row.route == (if crosses then "multi-hop" else "direct")
    && row.border == (if crosses then "cross-border" else "domestic")
  }

  lemma RegionsDiffer(m: nat, n: nat)
    requires m < 4 && n < 4
    ensures Region(m) == Region(n) <==> m == n
  {
    assert |Region(0)| == |Region(1)| == 2 && |Region(2)| == 4 && |Region(3)| == 5 && Region(0)[0] != Region(1)[0];
  }

  /** A generated transaction passes the validator exactly as long as its index fits the fourteen digits of its id. */
  lemma GeneratedTransactionPasses(i: nat, txns: nat)
    requires 1 <= i <= txns
    ensures TxnRowGood(Transaction(i), txns) <==> i < Pow10(14)
  {
    HistoryIdRoundTrip("EVT", i);
    RegionsDiffer(i % 4, (i / 3) % 4);
  }

  lemma LineOfItem(i: nat) returns (t: nat, line: nat)
    requires i >= 1
    ensures t >= 1 && 1 <= line <= 2 && i == 2 * (t - 1) + line
    ensures Item(i).event == t && (i - 1) % 2 == line - 1 && (i - 1) / 2 == t - 1
  {
    t, line := 1 + (i - 1) / 2, 1 + (i - 1) % 2;
  }

  function VendorOf(t: nat): nat
    requires t >= 1
  {
    1 + (t - 1) % VENDOR_COUNT
  }

  function LineProduct(t: nat, line: nat): nat
    requires t >= 1
  {
    (VendorOf(t) - 1) * PRODUCTS_PER_VENDOR + line
  }

  /** Percent of the amount that a line carries. */
  function Share(line: nat): int { if line == 1 then 45 else 55 }

  /** Item `i`, the `line`-th of transaction `t`, in terms of the canonical products and of the amount of `t`. */
  lemma ItemLine(i: nat, t: nat, line: nat)
    requires t >= 1 && 1 <= line <= 2 && i == 2 * (t - 1) + line
    ensures Item(i) == ItemRow(t, ProductKeyOf(LineProduct(t, line)), Amount(t) / 100 * Share(line), 1)
  {
    assert (i - 1) / 2 == t - 1 && (i - 1) % 2 == line - 1;
    ProductOfVendor(VendorOf(t), line);
    assert ItemProduct(i) == LineProduct(t, line);
  }

  lemma LineProductSound(t: nat, line: nat)
    requires t >= 1 && 1 <= line <= 2
    ensures var k := ProductKeyOf(LineProduct(t, line));
            k.vendor == VendorOf(t) == Transaction(t).vendor && k.age == line && Canonical(k)
  {
    hide HistoryId, Amount, Region;
    ProductOfVendor(VendorOf(t), line);
    assert 1 <= LineProduct(t, line) <= PRODUCT_COUNT;
  }

  /** The two items of a transaction are different canonical products of its vendor. */
  lemma ItemsOfTransaction(t: nat)
    requires t >= 1
    ensures Item(2 * t - 1).event == t && Item(2 * t).event == t
    ensures Item(2 * t - 1).key != Item(2 * t).key
    ensures Item(2 * t - 1).key.vendor == Transaction(t).vendor && Item(2 * t).key.vendor == Transaction(t).vendor
    ensures Canonical(Item(2 * t - 1).key) && Canonical(Item(2 * t).key)
  {
    ItemLine(2 * t - 1, t, 1);
    ItemLine(2 * t, t, 2);
    LineProductSound(t, 1);
    LineProductSound(t, 2);
  }

  /** The two items of a transaction split its amount. */
  lemma ItemsSplitAmount(t: nat)
    requires t >= 1
    ensures Item(2 * t - 1).price * Item(2 * t - 1).qty + Item(2 * t).price * Item(2 * t).qty
            == Transaction(t).amount
  {
    ItemLine(2 * t - 1, t, 1);
    ItemLine(2 * t, t, 2);
  }

  /** Item primary keys never collide. */
  lemma ItemsDistinct(i: nat, j: nat)
    requires i >= 1 && j >= 1 && Item(i).event == Item(j).event && Item(i).key == Item(j).key
    ensures i == j
  {
    var t, line := LineOfItem(i);
    var u, other := LineOfItem(j);
    ItemLine(i, t, line);
    ItemLine(j, u, other);
    LineProductSound(t, line);
    LineProductSound(u, other);
  }

  /** An item row belongs to transaction `t` exactly when it is one of rows `2t - 1` and `2t`. */
  lemma ItemOwner(i: nat, t: nat)
    requires i >= 1 && t >= 1
    ensures Item(i).event == t <==> i == 2 * t - 1 || i == 2 * t
  {
    var u, line := LineOfItem(i);
  }

  predicate ItemsComplete(items: nat, txns: nat) {
    && (forall t :: 1 <= t <= txns ==> 2 * t <= items)
    && (forall i :: 1 <= i <= items ==> 1 <= Item(i).event <= txns)
  }

  /** Every transaction has both its items and every item its transaction if and only if there are twice as many items. */
  lemma ItemsCompleteIff(items: nat, txns: nat)
    ensures ItemsComplete(items, txns) <==> items == 2 * txns
  {
    if ItemsComplete(items, txns) {
      if items > 0 {
        var t, line := LineOfItem(items);
        assert 1 <= Item(items).event <= txns;
      }
      assert txns >= 1 ==> 2 * txns <= items;
    }
    if items == 2 * txns {
      forall i | 1 <= i <= items ensures 1 <= Item(i).event <= txns {
        var t, line := LineOfItem(i);
      }
    }
  }

  // ---------------------------------------------------------------- payments, risk rows and predictions

  /** `payments` rows all refer to one of `events` rows exactly when those cover the reference domain in use. */
  lemma ReferencesResolveIff(rows: nat, events: nat)
    ensures (forall i :: 1 <= i <= rows ==> 1 <= ReferencedEvent(i) <= events)
            <==> Min(rows, HISTORY_REFERENCE_COUNT) <= events
  {
    var top := Min(rows, HISTORY_REFERENCE_COUNT);
    if (forall i :: 1 <= i <= rows ==> 1 <= ReferencedEvent(i) <= events) && top >= 1 {
      assert ReferencedEvent(top) == top;
    }
    if top <= events {
      forall i | 1 <= i <= rows ensures 1 <= ReferencedEvent(i) <= events {
        if i <= HISTORY_REFERENCE_COUNT {
          assert ReferencedEvent(i) == i;
        }
      }
    }
  }

  function TransactionTime(i: nat): nat
    requires i >= 1
  {
    Transaction(i).second * 1000
  }

  /** No payment and no prediction predates the transaction it names. */
  lemma NothingPredates(i: nat)
    requires i >= 1
    ensures Payment(i).time > TransactionTime(Payment(i).event)
    ensures Prediction(i).time > TransactionTime(Prediction(i).event)
  {
  }

  /**
   With the row counts the validator asks for, history is referentially sound: payments and predictions resolve, the
   latter to risk rows, risk rows resolve to transactions, and all items are in place.
   */
  lemma HistorySound(txns: nat, items: nat, payments: nat, risks: nat, predictions: nat)
    requires items == 2 * txns
    requires HISTORY_REFERENCE_COUNT <= risks <= txns
    ensures ItemsComplete(items, txns)
    ensures forall i :: 1 <= i <= payments ==> 1 <= Payment(i).event <= txns
    ensures forall i :: 1 <= i <= predictions ==> 1 <= Prediction(i).event <= risks <= txns
  {
    ItemsCompleteIff(items, txns);
    ReferencesResolveIff(payments, txns);
    ReferencesResolveIff(predictions, risks);
    forall i | 1 <= i <= payments ensures 1 <= Payment(i).event <= txns {
      assert 1 <= ReferencedEvent(i) <= txns;
    }
    forall i | 1 <= i <= predictions ensures 1 <= Prediction(i).event <= risks {
      assert 1 <= ReferencedEvent(i) <= risks;
    }
  }

  // ---------------------------------------------------------------- the validator's item sample

  function ExpectedKeys(event: nat): set<ProductKey>
    requires event >= 1
  {
    {ProductKeyOf(LineProduct(event, 1)), ProductKeyOf(LineProduct(event, 2))}
  }

  function Abs(x: int): int { if x < 0 then -x else x }

  /** One cent. */
  const TOLERANCE: int := 100

  function ExpectedPrice(event: nat, key: ProductKey): int
    requires event >= 1
  {
    Amount(event) / 100 * (if key == ProductKeyOf(LineProduct(event, 1)) then 45 else 55)
  }

  /** What one sampled row must satisfy. */
  predicate ItemRowGood(row: ItemRow, txns: nat) {
    && 1 <= row.event <= txns
    && row.key.vendor == VendorOf(row.event)
    && row.key in ExpectedKeys(row.event)
    && row.qty == 1 && Abs(row.price - ExpectedPrice(row.event, row.key)) <= TOLERANCE
  }

  /** The products the sample shows for an event. */
  function KeysOf(rows: seq<ItemRow>, event: nat): set<ProductKey> {
    if rows == [] then {}
    else
      var last := rows[|rows| - 1];
      KeysOf(rows[..|rows| - 1], event) + if last.event == event then {last.key} else {}
  }

  ghost predicate SampleGood(rows: seq<ItemRow>, txns: nat) {
    && (forall r :: r in rows ==> ItemRowGood(r, txns))
    && (forall r :: r in rows && r.event >= 1 ==> KeysOf(rows, r.event) == ExpectedKeys(r.event))
  }

  function KeysAt(byEvent: map<nat, set<ProductKey>>, event: nat): set<ProductKey> {
    if event in byEvent then byEvent[event] else {}
  }

  /** `items_by_event[event].add(product)` */
  function AddKey(byEvent: map<nat, set<ProductKey>>, row: ItemRow): map<nat, set<ProductKey>> {
    byEvent[row.event := KeysAt(byEvent, row.event) + {row.key}]
  }

  /** `items_by_event` after some rows: every event seen, with the products it showed. */
  ghost predicate GatheredKeys(byEvent: map<nat, set<ProductKey>>, rows: seq<ItemRow>) {
    && (forall e: nat :: KeysAt(byEvent, e) == KeysOf(rows, e))
    && (forall e: nat :: e in byEvent ==> byEvent[e] != {})
  }

  lemma KeysOfStep(rows: seq<ItemRow>, n: nat, e: nat)
    requires n < |rows|
    ensures KeysOf(rows[..n + 1], e) == KeysOf(rows[..n], e) + if rows[n].event == e then {rows[n].key} else {}
  {
    assert rows[..n + 1][..n] == rows[..n];
  }

  lemma GatherKeysStep(byEvent: map<nat, set<ProductKey>>, rows: seq<ItemRow>, n: nat)
    requires n < |rows| && GatheredKeys(byEvent, rows[..n])
    ensures GatheredKeys(AddKey(byEvent, rows[n]), rows[..n + 1])
  {
    forall e: nat ensures KeysAt(AddKey(byEvent, rows[n]), e) == KeysOf(rows[..n + 1], e) { KeysOfStep(rows, n, e); }
    forall e: nat | e in AddKey(byEvent, rows[n]) ensures AddKey(byEvent, rows[n])[e] != {} {
      assert rows[n].key in AddKey(byEvent, rows[n])[rows[n].event];
    }
  }

  lemma {:induction false} KeysOfSeen(rows: seq<ItemRow>, e: nat)
    ensures KeysOf(rows, e) != {} <==> exists i :: 0 <= i < |rows| && rows[i].event == e
  {
    if rows != [] {
      var n := |rows| - 1;
      KeysOfSeen(rows[..n], e);
      assert rows[n].event == e ==> rows[n].key in KeysOf(rows, e);
    }
  }

  /** The per-row checks of the sample, which also gather the products per event. */
  method CheckItemRows(rows: seq<ItemRow>, txns: nat) returns (ok: bool, byEvent: map<nat, set<ProductKey>>)
    ensures ok <==> forall r :: r in rows ==> ItemRowGood(r, txns)
    ensures ok ==> GatheredKeys(byEvent, rows)
  {
    byEvent := map[];
    for n := 0 to |rows|
      invariant forall i :: 0 <= i < n ==> ItemRowGood(rows[i], txns)
      invariant GatheredKeys(byEvent, rows[..n])
    {
      var row := rows[n];
      if !ItemRowGood(row, txns) {
        return false, byEvent;
      }
      GatherKeysStep(byEvent, rows, n);
      byEvent := AddKey(byEvent, row);
    }
    assert rows[..|rows|] == rows;
    ok := true;
  }

  /** Every event in the dictionary shows exactly its two products. */
  ghost predicate EventsGood(byEvent: map<nat, set<ProductKey>>) {
    forall e: nat :: e in byEvent ==> e >= 1 && byEvent[e] == ExpectedKeys(e)
  }

  lemma EventsAreSample(byEvent: map<nat, set<ProductKey>>, rows: seq<ItemRow>, txns: nat)
    requires GatheredKeys(byEvent, rows) && forall r :: r in rows ==> ItemRowGood(r, txns)
    ensures forall e: nat :: e in byEvent ==> e >= 1
    ensures EventsGood(byEvent) <==> SampleGood(rows, txns)
  {
    forall e: nat | e in byEvent ensures e >= 1 && exists i :: 0 <= i < |rows| && rows[i].event == e {
      KeysOfSeen(rows, e);
      assert KeysAt(byEvent, e) == KeysOf(rows, e);
      var i :| 0 <= i < |rows| && rows[i].event == e;
      assert rows[i] in rows;
    }
    forall r | r in rows ensures r.event in byEvent && byEvent[r.event] == KeysOf(rows, r.event) {
      KeysOfSeen(rows, r.event);
      assert KeysAt(byEvent, r.event) == KeysOf(rows, r.event);
    }
    if SampleGood(rows, txns) {
      forall e: nat | e in byEvent ensures e >= 1 && byEvent[e] == ExpectedKeys(e) {
        var i :| 0 <= i < |rows| && rows[i].event == e;
        assert rows[i] in rows;
      }
    }
  }

  /** The item part of `_check_fact_samples`: the per-row checks, then the products gathered per event. */
  method CheckItems(rows: seq<ItemRow>, txns: nat) returns (ok: bool)
    ensures ok <==> SampleGood(rows, txns)
  {
    var byEvent;
    ok, byEvent := CheckItemRows(rows, txns);
    if !ok {
      return;
    }
    EventsAreSample(byEvent, rows, txns);
    var todo := byEvent.Keys;
    while todo != {}
      invariant todo <= byEvent.Keys && ok
      invariant forall e: nat :: e in byEvent && e !in todo ==> e >= 1 && byEvent[e] == ExpectedKeys(e)
      decreases |todo|
    {
      var e :| e in todo;
      if byEvent[e] != ExpectedKeys(e) {
        return false;
      }
      todo := todo - {e};
    }
  }

  function FirstItems(k: nat): (rows: seq<ItemRow>)
    ensures |rows| == k && forall n :: 0 <= n < k ==> rows[n] == Item(n + 1)
  {
    seq(k, n requires 0 <= n => Item(n + 1))
  }

  lemma {:induction false} KeysOfFirstItems(k: nat, t: nat)
    requires t >= 1
    ensures KeysOf(FirstItems(k), t) ==
            if 2 * t <= k then {Item(2 * t - 1).key, Item(2 * t).key}
            else if 2 * t - 1 <= k then {Item(2 * t - 1).key} else {}
  {
    if k > 0 {
      assert FirstItems(k)[..k - 1] == FirstItems(k - 1);
      KeysOfFirstItems(k - 1, t);
      ItemOwner(k, t);
    }
  }

  lemma ItemGood(i: nat, txns: nat)
    requires 1 <= i <= 2 * txns
    ensures ItemRowGood(Item(i), txns)
  {
    var t, line := LineOfItem(i);
    ItemLine(i, t, line);
    LineProductSound(t, 1);
    LineProductSound(t, 2);
  }

  lemma ExpectedKeysAre(t: nat)
    requires t >= 1
    ensures ExpectedKeys(t) == {Item(2 * t - 1).key, Item(2 * t).key}
  {
    ItemLine(2 * t - 1, t, 1);
    ItemLine(2 * t, t, 2);
  }

  /** A sample of the first `k` generated items passes the validator if and only if it cuts no transaction in half. */
  lemma GeneratedSamplePasses(k: nat, txns: nat)
    requires k <= 2 * txns
    ensures SampleGood(FirstItems(k), txns) <==> k % 2 == 0
  {
    var rows := FirstItems(k);
    forall r | r in rows ensures ItemRowGood(r, txns) {
      var n :| 0 <= n < k && rows[n] == r;
      ItemGood(n + 1, txns);
    }
    if k % 2 == 0 {
      forall r | r in rows ensures KeysOf(rows, r.event) == ExpectedKeys(r.event) {
        var n :| 0 <= n < k && rows[n] == r;
        WholeTransaction(k, n + 1);
      }
    } else {
      assert rows[k - 1] in rows;
      HalfTransaction(k);
    }
  }

  lemma WholeTransaction(k: nat, i: nat)
    requires 1 <= i <= k && k % 2 == 0
    ensures KeysOf(FirstItems(k), Item(i).event) == ExpectedKeys(Item(i).event)
  {
    var t, line := LineOfItem(i);
    KeysOfFirstItems(k, t);
    ExpectedKeysAre(t);
  }

  lemma HalfTransaction(k: nat)
    requires k % 2 == 1
    ensures Item(k).event >= 1 && KeysOf(FirstItems(k), Item(k).event) != ExpectedKeys(Item(k).event)
  {
    hide Item, KeysOf, FirstItems, ProductKeyOf, LineProduct;
    var t, line := LineOfItem(k);
    KeysOfFirstItems(k, t);
    ExpectedKeysAre(t);
    ItemsOfTransaction(t);
    assert Item(2 * t).key in ExpectedKeys(t) && Item(2 * t).key !in KeysOf(FirstItems(k), t);
  }
}

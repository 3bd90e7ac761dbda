/**
 Silver as `_build_silver` reads it: generated history, plus live rows read table by table while the writer goes on.
 Row counts survive the skew between the reads; the money differs by exactly what was bought in one of the gaps.
 */
module Snapshot {
  import opened Collections
  import opened Schema
  import opened Ids
  import opened Records
  import opened Relational
  import opened Gold
  import opened GoldTotals
  import opened Live
  import opened LiveProofs
  import opened LiveRuns
  import HistoryRows

  /** 2024-01-01, in microseconds since 1970. */
  const HISTORY_START: nat := 1704067200000000

  // ---------------------------------------------------------------- history as Silver rows

  function HistTxn(i: nat, trace: nat -> string): Txn
    requires i >= 1
  {
    var t := HistoryRows.Transaction(i);
    Txn(Hist(i), HISTORY_START + t.second * 1000000, t.platform, t.vendor, t.buyer, t.crossBorder,
        map["amount" := Number(t.amount), "currency" := Json.Text("USD"), "status" := Json.Text("settled"),
            "trace" := Json.Text(trace(i))])
  }

  function HistItem(i: nat): Item
    requires i >= 1
  {
    var row := HistoryRows.Item(i);
    Item(Hist(row.event), row.key, row.price, row.qty)
  }

  function HistPayment(i: nat): Payment
    requires i >= 1
  {
    var p := HistoryRows.Payment(i);
    Payment(Hist(i), Hist(p.event), HISTORY_START + p.time * 1000, "settled")
  }

  function HistRisk(i: nat): RiskRow {
    RiskRow(Hist(i), if i % 1000 >= 700 then "high" else if i % 1000 >= 300 then "medium" else "low")
  }

  function HistSession(i: nat): Session
    requires i >= 1
  {
    Session(Hist(i), 1 + (i - 1) % BUYER_COUNT, i % 5 == 0)
  }

  /** Row counts of the generated tables, and the trace hashes. */
  datatype History = History(txns: nat, items: nat, sessions: nat, payments: nat, risk: nat, trace: nat -> string)

  function HistTxns(h: History): (r: seq<Txn>)
    ensures |r| == h.txns && forall j :: 0 <= j < |r| ==> r[j] == HistTxn(j + 1, h.trace)
  {
    seq(h.txns, j requires 0 <= j => HistTxn(j + 1, h.trace))
  }

  function HistItems(n: nat): (r: seq<Item>)
    ensures |r| == n && forall j :: 0 <= j < |r| ==> r[j] == HistItem(j + 1)
  {
    seq(n, j requires 0 <= j => HistItem(j + 1))
  }

  function HistRisks(n: nat): (r: seq<RiskRow>)
    ensures |r| == n && forall j :: 0 <= j < |r| ==> r[j] == HistRisk(j + 1)
  {
    seq(n, j requires 0 <= j => HistRisk(j + 1))
  }

  function HistSessions(n: nat): (r: seq<Session>)
    ensures |r| == n && forall j :: 0 <= j < |r| ==> r[j] == HistSession(j + 1)
  {
    seq(n, j requires 0 <= j => HistSession(j + 1))
  }

  function HistPayments(n: nat): (r: seq<Payment>)
    ensures |r| == n && forall j :: 0 <= j < |r| ==> r[j] == HistPayment(j + 1)
  {
    seq(n, j requires 0 <= j => HistPayment(j + 1))
  }

  // ---------------------------------------------------------------- reads at different times

  /** Table `k` of `TABLES` is read after `cuts[k]` of the events. */
  predicate ReadOrder(cuts: seq<nat>, events: nat) {
    |cuts| == 10 && (forall k :: 0 <= k < 10 ==> cuts[k] <= events) && forall j, k :: 0 <= j <= k < 10 ==> cuts[j] <= cuts[k]
  }

  function At(db: Db, steps: seq<Step>, n: nat): Db
    requires n <= |steps|
  {
    RunLive(db, steps[..n])
  }

  /** The Silver tables: dimensions as read, facts as history followed by what was read. */
  function SilverOf(h: History, db: Db, steps: seq<Step>, cuts: seq<nat>): Silver
    requires ReadOrder(cuts, |steps|)
  {
    Silver(At(db, steps, cuts[1]).vendors, At(db, steps, cuts[2]).buyers, At(db, steps, cuts[3]).products,
           HistTxns(h) + At(db, steps, cuts[4]).txns, HistItems(h.items) + At(db, steps, cuts[5]).items,
           HistSessions(h.sessions) + At(db, steps, cuts[6]).sessions,
           HistPayments(h.payments) + At(db, steps, cuts[7]).payments, HistRisks(h.risk) + At(db, steps, cuts[8]).risk)
  }

  lemma {:induction false} PrefixEnabled(db: Db, clock: nat, steps: seq<Step>, n: nat)
    requires AllEnabled(db, clock, steps) && n <= |steps|
    ensures AllEnabled(db, clock, steps[..n])
    decreases n
  {
    if n > 0 {
      PrefixEnabled(After(db, steps[0]), steps[0].now, steps[1..], n - 1);
      assert steps[..n][1..] == steps[1..][..n - 1];
    }
  }

  lemma {:induction false} SpentConcat(a: seq<Step>, b: seq<Step>)
    ensures Spent(a + b) == Spent(a) + Spent(b)
  {
    if a == [] {
      assert a + b == b;
    } else {
      assert (a + b)[1..] == a[1..] + b;
      SpentConcat(a[1..], b);
    }
  }

  /** What one read sees: a database that satisfies the invariant. */
  lemma ReadKeeps(db: Db, clock: nat, steps: seq<Step>, n: nat, seed: int) returns (now: nat)
    requires Inv(db, clock, seed) && AllEnabled(db, clock, steps) && n <= |steps|
    ensures Inv(At(db, steps, n), now, seed)
    ensures TotalAmount(At(db, steps, n).txns) == TotalAmount(db.txns) + Spent(steps[..n])
  {
    PrefixEnabled(db, clock, steps, n);
    RunKeeps(db, clock, steps[..n], seed);
    RunSpends(db, clock, steps[..n], seed);
    now := LastTime(clock, steps[..n]);
  }

  // ---------------------------------------------------------------- keys across history and live rows

  lemma HistAndLive<T>(hist: seq<T>, live: seq<T>, key: T -> Id)
    requires forall j :: 0 <= j < |hist| ==> key(hist[j]) == Hist(j + 1)
    requires UniqueKeys(live, key) && forall x :: x in live ==> key(x).Live?
    ensures UniqueKeys(hist + live, key)
  {
    forall i, j | 0 <= i < j < |hist + live| ensures key((hist + live)[i]) != key((hist + live)[j]) {
      if j >= |hist| { assert live[j - |hist|] in live; }
    }
  }

  lemma LiveIds(db: Db, clock: nat, seed: int)
    requires Inv(db, clock, seed)
    ensures forall t :: t in db.txns ==> TXN_CODE(t).Live?
    ensures forall r :: r in db.risk ==> RISK_EVENT(r).Live?
  {
    forall t | t in db.txns ensures TXN_CODE(t).Live? { assert GoodTxn(t, db.risk, clock); }
    forall r | r in db.risk ensures RISK_EVENT(r).Live? {
      assert TxnBy(db.txns, r.event, clock);
      var t :| t in db.txns && t.code == r.event;
      assert GoodTxn(t, db.risk, clock);
    }
  }

  lemma UniverseKeys(vendors: seq<Vendor>, buyers: seq<Buyer>, products: seq<Product>)
    requires Universe(vendors, buyers, products)
    ensures UniqueKeys(vendors, VENDOR_KEY) && UniqueKeys(buyers, BUYER_CODE) && UniqueKeys(products, PRODUCT_KEY)
  {
    KeyOfRange(vendors, VENDOR_KEY, VENDOR_COUNT, 1);
    KeyOfRange(buyers, BUYER_CODE, BUYER_COUNT, 1);
    forall i, j | 0 <= i < j < |products| ensures PRODUCT_KEY(products[i]) != PRODUCT_KEY(products[j]) {
      assert Map(products, PRODUCT_KEY)[i] == ProductKeyOf(i + 1) && Map(products, PRODUCT_KEY)[j] == ProductKeyOf(j + 1);
      if ProductKeyOf(i + 1) == ProductKeyOf(j + 1) { ProductKeyInjective(i + 1, j + 1); }
    }
  }

  lemma CanonicalIsListed(products: seq<Product>, k: ProductKey)
    requires Map(products, PRODUCT_KEY) == ProductRange(1, PRODUCT_COUNT + 1) && Canonical(k)
    ensures k in Map(products, PRODUCT_KEY)
  {
    var i :| 1 <= i <= PRODUCT_COUNT && k == ProductKeyOf(i);
    assert ProductRange(1, PRODUCT_COUNT + 1)[i - 1] == k;
  }

  lemma LiveItem(db: Db, clock: nat, seed: int, i: Item)
    requires Inv(db, clock, seed) && i in db.items
    ensures Canonical(i.key) && i.qty == 1
  {
    assert TxnBy(db.txns, i.event, clock);
    var t :| t in db.txns && t.code == i.event;
    assert GoodLines(Group(db.items, ITEM_EVENT, t.code), t);
    FilterMember(db.items, Has(ITEM_EVENT, t.code), i);
  }

  lemma HistItemSound(i: nat)
    requires i >= 1
    ensures Canonical(HistItem(i).key) && HistItem(i).qty == 1
  {
    var t, line := HistoryRows.LineOfItem(i);
    HistoryRows.ItemLine(i, t, line);
    HistoryRows.LineProductSound(t, line);
  }

  lemma TxnsInUniverse(h: History, db: Db, clock: nat, seed: int)
    requires Inv(db, clock, seed)
    ensures forall t :: t in HistTxns(h) + db.txns ==> t.vendor in Range(VENDOR_COUNT) && t.buyer in Range(BUYER_COUNT)
  {
    forall t | t in HistTxns(h) + db.txns ensures t.vendor in Range(VENDOR_COUNT) && t.buyer in Range(BUYER_COUNT) {
      assert t in db.txns ==> GoodTxn(t, db.risk, clock);
      assert Range(VENDOR_COUNT)[t.vendor - 1] == t.vendor && Range(BUYER_COUNT)[t.buyer - 1] == t.buyer;
    }
  }

  lemma ItemsInUniverse(h: History, db: Db, clock: nat, seed: int)
    requires Inv(db, clock, seed)
    ensures forall i :: i in HistItems(h.items) + db.items ==> Canonical(i.key) && i.qty == 1
  {
    hide Inv, HistItem;
    forall i | i in HistItems(h.items) + db.items ensures Canonical(i.key) && i.qty == 1 {
      if i in db.items {
        LiveItem(db, clock, seed, i);
      } else {
        var j :| 0 <= j < h.items && HistItems(h.items)[j] == i;
        HistItemSound(j + 1);
      }
    }
  }

  lemma TxnKeys(h: History, db: Db, clock: nat, seed: int)
    requires Inv(db, clock, seed)
    ensures UniqueKeys(HistTxns(h) + db.txns, TXN_CODE)
  {
    LiveIds(db, clock, seed);
    HistAndLive(HistTxns(h), db.txns, TXN_CODE);
  }

  lemma RiskKeys(h: History, db: Db, clock: nat, seed: int)
    requires Inv(db, clock, seed)
    ensures UniqueKeys(HistRisks(h.risk) + db.risk, RISK_EVENT)
  {
    LiveIds(db, clock, seed);
    HistAndLive(HistRisks(h.risk), db.risk, RISK_EVENT);
  }

  /** Uniqueness and foreign keys hold in Silver although its tables were read at different times. */
  lemma SnapshotKeys(h: History, db: Db, clock: nat, steps: seq<Step>, cuts: seq<nat>, seed: int)
    requires Inv(db, clock, seed) && AllEnabled(db, clock, steps) && ReadOrder(cuts, |steps|)
    ensures var s := SilverOf(h, db, steps, cuts);
            PrimaryKeys(s) && DimensionKeys(s) && forall i :: i in s.items ==> i.qty == 1
  {
    var s := SilverOf(h, db, steps, cuts);
    var a := ReadKeeps(db, clock, steps, cuts[1], seed);
    var b := ReadKeeps(db, clock, steps, cuts[2], seed);
    var c := ReadKeeps(db, clock, steps, cuts[3], seed);
    var d := ReadKeeps(db, clock, steps, cuts[4], seed);
    var e := ReadKeeps(db, clock, steps, cuts[5], seed);
    var f := ReadKeeps(db, clock, steps, cuts[8], seed);
    assert Universe(s.vendors, s.buyers, s.products);
    UniverseKeys(s.vendors, s.buyers, s.products);
    TxnKeys(h, At(db, steps, cuts[4]), d, seed);
    RiskKeys(h, At(db, steps, cuts[8]), f, seed);
    TxnsInUniverse(h, At(db, steps, cuts[4]), d, seed);
    ItemsInUniverse(h, At(db, steps, cuts[5]), e, seed);
    forall i | i in s.items ensures i.key in Map(s.products, PRODUCT_KEY) { CanonicalIsListed(s.products, i.key); }
  }

  /** The count totals the validator adds up agree, whatever the writer commits between the reads. */
  lemma SnapshotCounts(h: History, db: Db, clock: nat, steps: seq<Step>, cuts: seq<nat>, seed: int)
    requires Inv(db, clock, seed) && AllEnabled(db, clock, steps) && ReadOrder(cuts, |steps|)
    ensures var s := SilverOf(h, db, steps, cuts);
            && Sum(Daily(s), DAILY_COUNT) == |s.txns| && Sum(VendorSummary(s), VENDOR_COUNT_OF) == |s.txns|
            && Sum(Buyer360(s), BUYER_COUNT_OF) == |s.txns| && Sum(ProductPerformance(s), PRODUCT_UNITS) == |s.items|
  {
    SnapshotKeys(h, db, clock, steps, cuts, seed);
    CountsAgreeIff(SilverOf(h, db, steps, cuts));
  }

  // ---------------------------------------------------------------- money across the gap

  lemma {:induction false} HistMoney(h: History)
    requires h.items == 2 * h.txns
    ensures Revenue(HistItems(h.items)) == TotalAmount(HistTxns(h))
    decreases h.txns
  {
    hide HistTxn, HistItem;
    var t := h.txns;
    if t > 0 {
      var less := h.(txns := t - 1, items := 2 * (t - 1));
      HistMoney(less);
      HistSnoc(h, less);
      SumConcat(HistTxns(less), [HistTxn(t, h.trace)], OrZero(TXN_AMOUNT));
      SumConcat(HistItems(2 * t - 2), [HistItem(2 * t - 1), HistItem(2 * t)], OrZero(ITEM_REVENUE));
      HistLines(t, h.trace);
    }
  }

  lemma HistSnoc(h: History, less: History)
    requires h.txns > 0 && less == h.(txns := h.txns - 1, items := 2 * (h.txns - 1))
    ensures HistTxns(h) == HistTxns(less) + [HistTxn(h.txns, h.trace)]
    ensures HistItems(2 * h.txns) == HistItems(2 * h.txns - 2) + [HistItem(2 * h.txns - 1), HistItem(2 * h.txns)]
  {
    hide HistTxn, HistItem;
  }

  lemma HistLineWorth(i: nat)
    requires i >= 1
    ensures OrZero(ITEM_REVENUE)(HistItem(i)) == HistoryRows.Item(i).price * HistoryRows.Item(i).qty
  {
    assert ITEM_REVENUE(HistItem(i)) == Some(HistItem(i).price * HistItem(i).qty);
  }

  lemma HistTxnWorth(t: nat, trace: nat -> string)
    requires t >= 1
    ensures OrZero(TXN_AMOUNT)(HistTxn(t, trace)) == HistoryRows.Transaction(t).amount
  {
    assert TXN_AMOUNT(HistTxn(t, trace)) == Some(HistoryRows.Transaction(t).amount);
  }

  lemma SumOfTwo<T>(a: T, b: T, f: T -> int)
    ensures Sum([a, b], f) == f(a) + f(b) && Sum([a], f) == f(a)
  {
    assert [a, b][1..] == [b] && [b][1..] == [] && [a][1..] == [];
    assert Sum([b], f) == f(b) + Sum([b][1..], f) && Sum([a, b], f) == f(a) + Sum([a, b][1..], f);
  }

  lemma HistLines(t: nat, trace: nat -> string)
    requires t >= 1
    ensures Sum([HistItem(2 * t - 1), HistItem(2 * t)], OrZero(ITEM_REVENUE)) == Sum([HistTxn(t, trace)], OrZero(TXN_AMOUNT))
  {
    HistoryRows.ItemsSplitAmount(t);
    HistLineWorth(2 * t - 1);
    HistLineWorth(2 * t);
    HistTxnWorth(t, trace);
    SumOfTwo(HistItem(2 * t - 1), HistItem(2 * t), OrZero(ITEM_REVENUE));
    SumOfTwo(HistTxn(t, trace), HistTxn(t, trace), OrZero(TXN_AMOUNT));
  }

  /**
   The exact money law of a skewed snapshot: by day, vendor and buyer the same total; by product that total plus what
   was bought after the transactions and before the items were read. The four agree if and only if that is nothing.
   */
  lemma SnapshotMoney(h: History, db: Db, clock: nat, steps: seq<Step>, cuts: seq<nat>, seed: int)
    requires Inv(db, clock, seed) && AllEnabled(db, clock, steps) && ReadOrder(cuts, |steps|) && h.items == 2 * h.txns
    ensures var s := SilverOf(h, db, steps, cuts);
            var value := Sum(Daily(s), DAILY_VALUE);
            && value == Sum(VendorSummary(s), VENDOR_VALUE) == Sum(Buyer360(s), BUYER_VALUE)
            && Sum(ProductPerformance(s), PRODUCT_VALUE) == value + Spent(steps[cuts[4]..cuts[5]])
  {
    SnapshotKeys(h, db, clock, steps, cuts, seed);
    GoldMoney(SilverOf(h, db, steps, cuts));
    SilverMoney(h, db, clock, steps, cuts[4], cuts[5], seed);
  }

  lemma SilverMoney(h: History, db: Db, clock: nat, steps: seq<Step>, m: nat, n: nat, seed: int)
    requires Inv(db, clock, seed) && AllEnabled(db, clock, steps) && m <= n <= |steps| && h.items == 2 * h.txns
    ensures Revenue(HistItems(h.items) + At(db, steps, n).items) ==
            TotalAmount(HistTxns(h) + At(db, steps, m).txns) + Spent(steps[m..n])
  {
    hide Inv, AllEnabled, HistTxns, HistItems, RunLive, Sum;
    var before := ReadKeeps(db, clock, steps, m, seed);
    var now := ReadKeeps(db, clock, steps, n, seed);
    LiveRevenue(At(db, steps, n), now, seed);
    HistMoney(h);
    SumConcat(HistItems(h.items), At(db, steps, n).items, OrZero(ITEM_REVENUE));
    SumConcat(HistTxns(h), At(db, steps, m).txns, OrZero(TXN_AMOUNT));
    assert steps[..n] == steps[..m] + steps[m..n];
    SpentConcat(steps[..m], steps[m..n]);
  }

  /** On a quiescent snapshot, nothing bought between the two reads, all four Gold models hold the same money. */
  lemma QuiescentMoney(h: History, db: Db, clock: nat, steps: seq<Step>, cuts: seq<nat>, seed: int)
    requires Inv(db, clock, seed) && AllEnabled(db, clock, steps) && ReadOrder(cuts, |steps|) && h.items == 2 * h.txns
    ensures var s := SilverOf(h, db, steps, cuts);
            Sum(Daily(s), DAILY_VALUE) == Sum(VendorSummary(s), VENDOR_VALUE) == Sum(Buyer360(s), BUYER_VALUE)
            == Sum(ProductPerformance(s), PRODUCT_VALUE)
            <==> NothingBought(steps, cuts[4], cuts[5])
  {
    hide Inv, AllEnabled, Daily, VendorSummary, Buyer360, ProductPerformance;
    SnapshotMoney(h, db, clock, steps, cuts, seed);
    GapFreeIff(steps, cuts[4], cuts[5]);
  }

  /** No event number `m .. n` buys anything for money. */
  ghost predicate NothingBought(steps: seq<Step>, m: nat, n: nat)
    requires n <= |steps|
  {
    forall k :: m <= k < n && steps[k].Bought? ==> steps[k].draw.cents == 0
  }

  lemma GapFreeIff(steps: seq<Step>, m: nat, n: nat)
    requires m <= n <= |steps|
    ensures Spent(steps[m..n]) == 0 <==> NothingBought(steps, m, n)
  {
    var gap := steps[m..n];
    NothingSpentIff(gap);
    assert forall k :: m <= k < n ==> steps[k] == gap[k - m];
    assert forall k :: 0 <= k < |gap| ==> gap[k] == steps[m + k];
  }

  lemma {:induction false} NothingSpentIff(steps: seq<Step>)
    ensures Spent(steps) >= 0
    ensures Spent(steps) == 0 <==> forall k :: 0 <= k < |steps| && steps[k].Bought? ==> steps[k].draw.cents == 0
  {
    if steps != [] {
      NothingSpentIff(steps[1..]);
      assert forall k :: 1 <= k < |steps| ==> steps[k] == steps[1..][k - 1];
    }
  }
}

/** The Gold queries refine their per-key meanings: no join repeats or drops a fact. */
module GoldProofs {
  import opened Collections
  import opened Records
  import opened Relational
  import opened Gold

  // ---------------------------------------------------------------- aggregates over a mapped group

  lemma {:induction false} MapMap<A, B, C>(s: seq<A>, f: A -> B, g: B -> C, h: A -> C)
    requires forall x :: x in s ==> g(f(x)) == h(x)
    ensures Map(Map(s, f), g) == Map(s, h)
  {
    if s != [] { MapMap(s[1..], f, g, h); }
  }

  lemma {:induction false} KeysOfMap<A, B, K>(s: seq<A>, h: A -> B, kb: B -> K, ka: A -> K)
    requires forall x :: x in s ==> kb(h(x)) == ka(x)
    ensures Keys(Map(s, h), kb) == Keys(s, ka)
  {
    if s != [] {
      var n := |s| - 1;
      assert Map(s, h)[..n] == Map(s[..n], h);
      KeysOfMap(s[..n], h, kb, ka);
      assert s[n] in s;
    }
  }

  lemma {:induction false} NullableSumOfMap<A, B>(s: seq<A>, h: A -> B, f: B -> Option<int>, g: A -> Option<int>)
    requires forall x :: x in s ==> f(h(x)) == g(x)
    ensures NullableSum(Map(s, h), f) == NullableSum(s, g)
  {
    if s != [] { NullableSumOfMap(s[1..], h, f, g); }
  }

  /** One look-up per key finds the row of that key, or nothing when there is none. */
  lemma LookupExact<B, K>(right: seq<B>, kb: B -> K, k: K)
    requires UniqueKeys(right, kb)
    ensures var found := Lookup(right, kb, Some(k));
            (found.Some? ==> found.value in right && kb(found.value) == k) &&
            (found.Some? <==> exists b :: b in right && kb(b) == k) &&
            (forall b :: b in right && kb(b) == k ==> found == Some(b))
  {
    var g := Group(right, kb, k);
    UniqueMatch(right, kb, k);
    forall b ensures b in g <==> b in right && kb(b) == k {
      FilterMember(right, Has(kb, k), b);
    }
    if g != [] { assert g[0] in g; }
  }

  lemma {:induction false} MapKeysUnique<K, B>(ks: seq<K>, f: K -> B, kb: B -> K)
    requires Distinct(ks) && forall k :: kb(f(k)) == k
    ensures UniqueKeys(Map(ks, f), kb)
  {
  }

  /** Looking a key up among one aggregate per group gives the aggregate of its group, or nothing for no rows. */
  lemma LookupAggregate<A, B, K>(s: seq<A>, key: A -> K, f: K -> B, kb: B -> K, k: K)
    requires forall x :: kb(f(x)) == x
    ensures UniqueKeys(Map(Keys(s, key), f), kb)
    ensures Lookup(Map(Keys(s, key), f), kb, Some(k)) == if Group(s, key, k) == [] then None else Some(f(k))
  {
    var ks := Keys(s, key);
    var bs := Map(ks, f);
    KeysExact(s, key);
    MapKeysUnique(ks, f, kb);
    LookupExact(bs, kb, k);
    if k in ks {
      var x :| x in s && key(x) == k;
      FilterMember(s, Has(key, k), x);
      var i :| 0 <= i < |ks| && ks[i] == k;
      assert bs[i] == f(k) && bs[i] in bs;
    } else {
      FilterNone(s, Has(key, k));
      forall b | b in bs ensures kb(b) != k {
        var i :| 0 <= i < |bs| && bs[i] == b;
        assert ks[i] in ks;
      }
    }
  }

  // ---------------------------------------------------------------- daily_market_metrics

  /** The single joined row of a transaction. */
  function Joined(s: Silver): Txn -> DailyTuple {
    (t: Txn) => ((t, Lookup(s.risk, RISK_EVENT, Some(t.code))), Lookup(PaymentSums(s.payments), SUM_EVENT, Some(t.code)))
  }

  ghost predicate RiskPerTransaction(s: Silver) { UniqueKeys(s.risk, RISK_EVENT) }

  lemma DailyJoinIsMap(s: Silver)
    requires RiskPerTransaction(s)
    ensures DailyJoin(s) == Map(s.txns, Joined(s))
  {
    var sums := PaymentSums(s.payments);
    var f := Paired(s.risk, TXN_CODE_KEY, RISK_EVENT);
    var g := Paired(sums, PAIR_EVENT, SUM_EVENT);
    FanOutFree(s.txns, s.risk, TXN_CODE_KEY, RISK_EVENT);
    KeysExact(s.payments, PAYMENT_EVENT);
    MapKeysUnique(Keys(s.payments, PAYMENT_EVENT), FailedSum(s.payments), SUM_EVENT);
    FanOutFree(Map(s.txns, f), sums, PAIR_EVENT, SUM_EVENT);
    MapMap(s.txns, f, g, Joined(s));
  }

  lemma HighRiskAgrees(s: Silver, t: Txn)
    requires RiskPerTransaction(s)
    ensures TUPLE_HIGH(Joined(s)(t)) <==> IsHighRisk(s.risk)(t)
  {
    LookupExact(s.risk, RISK_EVENT, t.code);
  }

  const ONE_PAYMENT: Payment -> int := (p: Payment) => 1

  function FailedCount(payments: seq<Payment>): Txn -> Option<int> {
    (t: Txn) => if Group(payments, PAYMENT_EVENT, t.code) == [] then None
                else Some(|Filter(Group(payments, PAYMENT_EVENT, t.code), IS_FAILED)|)
  }

  lemma FailedAgrees(s: Silver, t: Txn)
    ensures FAILED_OF(Joined(s)(t)) == FailedCount(s.payments)(t)
  {
    LookupAggregate(s.payments, PAYMENT_EVENT, FailedSum(s.payments), SUM_EVENT, t.code);
  }

  lemma {:induction false} DistinctCodes(g: seq<Txn>)
    requires UniqueKeys(g, TXN_CODE)
    ensures Distinct(Map(g, TXN_CODE))
  {
  }

  /** Failed payments counted per transaction and added up are the failed payments of the group, each once. */
  lemma FailedTotal(payments: seq<Payment>, g: seq<Txn>)
    requires UniqueKeys(g, TXN_CODE)
    ensures Coalesce(NullableSum(g, FailedCount(payments))) == |Filter(payments, FailedAmong(g))|
  {
    var failed := Filter(payments, IS_FAILED);
    var codes := Map(g, TXN_CODE);
    var per := GroupSum(failed, PAYMENT_EVENT, ONE_PAYMENT);
    NullableSumIsSum(g, FailedCount(payments));
    forall t | t in g ensures per(TXN_CODE(t)) == OrZero(FailedCount(payments))(t) {
      FailedOfOne(payments, t);
    }
    SumOfMap(g, TXN_CODE, per, OrZero(FailedCount(payments)));
    DistinctCodes(g);
    GroupsConserve(failed, PAYMENT_EVENT, ONE_PAYMENT, codes);
    SumOfOnes(Filter(failed, InKeys(PAYMENT_EVENT, codes)), ONE_PAYMENT);
    forall p: Payment | p in payments
      ensures FailedAmong(g)(p) <==> IS_FAILED(p) && InKeys(PAYMENT_EVENT, codes)(p)
    {
      if p.event in codes {
        var i :| 0 <= i < |codes| && codes[i] == p.event;
        assert g[i] in g;
      }
      if t :| t in g && t.code == p.event {
        var i :| 0 <= i < |g| && g[i] == t;
        assert codes[i] == p.event;
      }
    }
    FilterFilter(payments, IS_FAILED, InKeys(PAYMENT_EVENT, codes), FailedAmong(g));
  }

  function FailedFor(e: Id): Payment -> bool { (p: Payment) => IS_FAILED(p) && p.event == e }

  lemma FailedOfOne(payments: seq<Payment>, t: Txn)
    ensures GroupSum(Filter(payments, IS_FAILED), PAYMENT_EVENT, ONE_PAYMENT)(t.code) == OrZero(FailedCount(payments))(t)
  {
    var failed := Filter(payments, IS_FAILED);
    SumOfOnes(Group(failed, PAYMENT_EVENT, t.code), ONE_PAYMENT);
    FilterFilter(payments, IS_FAILED, Has(PAYMENT_EVENT, t.code), FailedFor(t.code));
    FilterFilter(payments, Has(PAYMENT_EVENT, t.code), IS_FAILED, FailedFor(t.code));
  }

  lemma {:induction false} FilterKeepsUnique<T, K>(s: seq<T>, key: T -> K, p: T -> bool)
    requires UniqueKeys(s, key)
    ensures UniqueKeys(Filter(s, p), key)
  {
    if s != [] {
      FilterKeepsUnique(s[1..], key, p);
      GroupCons(s, p);
      forall x | x in Filter(s[1..], p) ensures key(x) != key(s[0]) {
        FilterMember(s[1..], p, x);
        var i :| 0 <= i < |s[1..]| && s[1..][i] == x;
        assert s[i + 1] == x;
      }
    }
  }

  lemma DailyGroup(s: Silver, k: (nat, nat))
    requires RiskPerTransaction(s) && UniqueKeys(s.txns, TXN_CODE)
    ensures DailyAggregate(DailyJoin(s))(k) == DailyMeaning(s)(k)
  {
    var h := Joined(s);
    var g := Group(s.txns, TXN_DAY, k);
    DailyJoinIsMap(s);
    FilterOfMap(s.txns, h, Has(TUPLE_DAY, k), Has(TXN_DAY, k));
    var rows := Group(DailyJoin(s), TUPLE_DAY, k);
    assert rows == Map(g, h);
    KeysOfMap(g, h, TUPLE_BUYER, TXN_BUYER);
    KeysOfMap(g, h, TUPLE_VENDOR, TXN_VENDOR);
    NullableSumOfMap(g, h, TUPLE_AMOUNT, TXN_AMOUNT);
    SumOfMap(g, h, TUPLE_CROSS, TXN_CROSS);
    forall t | t in g ensures TUPLE_HIGH(h(t)) <==> IsHighRisk(s.risk)(t) { HighRiskAgrees(s, t); }
    FilterOfMap(g, h, TUPLE_HIGH, IsHighRisk(s.risk));
    forall t | t in g ensures FAILED_OF(h(t)) == FailedCount(s.payments)(t) { FailedAgrees(s, t); }
    NullableSumOfMap(g, h, FAILED_OF, FailedCount(s.payments));
    FilterKeepsUnique(s.txns, TXN_CODE, Has(TXN_DAY, k));
    FailedTotal(s.payments, g);
  }

  /** With risk rows and transaction codes unique, every daily row means what its columns say. */
  lemma DailyRefines(s: Silver)
    requires RiskPerTransaction(s) && UniqueKeys(s.txns, TXN_CODE)
    ensures Daily(s) == Map(Keys(s.txns, TXN_DAY), DailyMeaning(s))
  {
    DailyJoinIsMap(s);
    KeysOfMap(s.txns, Joined(s), TUPLE_DAY, TXN_DAY);
    var ks := Keys(s.txns, TXN_DAY);
    forall k | k in ks ensures DailyAggregate(DailyJoin(s))(k) == DailyMeaning(s)(k) { DailyGroup(s, k); }
    MapAgrees(ks, DailyAggregate(DailyJoin(s)), DailyMeaning(s));
  }

  // ---------------------------------------------------------------- joins grouped by their left row

  lemma {:induction false} LeftJoinConcat<A, B, K>(l: seq<A>, m: seq<A>, right: seq<B>, ka: A -> Option<K>, kb: B -> K)
    ensures LeftJoin(l + m, right, ka, kb) == LeftJoin(l, right, ka, kb) + LeftJoin(m, right, ka, kb)
  {
    if l == [] {
      assert l + m == m;
    } else {
      assert (l + m)[1..] == l[1..] + m;
      LeftJoinConcat(l[1..], m, right, ka, kb);
    }
  }

  lemma MatchesLeft<A, B, K>(a: A, right: seq<B>, k: Option<K>, kb: B -> K)
    ensures Matches(a, right, k, kb) != []
    ensures forall r :: r in Matches(a, right, k, kb) ==> r.0 == a
  {
  }

  lemma {:induction false} KeysAppendSame<T, K>(s: seq<T>, t: seq<T>, key: T -> K, k: K)
    requires t != [] && forall x :: x in t ==> key(x) == k
    ensures Keys(s + t, key) == if k in Keys(s, key) then Keys(s, key) else Keys(s, key) + [k]
  {
    var n := |t| - 1;
    assert (s + t)[..|s + t| - 1] == s + t[..n];
    assert t[n] in t;
    if n > 0 {
      KeysAppendSame(s, t[..n], key, k);
    } else {
      assert s + t[..0] == s;
    }
  }

  /** Grouping a left join by a key that tells left rows apart gives one group per left row, in order. */
  lemma {:induction false} KeysOfLeftJoin<A, B, K, J>(left: seq<A>, right: seq<B>, ka: A -> Option<K>,
                                                       kb: B -> K, id: A -> J)
    requires UniqueKeys(left, id)
    ensures Keys(LeftJoin(left, right, ka, kb), LeftColumn(id)) == Map(left, id)
  {
    if left == [] {
    } else {
      hide LeftJoin, Matches, Keys, Map, Filter, LeftColumn;
      var n := |left| - 1;
      var rows, last := LeftJoin(left[..n], right, ka, kb), Matches(left[n], right, ka(left[n]), kb);
      LeftJoinSnoc(left, right, ka, kb);
      KeysOfLeftJoin(left[..n], right, ka, kb, id);
      MatchesLeft(left[n], right, ka(left[n]), kb);
      NewLeftRow(rows, last, left, id);
    }
  }

  lemma LeftJoinSnoc<A, B, K>(left: seq<A>, right: seq<B>, ka: A -> Option<K>, kb: B -> K)
    requires left != []
    ensures var n := |left| - 1;
            LeftJoin(left, right, ka, kb) == LeftJoin(left[..n], right, ka, kb) + Matches(left[n], right, ka(left[n]), kb)
  {
    hide Matches;
    var n := |left| - 1;
    assert left == left[..n] + [left[n]];
    LeftJoinConcat(left[..n], [left[n]], right, ka, kb);
    LeftJoinOne(left[n], right, ka, kb);
  }

  /** The joined rows of one more left row form one more group, at the end. */
  lemma NewLeftRow<A, B, J>(rows: seq<(A, Option<B>)>, last: seq<(A, Option<B>)>, left: seq<A>, id: A -> J)
    requires UniqueKeys(left, id) && left != [] && last != [] && forall r :: r in last ==> r.0 == left[|left| - 1]
    requires Keys(rows, LeftColumn(id)) == Map(left[..|left| - 1], id)
    ensures Keys(rows + last, LeftColumn(id)) == Map(left, id)
  {
    hide Keys, Map, UniqueKeys;
    KeysAppendSame(rows, last, LeftColumn(id), id(left[|left| - 1]));
    LastKeyIsNew(left, id);
  }

  lemma NoTwoAlike<A, J>(left: seq<A>, id: A -> J, i: nat, j: nat)
    requires UniqueKeys(left, id) && i < j < |left|
    ensures id(left[i]) != id(left[j])
  {
  }

  lemma LastKeyIsNew<A, J>(left: seq<A>, id: A -> J)
    requires UniqueKeys(left, id) && left != []
    ensures var n := |left| - 1;
            id(left[n]) !in Map(left[..n], id) && Map(left, id) == Map(left[..n], id) + [id(left[n])]
  {
    hide UniqueKeys, Map;
    var n := |left| - 1;
    assert left[..n] + [left[n]] == left;
    MapConcat(left[..n], [left[n]], id);
    if id(left[n]) in Map(left[..n], id) {
      var k :| 0 <= k < n && Map(left[..n], id)[k] == id(left[n]);
      NoTwoAlike(left, id, k, n);
      assert false;
    }
  }

  lemma LeftJoinOne<A, B, K>(a: A, right: seq<B>, ka: A -> Option<K>, kb: B -> K)
    ensures LeftJoin([a], right, ka, kb) == Matches(a, right, ka(a), kb)
  {
    assert [a][1..] == [];
    assert LeftJoin([a], right, ka, kb) == Matches(a, right, ka(a), kb) + LeftJoin([a][1..], right, ka, kb);
  }

  lemma {:induction false} GroupOfLeftJoin<A, B, K, J>(left: seq<A>, right: seq<B>, ka: A -> Option<K>, kb: B -> K,
                                                        id: A -> J, i: nat)
    requires UniqueKeys(left, id) && i < |left|
    ensures Group(LeftJoin(left, right, ka, kb), LeftColumn(id), id(left[i])) == Matches(left[i], right, ka(left[i]), kb)
  {
    var a := left[i];
    assert left == left[..i] + ([a] + left[i + 1..]);
    LeftJoinConcat(left[..i], [a] + left[i + 1..], right, ka, kb);
    LeftJoinConcat([a], left[i + 1..], right, ka, kb);
    LeftJoinOne(a, right, ka, kb);
    var p := Has(LeftColumn(id), id(a));
    var x, y, z := LeftJoin(left[..i], right, ka, kb), Matches(a, right, ka(a), kb), LeftJoin(left[i + 1..], right, ka, kb);
    FilterConcat(x, y + z, p);
    FilterConcat(y, z, p);
    MatchesLeft(a, right, ka(a), kb);
    FilterAll(y, p);
    OthersDrop(left[..i], right, ka, kb, id, id(a));
    OthersDrop(left[i + 1..], right, ka, kb, id, id(a));
  }

  lemma {:induction false} OthersDrop<A, B, K, J>(left: seq<A>, right: seq<B>, ka: A -> Option<K>,
                                                   kb: B -> K, id: A -> J, k: J)
    requires forall a :: a in left ==> id(a) != k
    ensures Group(LeftJoin(left, right, ka, kb), LeftColumn(id), k) == []
  {
    if left != [] {
      MatchesLeft(left[0], right, ka(left[0]), kb);
      assert left[0] in left;
      FilterNone(Matches(left[0], right, ka(left[0]), kb), Has(LeftColumn(id), k));
      OthersDrop(left[1..], right, ka, kb, id, k);
      FilterConcat(Matches(left[0], right, ka(left[0]), kb), LeftJoin(left[1..], right, ka, kb), Has(LeftColumn(id), k));
    }
  }

  // ---------------------------------------------------------------- product_performance

  lemma ProductGroup(s: Silver, i: nat)
    requires UniqueKeys(s.products, PRODUCT_GROUP) && i < |s.products|
    ensures var rows := LeftJoin(s.products, s.items, PRODUCT_JOIN, ITEM_KEY);
            ProductAggregate(rows)(PRODUCT_GROUP(s.products[i])) == ProductMeaning(s)(s.products[i])
  {
    var p := s.products[i];
    var rows := LeftJoin(s.products, s.items, PRODUCT_JOIN, ITEM_KEY);
    GroupOfLeftJoin(s.products, s.items, PRODUCT_JOIN, ITEM_KEY, PRODUCT_GROUP, i);
    var g := Group(s.items, ITEM_KEY, p.key);
    if g == [] {
      assert Matches(p, s.items, Some(p.key), ITEM_KEY) == [(p, None)];
      FilterOne((p, None), PRODUCT_HAS_ITEM);
      NullableSumOne((p, None), PRODUCT_QTY);
      NullableSumOne((p, None), PRODUCT_REVENUE);
    } else {
      NullableSumOfMap(g, PairWith(p), PRODUCT_QTY, ITEM_QTY);
      NullableSumOfMap(g, PairWith(p), PRODUCT_REVENUE, ITEM_REVENUE);
      FilterAll(Map(g, PairWith(p)), PRODUCT_HAS_ITEM);
    }
  }

  /** One row per product, counting and adding up exactly the items that name it. */
  lemma ProductsRefine(s: Silver)
    requires UniqueKeys(s.products, PRODUCT_GROUP)
    ensures ProductPerformance(s) == Map(s.products, ProductMeaning(s))
  {
    var rows := LeftJoin(s.products, s.items, PRODUCT_JOIN, ITEM_KEY);
    KeysOfLeftJoin(s.products, s.items, PRODUCT_JOIN, ITEM_KEY, PRODUCT_GROUP);
    var ks := Map(s.products, PRODUCT_GROUP);
    forall i | 0 <= i < |s.products|
      ensures ProductAggregate(rows)(ks[i]) == ProductMeaning(s)(s.products[i])
    {
      ProductGroup(s, i);
    }
  }

  // ---------------------------------------------------------------- vendor_risk_summary

  function WithRisk(s: Silver): ((Vendor, Option<Txn>)) -> VendorTuple {
    Paired(s.risk, VENDOR_PAIR_EVENT, RISK_EVENT)
  }

  function VendorLine(s: Silver, v: Vendor): Txn -> VendorTuple {
    (t: Txn) => ((v, Some(t)), Lookup(s.risk, RISK_EVENT, Some(t.code)))
  }

  lemma VendorJoinIsMap(s: Silver)
    requires RiskPerTransaction(s)
    ensures VendorJoin(s) == Map(LeftJoin(s.vendors, s.txns, VENDOR_JOIN, TXN_VENDOR), WithRisk(s))
  {
    FanOutFree(LeftJoin(s.vendors, s.txns, VENDOR_JOIN, TXN_VENDOR), s.risk, VENDOR_PAIR_EVENT, RISK_EVENT);
  }

  lemma VendorRows(s: Silver, i: nat)
    requires RiskPerTransaction(s) && UniqueKeys(s.vendors, VENDOR_KEY) && i < |s.vendors|
    ensures var v := s.vendors[i];
            var g := Group(s.txns, TXN_VENDOR, v.key);
            Group(VendorJoin(s), VENDOR_TUPLE_KEY, v.key) ==
            if g == [] then [((v, None), None)] else Map(g, VendorLine(s, v))
  {
    var v := s.vendors[i];
    var pairs := LeftJoin(s.vendors, s.txns, VENDOR_JOIN, TXN_VENDOR);
    var g := Group(s.txns, TXN_VENDOR, v.key);
    VendorJoinIsMap(s);
    FilterOfMap(pairs, WithRisk(s), Has(VENDOR_TUPLE_KEY, v.key), Has(VENDOR_PAIR_KEY, v.key));
    GroupOfLeftJoin(s.vendors, s.txns, VENDOR_JOIN, TXN_VENDOR, VENDOR_KEY, i);
    if g == [] {
      assert Matches(v, s.txns, Some(v.key), TXN_VENDOR) == [(v, None)];
      assert Map([(v, None)], WithRisk(s)) == [((v, None), None)];
    } else {
      MapMap(g, PairWith(v), WithRisk(s), VendorLine(s, v));
    }
  }

  lemma VendorGroup(s: Silver, i: nat)
    requires RiskPerTransaction(s) && UniqueKeys(s.vendors, VENDOR_KEY) && i < |s.vendors|
    ensures VendorAggregate(VendorJoin(s))(s.vendors[i].key) == VendorMeaning(s)(s.vendors[i])
  {
    var v := s.vendors[i];
    var g := Group(s.txns, TXN_VENDOR, v.key);
    VendorRows(s, i);
    if g == [] {
      FilterOne(((v, None), None), VENDOR_HAS_TXN);
      FilterOne(((v, None), None), VENDOR_HIGH);
      NullableSumOne(((v, None), None), VENDOR_AMOUNT);
    } else {
      VendorLines(s, v, g);
    }
  }

  lemma VendorLines(s: Silver, v: Vendor, g: seq<Txn>)
    requires RiskPerTransaction(s)
    ensures var rows := Map(g, VendorLine(s, v));
            && |Filter(rows, VENDOR_HAS_TXN)| == |g|
            && NullableSum(rows, VENDOR_AMOUNT) == NullableSum(g, TXN_AMOUNT)
            && |Filter(rows, VENDOR_HIGH)| == |Filter(g, IsHighRisk(s.risk))|
            && Keys(Filter(rows, VENDOR_HAS_TXN), VENDOR_BUYER) == Keys(g, TXN_BUYER)
  {
    var h := VendorLine(s, v);
    FilterAll(Map(g, h), VENDOR_HAS_TXN);
    KeysOfMap(g, h, VENDOR_BUYER, TXN_BUYER);
    NullableSumOfMap(g, h, VENDOR_AMOUNT, TXN_AMOUNT);
    forall t | t in g ensures VENDOR_HIGH(h(t)) <==> IsHighRisk(s.risk)(t) {
      LookupExact(s.risk, RISK_EVENT, t.code);
    }
    FilterOfMap(g, h, VENDOR_HIGH, IsHighRisk(s.risk));
  }

  /** One row per vendor, vendors without transactions included. */
  lemma VendorsRefine(s: Silver)
    requires RiskPerTransaction(s) && UniqueKeys(s.vendors, VENDOR_KEY)
    ensures VendorSummary(s) == Map(s.vendors, VendorMeaning(s))
  {
    var pairs := LeftJoin(s.vendors, s.txns, VENDOR_JOIN, TXN_VENDOR);
    VendorJoinIsMap(s);
    KeysOfMap(pairs, WithRisk(s), VENDOR_TUPLE_KEY, VENDOR_PAIR_KEY);
    KeysOfLeftJoin(s.vendors, s.txns, VENDOR_JOIN, TXN_VENDOR, VENDOR_KEY);
    var ks := Map(s.vendors, VENDOR_KEY);
    forall i | 0 <= i < |s.vendors|
      ensures VendorAggregate(VendorJoin(s))(ks[i]) == VendorMeaning(s)(s.vendors[i])
    {
      VendorGroup(s, i);
    }
  }

  // ---------------------------------------------------------------- buyer_360

  lemma BuyerSelected(s: Silver, b: Buyer)
    ensures var purchase := Map(Keys(s.txns, TXN_BUYER), PurchasesOf(s.txns));
            var session := Map(Keys(s.sessions, SESSION_BUYER), VisitsOf(s.sessions));
            BUYER_SELECT(((b, Lookup(purchase, PURCHASES_BUYER, Some(b.code))), Lookup(session, VISITS_BUYER, Some(b.code))))
            == BuyerMeaning(s)(b)
  {
    LookupAggregate(s.txns, TXN_BUYER, PurchasesOf(s.txns), PURCHASES_BUYER, b.code);
    LookupAggregate(s.sessions, SESSION_BUYER, VisitsOf(s.sessions), VISITS_BUYER, b.code);
  }

  /**
   The two pre-aggregations give each buyer its own counts and sums: no purchase is multiplied by a session, whatever
   the data.
   */
  lemma BuyersRefine(s: Silver)
    ensures Buyer360(s) == Map(s.buyers, BuyerMeaning(s))
  {
    var purchase := Map(Keys(s.txns, TXN_BUYER), PurchasesOf(s.txns));
    var session := Map(Keys(s.sessions, SESSION_BUYER), VisitsOf(s.sessions));
    var f, g := Paired(purchase, BUYER_JOIN, PURCHASES_BUYER), Paired(session, BUYER_PAIR, VISITS_BUYER);
    LookupAggregate(s.txns, TXN_BUYER, PurchasesOf(s.txns), PURCHASES_BUYER, 0);
    LookupAggregate(s.sessions, SESSION_BUYER, VisitsOf(s.sessions), VISITS_BUYER, 0);
    FanOutFree(s.buyers, purchase, BUYER_JOIN, PURCHASES_BUYER);
    FanOutFree(Map(s.buyers, f), session, BUYER_PAIR, VISITS_BUYER);
    var rows := Map(Map(s.buyers, f), g);
    forall i | 0 <= i < |s.buyers| ensures BUYER_SELECT(rows[i]) == BuyerMeaning(s)(s.buyers[i]) {
      BuyerSelected(s, s.buyers[i]);
    }
  }
}

/** What the Gold totals conserve: row counts under foreign keys, and one amount of money in all four models. */
module GoldTotals {
  import opened Collections
  import opened Ids
  import opened Records
  import opened Relational
  import opened Gold
  import opened GoldProofs

  const DAILY_COUNT: DailyRow -> int := (r: DailyRow) => r.transactions
  const DAILY_VALUE: DailyRow -> int := (r: DailyRow) => Coalesce(r.gmv)
  const VENDOR_COUNT_OF: VendorRow -> int := (r: VendorRow) => r.transactions
  const VENDOR_VALUE: VendorRow -> int := (r: VendorRow) => r.gmv
  const BUYER_COUNT_OF: BuyerRow -> int := (r: BuyerRow) => r.transactions
  const BUYER_VALUE: BuyerRow -> int := (r: BuyerRow) => r.lifetimeValue
  const PRODUCT_UNITS: ProductRow -> int := (r: ProductRow) => r.units
  const PRODUCT_VALUE: ProductRow -> int := (r: ProductRow) => r.revenue

  const ONE_TXN: Txn -> int := (t: Txn) => 1
  const BUYER_CODE: Buyer -> nat := (b: Buyer) => b.code
  const PRODUCT_KEY: Product -> ProductKey := (p: Product) => p.key

  function TotalAmount(txns: seq<Txn>): int { Sum(txns, OrZero(TXN_AMOUNT)) }

  function Revenue(items: seq<Item>): int { Sum(items, OrZero(ITEM_REVENUE)) }

  function Units(items: seq<Item>): int { Sum(items, OrZero(ITEM_QTY)) }

  /** The primary keys of the source schema, as far as Gold depends on them. */
  ghost predicate PrimaryKeys(s: Silver) {
    && UniqueKeys(s.txns, TXN_CODE) && UniqueKeys(s.risk, RISK_EVENT) && UniqueKeys(s.vendors, VENDOR_KEY)
    && UniqueKeys(s.buyers, BUYER_CODE) && UniqueKeys(s.products, PRODUCT_KEY)
  }

  /** Every transaction names a known vendor and buyer, every item a known product. */
  ghost predicate DimensionKeys(s: Silver) {
    && (forall t :: t in s.txns ==> t.vendor in Map(s.vendors, VENDOR_KEY))
    && (forall t :: t in s.txns ==> t.buyer in Map(s.buyers, BUYER_CODE))
    && (forall i :: i in s.items ==> i.key in Map(s.products, PRODUCT_KEY))
  }

  /** The lines of every transaction add up to its amount, and every line has its transaction. */
  ghost predicate Settled(txns: seq<Txn>, items: seq<Item>) {
    && (forall t :: t in txns ==> Sum(Group(items, ITEM_EVENT, t.code), OrZero(ITEM_REVENUE)) == OrZero(TXN_AMOUNT)(t))
    && (forall i :: i in items ==> i.event in Map(txns, TXN_CODE))
  }

  lemma {:induction false} UniqueIsDistinct<T, K>(s: seq<T>, key: T -> K)
    requires UniqueKeys(s, key)
    ensures Distinct(Map(s, key))
  {
  }

  lemma GroupCount<K>(txns: seq<Txn>, key: Txn -> K, k: K)
    ensures GroupSum(txns, key, ONE_TXN)(k) == |Group(txns, key, k)|
  {
    SumOfOnes(Group(txns, key, k), ONE_TXN);
  }

  // ---------------------------------------------------------------- by day

  lemma DailyCounts(s: Silver, ks: seq<(nat, nat)>)
    requires Distinct(ks) && Filter(s.txns, InKeys(TXN_DAY, ks)) == s.txns
    ensures Sum(Map(ks, DailyMeaning(s)), DAILY_COUNT) == |s.txns|
  {
    forall k | k in ks ensures DAILY_COUNT(DailyMeaning(s)(k)) == GroupSum(s.txns, TXN_DAY, ONE_TXN)(k) {
      GroupCount(s.txns, TXN_DAY, k);
    }
    SumOfMap(ks, DailyMeaning(s), DAILY_COUNT, GroupSum(s.txns, TXN_DAY, ONE_TXN));
    GroupsConserve(s.txns, TXN_DAY, ONE_TXN, ks);
    SumOfOnes(s.txns, ONE_TXN);
  }

  lemma DailyValues(s: Silver, ks: seq<(nat, nat)>)
    requires Distinct(ks) && Filter(s.txns, InKeys(TXN_DAY, ks)) == s.txns
    ensures Sum(Map(ks, DailyMeaning(s)), DAILY_VALUE) == TotalAmount(s.txns)
  {
    forall k | k in ks ensures DAILY_VALUE(DailyMeaning(s)(k)) == GroupSum(s.txns, TXN_DAY, OrZero(TXN_AMOUNT))(k) {
      NullableSumIsSum(Group(s.txns, TXN_DAY, k), TXN_AMOUNT);
    }
    SumOfMap(ks, DailyMeaning(s), DAILY_VALUE, GroupSum(s.txns, TXN_DAY, OrZero(TXN_AMOUNT)));
    GroupsConserve(s.txns, TXN_DAY, OrZero(TXN_AMOUNT), ks);
  }

  lemma DailyTotals(s: Silver)
    requires PrimaryKeys(s)
    ensures Sum(Daily(s), DAILY_COUNT) == |s.txns| && Sum(Daily(s), DAILY_VALUE) == TotalAmount(s.txns)
  {
    hide Daily, DailyMeaning, Keys, Filter, Sum;
    var ks := Keys(s.txns, TXN_DAY);
    DailyRefines(s);
    KeysExact(s.txns, TXN_DAY);
    CoveredFilter(s.txns, TXN_DAY, ks);
    DailyCounts(s, ks);
    DailyValues(s, ks);
  }

  // ---------------------------------------------------------------- by vendor, buyer and product

  lemma VendorTotals(s: Silver)
    requires PrimaryKeys(s)
    ensures var known := Filter(s.txns, InKeys(TXN_VENDOR, Map(s.vendors, VENDOR_KEY)));
            Sum(VendorSummary(s), VENDOR_COUNT_OF) == |known| && Sum(VendorSummary(s), VENDOR_VALUE) == TotalAmount(known)
  {
    var ks := Map(s.vendors, VENDOR_KEY);
    VendorsRefine(s);
    UniqueIsDistinct(s.vendors, VENDOR_KEY);
    var counts, values := GroupSum(s.txns, TXN_VENDOR, ONE_TXN), GroupSum(s.txns, TXN_VENDOR, OrZero(TXN_AMOUNT));
    forall v: Vendor
      ensures VENDOR_COUNT_OF(VendorMeaning(s)(v)) == counts(VENDOR_KEY(v))
      ensures VENDOR_VALUE(VendorMeaning(s)(v)) == values(VENDOR_KEY(v))
    {
      GroupCount(s.txns, TXN_VENDOR, v.key);
      NullableSumIsSum(Group(s.txns, TXN_VENDOR, v.key), TXN_AMOUNT);
    }
    SumThroughKey(s.vendors, VendorMeaning(s), VENDOR_COUNT_OF, VENDOR_KEY, counts);
    SumThroughKey(s.vendors, VendorMeaning(s), VENDOR_VALUE, VENDOR_KEY, values);
    GroupsConserve(s.txns, TXN_VENDOR, ONE_TXN, ks);
    GroupsConserve(s.txns, TXN_VENDOR, OrZero(TXN_AMOUNT), ks);
    SumOfOnes(Filter(s.txns, InKeys(TXN_VENDOR, ks)), ONE_TXN);
  }

  lemma SumThroughKey<A, R, K>(s: seq<A>, row: A -> R, column: R -> int, key: A -> K, f: K -> int)
    requires forall a :: a in s ==> column(row(a)) == f(key(a))
    ensures Sum(Map(s, row), column) == Sum(Map(s, key), f)
  {
    var g := (a: A) => f(key(a));
    SumOfMap(s, row, column, g);
    SumOfMap(s, key, f, g);
  }

  lemma BuyerTotals(s: Silver)
    requires PrimaryKeys(s)
    ensures var known := Filter(s.txns, InKeys(TXN_BUYER, Map(s.buyers, BUYER_CODE)));
            Sum(Buyer360(s), BUYER_COUNT_OF) == |known| && Sum(Buyer360(s), BUYER_VALUE) == TotalAmount(known)
  {
    var ks := Map(s.buyers, BUYER_CODE);
    BuyersRefine(s);
    UniqueIsDistinct(s.buyers, BUYER_CODE);
    var counts, values := GroupSum(s.txns, TXN_BUYER, ONE_TXN), GroupSum(s.txns, TXN_BUYER, OrZero(TXN_AMOUNT));
    forall b: Buyer
      ensures BUYER_COUNT_OF(BuyerMeaning(s)(b)) == counts(BUYER_CODE(b))
      ensures BUYER_VALUE(BuyerMeaning(s)(b)) == values(BUYER_CODE(b))
    {
      GroupCount(s.txns, TXN_BUYER, b.code);
      NullableSumIsSum(Group(s.txns, TXN_BUYER, b.code), TXN_AMOUNT);
    }
    SumThroughKey(s.buyers, BuyerMeaning(s), BUYER_COUNT_OF, BUYER_CODE, counts);
    SumThroughKey(s.buyers, BuyerMeaning(s), BUYER_VALUE, BUYER_CODE, values);
    GroupsConserve(s.txns, TXN_BUYER, ONE_TXN, ks);
    GroupsConserve(s.txns, TXN_BUYER, OrZero(TXN_AMOUNT), ks);
    SumOfOnes(Filter(s.txns, InKeys(TXN_BUYER, ks)), ONE_TXN);
  }

  lemma ProductTotals(s: Silver)
    requires PrimaryKeys(s)
    ensures var known := Filter(s.items, InKeys(ITEM_KEY, Map(s.products, PRODUCT_KEY)));
            Sum(ProductPerformance(s), PRODUCT_UNITS) == Units(known) &&
            Sum(ProductPerformance(s), PRODUCT_VALUE) == Revenue(known)
  {
    var ks := Map(s.products, PRODUCT_KEY);
    ProductsRefine(s);
    UniqueIsDistinct(s.products, PRODUCT_KEY);
    var units, values := GroupSum(s.items, ITEM_KEY, OrZero(ITEM_QTY)), GroupSum(s.items, ITEM_KEY, OrZero(ITEM_REVENUE));
    forall p: Product
      ensures PRODUCT_UNITS(ProductMeaning(s)(p)) == units(PRODUCT_KEY(p))
      ensures PRODUCT_VALUE(ProductMeaning(s)(p)) == values(PRODUCT_KEY(p))
    {
      NullableSumIsSum(Group(s.items, ITEM_KEY, p.key), ITEM_QTY);
      NullableSumIsSum(Group(s.items, ITEM_KEY, p.key), ITEM_REVENUE);
    }
    SumThroughKey(s.products, ProductMeaning(s), PRODUCT_UNITS, PRODUCT_KEY, units);
    SumThroughKey(s.products, ProductMeaning(s), PRODUCT_VALUE, PRODUCT_KEY, values);
    GroupsConserve(s.items, ITEM_KEY, OrZero(ITEM_QTY), ks);
    GroupsConserve(s.items, ITEM_KEY, OrZero(ITEM_REVENUE), ks);
  }

  lemma UnitsAreItems(items: seq<Item>)
    requires forall i :: i in items ==> i.qty == 1
    ensures Units(items) == |items|
  {
    SumOfOnes(items, OrZero(ITEM_QTY));
  }

  lemma UnitsByProduct(s: Silver)
    requires PrimaryKeys(s) && forall i :: i in s.items ==> i.qty == 1
    ensures Sum(ProductPerformance(s), PRODUCT_UNITS) == |s.items|
            <==> forall i :: i in s.items ==> i.key in Map(s.products, PRODUCT_KEY)
  {
    var known := InKeys(ITEM_KEY, Map(s.products, PRODUCT_KEY));
    ProductTotals(s);
    forall i | i in Filter(s.items, known) ensures i.qty == 1 { FilterMember(s.items, known, i); }
    UnitsAreItems(Filter(s.items, known));
    FilterLength(s.items, known);
  }

  /** The validator's count checks pass on the Gold tables exactly when the dimension keys resolve. */
  lemma CountsAgreeIff(s: Silver)
    requires PrimaryKeys(s) && forall i :: i in s.items ==> i.qty == 1
    ensures Sum(Daily(s), DAILY_COUNT) == |s.txns|
    ensures (Sum(VendorSummary(s), VENDOR_COUNT_OF) == |s.txns| && Sum(Buyer360(s), BUYER_COUNT_OF) == |s.txns| &&
             Sum(ProductPerformance(s), PRODUCT_UNITS) == |s.items|)
            <==> DimensionKeys(s)
  {
    hide Daily, VendorSummary, Buyer360, ProductPerformance, Filter, Sum;
    DailyTotals(s);
    VendorTotals(s);
    BuyerTotals(s);
    UnitsByProduct(s);
    FilterLength(s.txns, InKeys(TXN_VENDOR, Map(s.vendors, VENDOR_KEY)));
    FilterLength(s.txns, InKeys(TXN_BUYER, Map(s.buyers, BUYER_CODE)));
  }

  // ---------------------------------------------------------------- money

  lemma LinesWorth(txns: seq<Txn>, items: seq<Item>)
    requires UniqueKeys(txns, TXN_CODE) && Settled(txns, items)
    ensures Revenue(items) == TotalAmount(txns)
  {
    var codes := Map(txns, TXN_CODE);
    UniqueIsDistinct(txns, TXN_CODE);
    GroupsConserve(items, ITEM_EVENT, OrZero(ITEM_REVENUE), codes);
    CoveredFilter(items, ITEM_EVENT, codes);
    SumOfMap(txns, TXN_CODE, GroupSum(items, ITEM_EVENT, OrZero(ITEM_REVENUE)), OrZero(TXN_AMOUNT));
  }

  /** Three Gold models hold the value of the transactions, the fourth that of the items. */
  lemma GoldMoney(s: Silver)
    requires PrimaryKeys(s) && DimensionKeys(s)
    ensures Sum(Daily(s), DAILY_VALUE) == Sum(VendorSummary(s), VENDOR_VALUE) == Sum(Buyer360(s), BUYER_VALUE)
            == TotalAmount(s.txns)
    ensures Sum(ProductPerformance(s), PRODUCT_VALUE) == Revenue(s.items)
  {
    DailyTotals(s);
    VendorTotals(s);
    BuyerTotals(s);
    ProductTotals(s);
    CoveredFilter(s.txns, TXN_VENDOR, Map(s.vendors, VENDOR_KEY));
    CoveredFilter(s.txns, TXN_BUYER, Map(s.buyers, BUYER_CODE));
    CoveredFilter(s.items, ITEM_KEY, Map(s.products, PRODUCT_KEY));
  }

  /** When the lines settle their transactions, the four Gold models hold the same money. */
  lemma MoneyConserved(s: Silver)
    requires PrimaryKeys(s) && DimensionKeys(s) && Settled(s.txns, s.items)
    ensures Sum(Daily(s), DAILY_VALUE) == Sum(VendorSummary(s), VENDOR_VALUE) == Sum(Buyer360(s), BUYER_VALUE)
            == Sum(ProductPerformance(s), PRODUCT_VALUE) == TotalAmount(s.txns)
  {
    GoldMoney(s);
    LinesWorth(s.txns, s.items);
  }
}

/** The seeded universe of `seed.sql`, where every live run starts. */
module Seed {
  import opened Collections
  import opened Text
  import opened Schema
  import opened Ids
  import opened Records
  import opened Relational
  import opened Gold
  import opened GoldTotals
  import opened Live
  import opened LiveRuns
  import opened LiveWriter

  function SeedVendor(i: nat, active: nat -> nat): Vendor { Vendor(i, Decimal(i % 5000), i % 4900, active(i)) }

  function SeedBuyer(i: nat): Buyer { Buyer(i, i % 100, if i % 3 == 0 then "mfa" else "standard") }

  function SeedProduct(i: nat, stock: nat -> string): Product
    requires i >= 1
  {
    Product(ProductKeyOf(i), stock(i))
  }

  /** Empty fact tables over the seeded dimensions; activity dates and stock documents are the caller's. */
  function SeedDb(active: nat -> nat, stock: nat -> string): Db {
    Db(seq(VENDOR_COUNT, i requires 0 <= i => SeedVendor(i + 1, active)),
       seq(BUYER_COUNT, i requires 0 <= i => SeedBuyer(i + 1)),
       seq(PRODUCT_COUNT, i requires 0 <= i => SeedProduct(i + 1, stock)),
       [], [], [], [], [], [])
  }

  /** The two seeded vendor counters agree exactly while the index stays below the smaller modulus. */
  lemma SeedCountersAgreeIff(i: nat, active: nat -> nat)
    requires i < 9800
    ensures TextNumber(SeedVendor(i, active).totalTxns) == Some(SeedVendor(i, active).completed) <==> i < 4900
  {
    DecimalRoundTrip(i % 5000);
    assert i % 5000 == if i < 5000 then i else i - 5000;
    assert i % 4900 == if i < 4900 then i else i - 4900;
  }

  lemma SeedUniverse(active: nat -> nat, stock: nat -> string)
    ensures var db := SeedDb(active, stock); Universe(db.vendors, db.buyers, db.products)
  {
    var db := SeedDb(active, stock);
    assert Map(db.vendors, VENDOR_KEY) == Range(VENDOR_COUNT);
    assert Map(db.buyers, BUYER_CODE) == Range(BUYER_COUNT);
    assert Map(db.products, PRODUCT_KEY) == ProductRange(1, PRODUCT_COUNT + 1);
  }

  /** The seeded database satisfies the invariant that every event keeps. */
  lemma SeededInv(active: nat -> nat, stock: nat -> string, clock: nat)
    ensures var db := SeedDb(active, stock); Inv(db, clock, Sum(db.buyers, PURCHASE_COUNT)) && IsRecentQuery(db, [])
  {
    var db := SeedDb(active, stock);
    SeedUniverse(active, stock);
    forall v | v in db.vendors ensures v.completed >= 0 && TextNumber(v.totalTxns) == Some(v.completed) {
      var i :| 0 <= i < |db.vendors| && db.vendors[i] == v;
      SeedCountersAgreeIff(i + 1, active);
    }
  }

  // ---------------------------------------------------------------- runs from the seed

  /**
   After any run of live events from the seed the purchase counters have grown by the number of purchases, which is the
   number of live transactions, and every vendor's text counter still parses to its completed transactions.
   */
  lemma CountersOverRuns(active: nat -> nat, stock: nat -> string, clock: nat, steps: seq<Step>)
    requires AllEnabled(SeedDb(active, stock), clock, steps)
    ensures var seeded := SeedDb(active, stock);
            var db := RunLive(seeded, steps);
            && Sum(db.buyers, PURCHASE_COUNT) - Sum(seeded.buyers, PURCHASE_COUNT) == |db.txns| == AllNewRows(steps, Transactions)
            && VendorsAgree(db.vendors)
  {
    var seeded := SeedDb(active, stock);
    var seed := Sum(seeded.buyers, PURCHASE_COUNT);
    SeededInv(active, stock, clock);
    RunInserts(seeded, clock, steps, seed, Transactions);
    RunKeeps(seeded, clock, steps, seed);
  }
}

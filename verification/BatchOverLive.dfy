/** History, live writer, batch job and validator put together. */
module BatchOverLive {
  import opened Collections
  import opened Schema
  import opened Relational
  import opened Gold
  import opened GoldTotals
  import opened Live
  import opened LiveRuns
  import opened Snapshot
  import opened Catalog
  import opened Publish
  import opened Batch
  import opened BatchCheck
  import Seed

  /** What counting the tables one after the other finds, table `k` after `cuts[k]` of the events. */
  function CountsAt(db: Db, steps: seq<Step>, cuts: seq<nat>): Table -> nat
    requires ReadOrder(cuts, |steps|)
  {
    (t: Table) requires ReadOrder(cuts, |steps|) => RowsIn(At(db, steps, cuts[Position(t)]), t)
  }

  function HistoryRowsOf(h: History, predictions: nat): Table -> nat {
    (t: Table) =>
      match t
      case Transactions => h.txns
      case TransactionProducts => h.items
      case Sessions => h.sessions
      case Payments => h.payments
      case Risk => h.risk
      case Predictions => predictions
      case _ => 0
  }

  /** A run over history `h` and a live database that goes on during the reads; history as its manifest says. */
  function InputsOf(sha: string, h: History, predictions: nat, db: Db, steps: seq<Step>, cuts: seq<nat>): Inputs
    requires ReadOrder(cuts, |steps|)
  {
    Inputs(sha, HistoryRowsOf(h, predictions), (set t | t in TABLES), HistoryRowsOf(h, predictions),
           CountsAt(db, steps, cuts), SilverOf(h, db, steps, cuts))
  }

  lemma InputsSized(sha: string, h: History, predictions: nat, db: Db, steps: seq<Step>, cuts: seq<nat>)
    requires ReadOrder(cuts, |steps|)
    ensures var inputs := InputsOf(sha, h, predictions, db, steps, cuts); Sized(inputs) && SilverBuilds(inputs)
  {
  }

  // ---------------------------------------------------------------- what the validator says of a live batch

  /** No event number `m .. n` inserts into the table. */
  predicate NothingNew(steps: seq<Step>, m: nat, n: nat, t: Table)
    requires n <= |steps|
  {
    forall k :: m <= k < n ==> NewRows(steps[k], t) == 0
  }

  lemma NothingNewIff(steps: seq<Step>, m: nat, n: nat, t: Table)
    requires m <= n <= |steps|
    ensures AllNewRows(steps[m..n], t) == 0 <==> NothingNew(steps, m, n, t)
  {
    hide NewRows, AllNewRows;
    var gap := steps[m..n];
    NoNewRowsIff(gap, t);
    assert forall k :: m <= k < n ==> steps[k] == gap[k - m];
    assert forall k :: 0 <= k < |gap| ==> gap[k] == steps[m + k];
  }

  /** Two counts of a table agree exactly when nothing was inserted in between. */
  lemma SameCountIff(db: Db, clock: nat, steps: seq<Step>, m: nat, n: nat, seed: int, t: Table)
    requires Inv(db, clock, seed) && AllEnabled(db, clock, steps) && m <= n <= |steps|
    ensures RowsIn(At(db, steps, n), t) == RowsIn(At(db, steps, m), t) <==> NothingNew(steps, m, n, t)
  {
    hide Inv, AllEnabled, RunLive, RowsIn, AllNewRows, NothingNew;
    PrefixEnabled(db, clock, steps, m);
    PrefixEnabled(db, clock, steps, n);
    RunInserts(db, clock, steps[..m], seed, t);
    RunInserts(db, clock, steps[..n], seed, t);
    assert steps[..n] == steps[..m] + steps[m..n];
    NewRowsConcat(steps[..m], steps[m..n], t);
    NothingNewIff(steps, m, n, t);
  }

  /** A run over `inputs` has replaced both final layers, which held nothing unexpected before. */
  ghost predicate Succeeded(before: Spaces, run: nat, inputs: Inputs, after: Spaces) {
    && Outcome(FinalsOf(before), PlanOf(run, inputs), FinalsOf(after), true) && GoldBuilds(inputs)
    && OthersKept(before, after, FinalSilver, FinalGold) && FinalSilver in after && FinalGold in after
    && TablesIn(before, FinalSilver).Keys <= NameSet(SILVER_NAMES)
    && TablesIn(before, FinalGold).Keys <= NameSet(GOLD_NAMES)
    && forall ns :: ns in before ==> !IsStage(ns)
  }

  /**
   The validator counts the tables of PostgreSQL again, one after the other and each later than the run read it. A
   successful run over history and live rows is accepted if and only if no table has grown since its own read: events
   in between may update rows of any table and insert into tables that are still to be read, and nothing else.
   */
  lemma LiveBatchAcceptedIff(sha: string, h: History, predictions: nat, db: Db, clock: nat, steps: seq<Step>,
                             cuts: seq<nat>, seen: seq<nat>, seed: int, before: Spaces, run: nat, after: Spaces)
    requires Inv(db, clock, seed) && AllEnabled(db, clock, steps) && ReadOrder(cuts, |steps|) && ReadOrder(seen, |steps|)
    requires forall k :: 0 <= k < 10 ==> cuts[k] <= seen[k]
    requires Succeeded(before, run, InputsOf(sha, h, predictions, db, steps, cuts), after)
    ensures forall batch ::
              Acceptable(after, Expectation(CountsAt(db, steps, seen), sha, HistoryRowsOf(h, predictions)), batch) <==>
              batch == run && forall t :: NothingNew(steps, cuts[Position(t)], seen[Position(t)], t)
  {
    hide Inv, AllEnabled, Acceptable, Outcome, PlanOf, NothingNew, SilverOf, GoldBuilds, RowsIn;
    var inputs := InputsOf(sha, h, predictions, db, steps, cuts);
    var pg := CountsAt(db, steps, seen);
    SnapshotKeys(h, db, clock, steps, cuts, seed);
    InputsSized(sha, h, predictions, db, steps, cuts);
    AcceptedIff(before, run, inputs, after, pg);
    forall t ensures pg(t) == inputs.current(t) <==> NothingNew(steps, cuts[Position(t)], seen[Position(t)], t) {
      SameCountIff(db, clock, steps, cuts[Position(t)], seen[Position(t)], seed, t);
    }
  }

  /** A batch that the validator accepts after the run holds the same money in all four Gold models. */
  lemma AcceptedBatchBalances(sha: string, h: History, predictions: nat, db: Db, clock: nat, steps: seq<Step>,
                              cuts: seq<nat>, seen: seq<nat>, seed: int, before: Spaces, run: nat, after: Spaces,
                              batch: nat)
    requires Inv(db, clock, seed) && AllEnabled(db, clock, steps) && ReadOrder(cuts, |steps|) && ReadOrder(seen, |steps|)
    requires cuts[9] <= seen[0] && h.items == 2 * h.txns
    requires Succeeded(before, run, InputsOf(sha, h, predictions, db, steps, cuts), after)
    requires Acceptable(after, Expectation(CountsAt(db, steps, seen), sha, HistoryRowsOf(h, predictions)), batch)
    ensures var s := SilverOf(h, db, steps, cuts);
            Sum(Daily(s), DAILY_VALUE) == Sum(VendorSummary(s), VENDOR_VALUE) == Sum(Buyer360(s), BUYER_VALUE)
            == Sum(ProductPerformance(s), PRODUCT_VALUE)
  {
    hide Inv, AllEnabled, Acceptable, Succeeded, InputsOf, SilverOf, CountsAt, Daily, VendorSummary, Buyer360,
         ProductPerformance;
    LiveBatchAcceptedIff(sha, h, predictions, db, clock, steps, cuts, seen, seed, before, run, after);
    assert NothingNew(steps, cuts[Position(Transactions)], seen[Position(Transactions)], Transactions);
    assert forall k :: cuts[4] <= k < cuts[5] ==> NewRows(steps[k], Transactions) == 0;
    QuiescentMoney(h, db, clock, steps, cuts, seed);
  }

  /** Over the seeded universe all Gold models are non-empty, and a healthy run succeeds, once there is a transaction. */
  lemma GoldBuildsIff(sha: string, h: History, predictions: nat, db: Db, clock: nat, steps: seq<Step>, cuts: seq<nat>,
                      seed: int)
    requires Inv(db, clock, seed) && AllEnabled(db, clock, steps) && ReadOrder(cuts, |steps|)
    ensures GoldBuilds(InputsOf(sha, h, predictions, db, steps, cuts)) <==> SilverOf(h, db, steps, cuts).txns != []
  {
    SnapshotKeys(h, db, clock, steps, cuts, seed);
    var a := ReadKeeps(db, clock, steps, cuts[1], seed);
    var b := ReadKeeps(db, clock, steps, cuts[2], seed);
    var c := ReadKeeps(db, clock, steps, cuts[3], seed);
    NonEmptyIff(SilverOf(h, db, steps, cuts));
  }

  // ---------------------------------------------------------------- one sale in the middle of a run

  /** One purchase of a dollar by the first buyer from the first vendor. */
  const DOLLAR := Bought(Draw(1, 1, 1, 1, 1, 0, 0, 100, 0), 0)

  /** All tables are read after the same number of events. */
  function Together(n: nat): (cuts: seq<nat>)
    ensures |cuts| == 10 && (forall k :: 0 <= k < 10 ==> cuts[k] == n) && ReadOrder(cuts, n)
  {
    seq(10, _ => n)
  }

  /** Transactions are read before it is committed, items after. */
  const ACROSS: seq<nat> := [0, 0, 0, 0, 0, 1, 1, 1, 1, 1]

  lemma DollarEnabled(db: Db)
    requires db.txns == [] && db.payments == []
    ensures AllEnabled(db, 0, [DOLLAR])
  {
    hide YoungestTwo, NewTxn, NewItem, NewPayment;
    assert [DOLLAR][1..] == [];
    assert AllEnabled(After(db, DOLLAR), 0, []);
  }

  /**
   Over any history with two items per transaction and the seeded database, a purchase between the reads of transactions
   and items makes a snapshot from which both layers build, and whose four Gold totals do not agree.
   */
  lemma SkewedSnapshot(sha: string, h: History, predictions: nat, active: nat -> nat, stock: nat -> string)
    requires h.txns > 0 && h.items == 2 * h.txns
    ensures var db := Seed.SeedDb(active, stock);
            && Inv(db, 0, Sum(db.buyers, PURCHASE_COUNT)) && AllEnabled(db, 0, [DOLLAR]) && ReadOrder(ACROSS, 1)
            && var inputs := InputsOf(sha, h, predictions, db, [DOLLAR], ACROSS);
               SilverBuilds(inputs) && GoldBuilds(inputs) &&
               Sum(ProductPerformance(inputs.data), PRODUCT_VALUE) == Sum(Daily(inputs.data), DAILY_VALUE) + 10000
  {
    hide Inv, AllEnabled, Daily, ProductPerformance, Sum, SilverBuilds, GoldBuilds, SilverOf, HistoryRowsOf, CountsAt;
    hide Seed.SeedDb;
    var db := Seed.SeedDb(active, stock);
    Seed.SeededInv(active, stock, 0);
    NothingSoldYet(active, stock);
    DollarEnabled(db);
    SkewedMoney(h, db, Sum(db.buyers, PURCHASE_COUNT));
    BuildsFromHistory(sha, h, predictions, db, ACROSS, Sum(db.buyers, PURCHASE_COUNT));
  }

  lemma NothingSoldYet(active: nat -> nat, stock: nat -> string)
    ensures Seed.SeedDb(active, stock).txns == [] && Seed.SeedDb(active, stock).payments == []
  {
  }

  lemma SkewedMoney(h: History, db: Db, seed: int)
    requires Inv(db, 0, seed) && AllEnabled(db, 0, [DOLLAR]) && h.items == 2 * h.txns
    ensures ReadOrder(ACROSS, 1)
    ensures var s := SilverOf(h, db, [DOLLAR], ACROSS);
            Sum(ProductPerformance(s), PRODUCT_VALUE) == Sum(Daily(s), DAILY_VALUE) + 10000
  {
    hide Inv, AllEnabled, Daily, VendorSummary, Buyer360, ProductPerformance, Sum, SilverOf;
    SnapshotMoney(h, db, 0, [DOLLAR], ACROSS, seed);
    assert [DOLLAR][0..1] == [DOLLAR] && [DOLLAR][1..] == [];
    assert Spent([DOLLAR]) == 100 * 100 + Spent([]);
  }

  /** History alone makes both layers build, wherever the reads fall. */
  lemma BuildsFromHistory(sha: string, h: History, predictions: nat, db: Db, cuts: seq<nat>, seed: int)
    requires Inv(db, 0, seed) && AllEnabled(db, 0, [DOLLAR]) && h.txns > 0 && ReadOrder(cuts, 1)
    ensures var inputs := InputsOf(sha, h, predictions, db, [DOLLAR], cuts);
            SilverBuilds(inputs) && GoldBuilds(inputs) && Sized(inputs)
  {
    hide Inv, AllEnabled, GoldBuilds, At;
    InputsSized(sha, h, predictions, db, [DOLLAR], cuts);
    GoldBuildsIff(sha, h, predictions, db, 0, [DOLLAR], cuts, seed);
  }

  /** One generated transaction with its rows in the other tables. */
  const ONE_SALE := History(1, 2, 1, 1, 1, (i: nat) => "")

  function SeedOnly(): Db { Seed.SeedDb((i: nat) => 0, (i: nat) => "{}") }

  /** What a run reads that is over before the live sale is committed. */
  function OneSaleInputs(): Inputs { InputsOf("manifest", ONE_SALE, 1, SeedOnly(), [DOLLAR], Together(0)) }

  lemma OneSaleBuilds()
    ensures SilverBuilds(OneSaleInputs()) && GoldBuilds(OneSaleInputs()) && Sized(OneSaleInputs())
  {
    hide Inv, AllEnabled, SilverBuilds, GoldBuilds, Sized, Sum, InputsOf, Seed.SeedDb;
    var db := SeedOnly();
    Seed.SeededInv((i: nat) => 0, (i: nat) => "{}", 0);
    NothingSoldYet((i: nat) => 0, (i: nat) => "{}");
    DollarEnabled(db);
    BuildsFromHistory("manifest", ONE_SALE, 1, db, Together(0), Sum(db.buyers, PURCHASE_COUNT));
  }

  /** What the validator compares with when it counts before the sale, or after it. */
  function OneSaleExpected(sold: bool): Expectation {
    Expectation(CountsAt(SeedOnly(), [DOLLAR], Together(if sold then 1 else 0)), "manifest", HistoryRowsOf(ONE_SALE, 1))
  }

  lemma ReadTogether(n: nat)
    ensures forall t :: Together(n)[Position(t)] == n
  {
  }

  lemma SaleIsNew()
    ensures forall t :: NothingNew([DOLLAR], 0, 0, t)
    ensures !NothingNew([DOLLAR], 0, 1, Transactions)
  {
    assert NewRows([DOLLAR][0], Transactions) == 1;
  }

  /** A first run over those inputs is accepted before the sale, and not after it. */
  lemma FirstBatch(after: Spaces, sold: bool)
    requires Succeeded(map[], 1, OneSaleInputs(), after)
    ensures forall batch :: Acceptable(after, OneSaleExpected(sold), batch) <==> batch == 1 && !sold
  {
    hide Inv, AllEnabled, Acceptable, Succeeded, Sum, InputsOf, CountsAt, Seed.SeedDb, Together, NothingNew, Position;
    var db, n := SeedOnly(), if sold then 1 else 0;
    Seed.SeededInv((i: nat) => 0, (i: nat) => "{}", 0);
    NothingSoldYet((i: nat) => 0, (i: nat) => "{}");
    DollarEnabled(db);
    ReadTogether(0);
    ReadTogether(n);
    SaleIsNew();
    LiveBatchAcceptedIff("manifest", ONE_SALE, 1, db, 0, [DOLLAR], Together(0), Together(n),
                         Sum(db.buyers, PURCHASE_COUNT), map[], 1, after);
    assert sold ==> !NothingNew([DOLLAR], Together(0)[Position(Transactions)], Together(n)[Position(Transactions)],
                                Transactions);
  }

  /** One healthy run over an empty catalog. */
  method RunOnce() returns (c: IcebergCatalog, r: Option<BatchError>)
    ensures r.None? && Succeeded(map[], 1, OneSaleInputs(), c.spaces)
  {
    hide Outcome, PlanOf, SilverBuilds, GoldBuilds, LayersAfter, MovesAfter, TotalCalls, CallsOf, OneSaleInputs, NameSet;
    OneSaleBuilds();
    c := new IcebergCatalog(map[], None, false);
    r := Run(c, 1, OneSaleInputs(), None, false);
  }

  /**
   A successful run whose batch the validator accepts while nothing is sold, and rejects as soon as one sale has been
   committed since.
   */
  method RejectLateSale() returns (early: Result<nat, CheckError>, late: Result<nat, CheckError>)
    ensures early == Success(1) && late.Failure?
  {
    hide Succeeded, Acceptable, OneSaleExpected, OneSaleInputs;
    var c, r := RunOnce();
    FirstBatch(c.spaces, false);
    FirstBatch(c.spaces, true);
    assert Acceptable(c.spaces, OneSaleExpected(false), 1);
    early := CheckBatch(c.spaces, OneSaleExpected(false));
    late := CheckBatch(c.spaces, OneSaleExpected(true));
  }
}

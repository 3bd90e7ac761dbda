/** `check_batch`: the acceptance predicate of a finished batch, and why a successful run meets it. */
module BatchCheck {
  import opened Collections
  import opened Schema
  import opened Relational
  import opened Gold
  import opened GoldProofs
  import opened GoldTotals
  import opened Catalog
  import opened Publish
  import opened Batch
  import opened BatchRuns

  datatype CheckError =
    | NamespacesMissing | StagingRemains | SilverTablesDiffer | GoldTablesDiffer | SilverInvalid(table: Table)
    | GoldEmpty(model: GoldModel) | BatchesDiffer | CardinalityDiffers | TotalsDiffer

  /** What the validator compares the catalog with: PostgreSQL row counts and the bronze manifest. */
  datatype Expectation = Expectation(pg: Table -> nat, sha: string, manifestRows: Table -> nat)

  function ExpectedRows(x: Expectation, t: Table): nat { x.pg(t) + if IsFact(t) then x.manifestRows(t) else 0 }

  predicate SilverTableGood(silver: Tables, x: Expectation, t: Table) {
    Name(t) in silver && silver[Name(t)].rows == ExpectedRows(x, t) && silver[Name(t)].sha == Some(x.sha)
  }

  predicate GoldTableGood(gold: Tables, g: GoldModel) { GoldName(g) in gold && gold[GoldName(g)].rows > 0 }

  predicate AllGoldGood(gold: Tables) {
    && GoldTableGood(gold, DailyMetrics) && GoldTableGood(gold, VendorRisk) && GoldTableGood(gold, Buyers360)
    && GoldTableGood(gold, ProductSales)
  }

  predicate CardinalitiesGood(gold: Tables, x: Expectation)
    requires AllGoldGood(gold)
  {
    && gold[GoldName(VendorRisk)].rows == x.pg(Vendors) && gold[GoldName(Buyers360)].rows == x.pg(Buyers)
    && gold[GoldName(ProductSales)].rows == x.pg(Products)
  }

  predicate TotalsGood(gold: Tables, txns: nat, items: nat)
    requires AllGoldGood(gold)
  {
    && gold[GoldName(DailyMetrics)].counted == txns && gold[GoldName(VendorRisk)].counted == txns
    && gold[GoldName(Buyers360)].counted == txns
    && gold[GoldName(ProductSales)].counted == items
  }

  /** Everything `check_batch` asks for, for one batch id. */
  ghost predicate Acceptable(spaces: Spaces, x: Expectation, batch: nat) {
    AcceptableAs(spaces, x, batch, SILVER_NAMES, GOLD_NAMES)
  }

  ghost predicate AcceptableAs(spaces: Spaces, x: Expectation, batch: nat, silverNames: seq<string>,
                               goldNames: seq<string>)
  {
    && WellPlaced(spaces, silverNames, goldNames)
    && LayersGood(spaces[FinalSilver], spaces[FinalGold], x, batch)
  }

  ghost predicate LayersGood(silver: Tables, gold: Tables, x: Expectation, batch: nat) {
    && (forall t :: SilverTableGood(silver, x, t) && silver[Name(t)].batch == batch)
    && AllGoldGood(gold) && (forall g :: GoldName(g) in gold ==> gold[GoldName(g)].batch == batch)
    && CardinalitiesGood(gold, x) && TotalsGood(gold, ExpectedRows(x, Transactions), ExpectedRows(x, TransactionProducts))
  }

  /** The Silver loop: counts and manifest per table, batch ids gathered. */
  method CheckSilver(silver: Tables, x: Expectation, tables: seq<Table>) returns (bad: Option<CheckError>, ids: set<nat>)
    requires forall t :: t in tables ==> Name(t) in silver
    ensures bad.None? <==> forall t :: t in tables ==> SilverTableGood(silver, x, t)
    ensures bad.None? ==> ids == (set t | t in tables :: silver[Name(t)].batch)
  {
    hide Name, ExpectedRows;
    ids := {};
    for k := 0 to |tables|
      invariant forall i :: 0 <= i < k ==> SilverTableGood(silver, x, tables[i])
      invariant ids == (set i | 0 <= i < k :: silver[Name(tables[i])].batch)
    {
      var meta := silver[Name(tables[k])];
      if meta.rows != ExpectedRows(x, tables[k]) || meta.sha != Some(x.sha) {
        assert !SilverTableGood(silver, x, tables[k]);
        return Some(SilverInvalid(tables[k])), ids;
      }
      ids := ids + {meta.batch};
    }
    assert forall t :: t in tables ==> exists i :: 0 <= i < |tables| && tables[i] == t;
    bad := None;
  }

  /** The Gold loop: no table may be empty, batch ids gathered. */
  method CheckGold(gold: Tables, models: seq<GoldModel>, before: set<nat>)
    returns (bad: Option<CheckError>, ids: set<nat>)
    requires forall g :: g in models ==> GoldName(g) in gold
    ensures bad.None? <==> forall g :: g in models ==> GoldTableGood(gold, g)
    ensures bad.None? ==> ids == before + (set g | g in models :: gold[GoldName(g)].batch)
  {
    hide GoldName;
    ids := before;
    for k := 0 to |models|
      invariant forall i :: 0 <= i < k ==> GoldTableGood(gold, models[i])
      invariant ids == before + (set i | 0 <= i < k :: gold[GoldName(models[i])].batch)
    {
      var meta := gold[GoldName(models[k])];
      ids := ids + {meta.batch};
      if meta.rows == 0 {
        assert !GoldTableGood(gold, models[k]);
        return Some(GoldEmpty(models[k])), ids;
      }
    }
    assert forall g :: g in models ==> exists i :: 0 <= i < |models| && models[i] == g;
    bad := None;
  }

  lemma NameListed<K>(keys: seq<K>, name: K -> string, k: K)
    requires k in keys
    ensures name(k) in NameSet(Map(keys, name))
  {
    var i :| 0 <= i < |keys| && keys[i] == k;
    assert Map(keys, name)[i] == name(k);
  }

  lemma NamesCover()
    ensures forall t: Table :: t in TABLES && Name(t) in NameSet(SILVER_NAMES)
    ensures forall g: GoldModel :: g in GOLD_MODELS && GoldName(g) in NameSet(GOLD_NAMES)
  {
    TablesAreAll();
    ModelsAreAll();
    forall t: Table ensures Name(t) in NameSet(SILVER_NAMES) { NameListed(TABLES, NAME_OF, t); }
    forall g: GoldModel ensures GoldName(g) in NameSet(GOLD_NAMES) { NameListed(GOLD_MODELS, GOLD_NAME_OF, g); }
  }

  ghost function BatchIds(silver: Tables, gold: Tables, tables: seq<Table>, models: seq<GoldModel>): set<nat>
    requires forall t :: t in tables ==> Name(t) in silver
    requires forall g :: g in models ==> GoldName(g) in gold
  {
    (set t | t in tables :: silver[Name(t)].batch) + (set g | g in models :: gold[GoldName(g)].batch)
  }

  /** The gathered batch ids are one id exactly when every table carries it. */
  lemma OneIdIff(silver: Tables, gold: Tables, tables: seq<Table>, models: seq<GoldModel>, b: nat)
    requires (forall t :: t in tables && Name(t) in silver) && (forall g :: g in models && GoldName(g) in gold)
    ensures BatchIds(silver, gold, tables, models) == {b} <==>
            (forall t :: silver[Name(t)].batch == b) && (forall g :: gold[GoldName(g)].batch == b)
  {
    var ids := BatchIds(silver, gold, tables, models);
    forall t ensures silver[Name(t)].batch in ids { assert t in tables; }
    forall g ensures gold[GoldName(g)].batch in ids { assert g in models; }
    assert silver[Name(Markets)].batch in ids;
  }

  /** What the loops and the comparisons after them find. */
  ghost predicate ChecksPass(silver: Tables, gold: Tables, x: Expectation, tables: seq<Table>, models: seq<GoldModel>)
    requires (forall t :: t in tables && Name(t) in silver) && (forall g :: g in models && GoldName(g) in gold)
  {
    && (forall t :: t in tables ==> SilverTableGood(silver, x, t)) && (forall g :: g in models ==> GoldTableGood(gold, g))
    && BatchIds(silver, gold, tables, models) == {silver[Name(Markets)].batch} && CardinalitiesGood(gold, x)
    && TotalsGood(gold, silver[Name(Transactions)].rows, silver[Name(TransactionProducts)].rows)
  }

  lemma GoodPasses(silver: Tables, gold: Tables, x: Expectation, tables: seq<Table>, models: seq<GoldModel>, batch: nat)
    requires (forall t :: t in tables && Name(t) in silver) && (forall g :: g in models && GoldName(g) in gold)
    requires LayersGood(silver, gold, x, batch)
    ensures ChecksPass(silver, gold, x, tables, models) && batch == silver[Name(Markets)].batch
  {
    hide Name, GoldName, CardinalitiesGood, TotalsGood, BatchIds;
    OneIdIff(silver, gold, tables, models, batch);
    assert SilverTableGood(silver, x, Markets) && SilverTableGood(silver, x, Transactions);
    assert SilverTableGood(silver, x, TransactionProducts);
    forall g ensures GoldTableGood(gold, g) {
      assert g == DailyMetrics || g == VendorRisk || g == Buyers360 || g == ProductSales;
    }
  }

  lemma PassesGood(silver: Tables, gold: Tables, x: Expectation, tables: seq<Table>, models: seq<GoldModel>)
    requires (forall t :: t in tables && Name(t) in silver) && (forall g :: g in models && GoldName(g) in gold)
    requires ChecksPass(silver, gold, x, tables, models)
    ensures LayersGood(silver, gold, x, silver[Name(Markets)].batch)
  {
    hide Name, GoldName, CardinalitiesGood, TotalsGood, BatchIds;
    OneIdIff(silver, gold, tables, models, silver[Name(Markets)].batch);
    forall t ensures SilverTableGood(silver, x, t) { assert t in tables; }
    assert SilverTableGood(silver, x, Transactions) && SilverTableGood(silver, x, TransactionProducts);
    AllGoldIn(gold, models);
  }

  /** The checks on the two layers, once the namespaces hold the expected tables. */
  method CheckLayers(silver: Tables, gold: Tables, x: Expectation, tables: seq<Table>, models: seq<GoldModel>)
    returns (r: Result<nat, CheckError>)
    requires forall t :: t in tables && Name(t) in silver
    requires forall g :: g in models && GoldName(g) in gold
    ensures r.Success? ==> LayersGood(silver, gold, x, r.value)
    ensures r.Success? <==> exists batch :: LayersGood(silver, gold, x, batch)
  {
    hide CardinalitiesGood, TotalsGood, LayersGood, GoldName, Name;
    forall batch | LayersGood(silver, gold, x, batch) ensures ChecksPass(silver, gold, x, tables, models) {
      GoodPasses(silver, gold, x, tables, models, batch);
    }
    if ChecksPass(silver, gold, x, tables, models) { PassesGood(silver, gold, x, tables, models); }
    var bad, ids := CheckSilver(silver, x, tables);
    if bad.Some? { return Failure(bad.value); }
    bad, ids := CheckGold(gold, models, ids);
    if bad.Some? { return Failure(bad.value); }
    var some := silver[Name(Markets)].batch;
    if ids != {some} { return Failure(BatchesDiffer); }
    AllGoldIn(gold, models);
    if !CardinalitiesGood(gold, x) { return Failure(CardinalityDiffers); }
    if !TotalsGood(gold, silver[Name(Transactions)].rows, silver[Name(TransactionProducts)].rows) {
      return Failure(TotalsDiffer);
    }
    r := Success(some);
  }

  lemma AllGoldIn(gold: Tables, models: seq<GoldModel>)
    requires (forall g :: g in models) && forall g :: g in models ==> GoldTableGood(gold, g)
    ensures AllGoldGood(gold)
  {
  }

  /** Two namespaces hold exactly the expected tables, and no staging namespace is left. */
  ghost predicate WellPlaced(spaces: Spaces, silverNames: seq<string>, goldNames: seq<string>) {
    && FinalSilver in spaces && FinalGold in spaces && (forall ns :: ns in spaces ==> !IsStage(ns))
    && spaces[FinalSilver].Keys == NameSet(silverNames) && spaces[FinalGold].Keys == NameSet(goldNames)
  }

  method CheckNames(spaces: Spaces, silverNames: seq<string>, goldNames: seq<string>) returns (bad: Option<CheckError>)
    ensures bad.None? <==> WellPlaced(spaces, silverNames, goldNames)
  {
    if FinalSilver !in spaces || FinalGold !in spaces { return Some(NamespacesMissing); }
    if exists ns :: ns in spaces && IsStage(ns) { return Some(StagingRemains); }
    if spaces[FinalSilver].Keys != (set n | n in silverNames) { return Some(SilverTablesDiffer); }
    if spaces[FinalGold].Keys != (set n | n in goldNames) { return Some(GoldTablesDiffer); }
    bad := None;
  }

  method CheckNamed(spaces: Spaces, x: Expectation, tables: seq<Table>, models: seq<GoldModel>, silverNames: seq<string>,
                    goldNames: seq<string>)
    returns (r: Result<nat, CheckError>)
    requires forall t: Table :: t in tables && Name(t) in NameSet(silverNames)
    requires forall g: GoldModel :: g in models && GoldName(g) in NameSet(goldNames)
    ensures r.Success? ==> AcceptableAs(spaces, x, r.value, silverNames, goldNames)
    ensures r.Success? <==> exists batch :: AcceptableAs(spaces, x, batch, silverNames, goldNames)
  {
    var bad := CheckNames(spaces, silverNames, goldNames);
    if bad.Some? { return Failure(bad.value); }
    r := CheckLayers(spaces[FinalSilver], spaces[FinalGold], x, tables, models);
    assert forall batch :: AcceptableAs(spaces, x, batch, silverNames, goldNames) <==>
                           LayersGood(spaces[FinalSilver], spaces[FinalGold], x, batch);
  }

  /** `check_batch`: accepts exactly the catalogs that hold one complete, consistent batch, and returns its id. */
  method CheckBatch(spaces: Spaces, x: Expectation) returns (r: Result<nat, CheckError>)
    ensures r.Success? ==> Acceptable(spaces, x, r.value)
    ensures r.Success? <==> exists batch :: Acceptable(spaces, x, batch)
  {
    NamesCover();
    r := CheckNamed(spaces, x, TABLES, GOLD_MODELS, SILVER_NAMES, GOLD_NAMES);
    assert forall batch :: Acceptable(spaces, x, batch) <==> AcceptableAs(spaces, x, batch, SILVER_NAMES, GOLD_NAMES);
  }

  // ---------------------------------------------------------------- a successful run is accepted

  /** The row counts a run read are those of its Silver rows. */
  ghost predicate Sized(inputs: Inputs) {
    var s := inputs.data;
    && |s.vendors| == inputs.current(Vendors) && |s.buyers| == inputs.current(Buyers)
    && |s.products| == inputs.current(Products) && |s.txns| == SilverRows(inputs, Transactions)
    && |s.items| == SilverRows(inputs, TransactionProducts)
  }

  lemma VendorCardinality(s: Silver)
    requires PrimaryKeys(s)
    ensures |VendorSummary(s)| == |s.vendors|
  {
    VendorsRefine(s);
  }

  lemma BuyerCardinality(s: Silver)
    ensures |Buyer360(s)| == |s.buyers|
  {
    BuyersRefine(s);
  }

  lemma ProductCardinality(s: Silver)
    requires PrimaryKeys(s)
    ensures |ProductPerformance(s)| == |s.products|
  {
    ProductsRefine(s);
  }

  /** Gold has one row for every vendor, buyer and product. */
  lemma DimensionCardinalities(s: Silver)
    requires PrimaryKeys(s)
    ensures RowsOf(s)(VendorRisk) == |s.vendors| && RowsOf(s)(Buyers360) == |s.buyers|
    ensures RowsOf(s)(ProductSales) == |s.products|
  {
    hide Daily, VendorSummary, Buyer360, ProductPerformance;
    VendorCardinality(s);
    BuyerCardinality(s);
    ProductCardinality(s);
  }

  lemma DailyNonEmpty(s: Silver)
    requires PrimaryKeys(s)
    ensures |Daily(s)| > 0 <==> s.txns != []
  {
    hide Daily, DailyMeaning, Keys;
    DailyRefines(s);
    NoKeysIff(s.txns, TXN_DAY);
  }

  /** No Gold model is empty exactly when there are transactions, vendors, buyers and products. */
  lemma NonEmptyIff(s: Silver)
    requires PrimaryKeys(s)
    ensures (forall g: GoldModel :: RowsOf(s)(g) > 0)
            <==> s.txns != [] && s.vendors != [] && s.buyers != [] && s.products != []
  {
    hide Daily, VendorSummary, Buyer360, ProductPerformance;
    DailyNonEmpty(s);
    DimensionCardinalities(s);
    assert RowsOf(s)(DailyMetrics) == |Daily(s)|;
  }

  lemma StagedAt<K(!new)>(keys: seq<K>, name: K -> string, meta: K -> Meta, k: K)
    requires k in keys && InjectiveOn(keys, name)
    ensures var stage := Staged(keys, name, meta, |keys|); name(k) in stage && stage[name(k)] == meta(k)
  {
    var i :| 0 <= i < |keys| && keys[i] == k;
    StagedIs(keys, name, meta, |keys|, i);
  }

  /** The published tables are the staged ones. */
  lemma PublishedMeta<K(!new)>(keys: seq<K>, name: K -> string, meta: K -> Meta, now: Tables, k: K)
    requires k in keys && InjectiveOn(keys, name)
    requires forall n :: n in Map(keys, name) ==> n in now && n in Staged(keys, name, meta, |keys|) &&
                                                  now[n] == Staged(keys, name, meta, |keys|)[n]
    ensures name(k) in now && now[name(k)] == meta(k)
  {
    StagedAt(keys, name, meta, k);
    NameListed(keys, name, k);
  }

  lemma PublishedMetas(f: Finals, run: nat, inputs: Inputs, g: Finals)
    requires Outcome(f, PlanOf(run, inputs), g, true)
    ensures forall t :: Name(t) in g.silver && g.silver[Name(t)] == SilverMeta(run, inputs, t)
    ensures forall m :: GoldName(m) in g.gold &&
                        g.gold[GoldName(m)] == GoldMetaOf(run, RowsOf(inputs.data), CountedOf(inputs.data))(m)
  {
    PlanIsStamped(run, inputs);
    AllMoved(f, PlanOf(run, inputs), g, run);
    NamesCover();
    NamesInjective();
    forall t ensures Name(t) in g.silver && g.silver[Name(t)] == SilverMeta(run, inputs, t) {
      PublishedMeta(TABLES, NAME_OF, SilverMetaOf(run, inputs), g.silver, t);
    }
    var gold := GoldMetaOf(run, RowsOf(inputs.data), CountedOf(inputs.data));
    forall m ensures GoldName(m) in g.gold && g.gold[GoldName(m)] == gold(m) {
      PublishedMeta(GOLD_MODELS, GOLD_NAME_OF, gold, g.gold, m);
    }
  }

  /** Silver carries sound keys and single units, so that the Gold totals are row counts. */
  ghost predicate SoundData(s: Silver) { PrimaryKeys(s) && DimensionKeys(s) && forall i :: i in s.items ==> i.qty == 1 }

  /** The Gold row counts and column totals as the validator wants them. */
  ghost predicate GoldNumbersGood(rows: GoldModel -> nat, counted: GoldModel -> int, inputs: Inputs) {
    && rows(VendorRisk) == inputs.current(Vendors) && rows(Buyers360) == inputs.current(Buyers)
    && rows(ProductSales) == inputs.current(Products) && (forall g: GoldModel :: rows(g) > 0)
    && counted(DailyMetrics) == counted(VendorRisk) == counted(Buyers360) == SilverRows(inputs, Transactions)
    && counted(ProductSales) == SilverRows(inputs, TransactionProducts)
  }

  lemma SoundCounts(s: Silver)
    requires SoundData(s)
    ensures CountedOf(s)(DailyMetrics) == CountedOf(s)(VendorRisk) == CountedOf(s)(Buyers360) == |s.txns|
    ensures CountedOf(s)(ProductSales) == |s.items|
  {
    hide Daily, VendorSummary, Buyer360, ProductPerformance;
    CountsAgreeIff(s);
  }

  lemma SoundNumbers(inputs: Inputs)
    requires GoldBuilds(inputs) && SoundData(inputs.data) && Sized(inputs)
    ensures GoldNumbersGood(RowsOf(inputs.data), CountedOf(inputs.data), inputs)
  {
    DimensionCardinalities(inputs.data);
    SoundCounts(inputs.data);
  }

  /** What the validator expects when PostgreSQL and the manifest are still as the run found them. */
  function ExpectationOf(inputs: Inputs): Expectation { Expectation(inputs.current, inputs.sha, inputs.manifestRows) }

  lemma PublishedLayersGood(run: nat, inputs: Inputs, rows: GoldModel -> nat, counted: GoldModel -> int, silver: Tables,
                            gold: Tables)
    requires SilverBuilds(inputs) && GoldNumbersGood(rows, counted, inputs)
    requires forall t :: Name(t) in silver && silver[Name(t)] == SilverMeta(run, inputs, t)
    requires forall m :: GoldName(m) in gold && gold[GoldName(m)] == GoldMetaOf(run, rows, counted)(m)
    ensures LayersGood(silver, gold, ExpectationOf(inputs), run)
  {
    var x := ExpectationOf(inputs);
    forall t
      ensures SilverTableGood(silver, x, t) && silver[Name(t)].batch == run && ExpectedRows(x, t) == SilverRows(inputs, t)
    {
      assert AsManifested(inputs, t);
    }
  }

  /**
   A successful run is accepted: over final namespaces that hold nothing unexpected and a catalog without foreign
   staging namespaces, with PostgreSQL and manifest unchanged, the result passes `check_batch` with the run's id.
   */
  lemma SuccessIsAccepted(before: Spaces, run: nat, inputs: Inputs, after: Spaces)
    requires OthersKept(before, after, FinalSilver, FinalGold) && FinalSilver in after && FinalGold in after
    requires Outcome(FinalsOf(before), PlanOf(run, inputs), FinalsOf(after), true)
    requires SilverBuilds(inputs) && GoldBuilds(inputs) && SoundData(inputs.data) && Sized(inputs)
    requires TablesIn(before, FinalSilver).Keys <= NameSet(SILVER_NAMES)
    requires TablesIn(before, FinalGold).Keys <= NameSet(GOLD_NAMES)
    requires forall ns :: ns in before ==> !IsStage(ns)
    ensures Acceptable(after, ExpectationOf(inputs), run)
  {
    SoundNumbers(inputs);
    PublishedMetas(FinalsOf(before), run, inputs, FinalsOf(after));
    PublishedLayersGood(run, inputs, RowsOf(inputs.data), CountedOf(inputs.data), after[FinalSilver], after[FinalGold]);
    Placed(before, PlanOf(run, inputs), after);
  }

  /** The validator looks at each count by itself. */
  lemma SameCounts(silver: Tables, gold: Tables, x: Expectation, y: Expectation, run: nat)
    requires LayersGood(silver, gold, x, run) && x.sha == y.sha && x.manifestRows == y.manifestRows
    requires forall t :: y.pg(t) == x.pg(t)
    ensures LayersGood(silver, gold, y, run)
  {
    hide Name, GoldName;
    forall t ensures SilverTableGood(silver, y, t) && silver[Name(t)].batch == run {
      assert SilverTableGood(silver, x, t);
    }
  }

  lemma CountTold(silver: Tables, gold: Tables, x: Expectation, y: Expectation, run: nat, batch: nat, t: Table)
    requires LayersGood(silver, gold, x, run) && LayersGood(silver, gold, y, batch)
    requires x.sha == y.sha && x.manifestRows == y.manifestRows
    ensures batch == run && y.pg(t) == x.pg(t)
  {
    hide Name, GoldName, AllGoldGood;
    assert SilverTableGood(silver, x, t) && SilverTableGood(silver, y, t);
  }

  lemma OtherCounts(silver: Tables, gold: Tables, x: Expectation, y: Expectation, run: nat, batch: nat)
    requires LayersGood(silver, gold, x, run) && x.sha == y.sha && x.manifestRows == y.manifestRows
    ensures LayersGood(silver, gold, y, batch) <==> batch == run && forall t :: y.pg(t) == x.pg(t)
  {
    hide LayersGood;
    if forall t :: y.pg(t) == x.pg(t) {
      SameCounts(silver, gold, x, y, run);
    }
    if LayersGood(silver, gold, y, batch) {
      forall t ensures batch == run && y.pg(t) == x.pg(t) {
        CountTold(silver, gold, x, y, run, batch, t);
      }
      assert y.pg(Markets) == x.pg(Markets);
    }
  }

  /** A catalog that is accepted with some PostgreSQL counts is accepted with others only if they are the same. */
  lemma CountsFixed(spaces: Spaces, x: Expectation, y: Expectation, run: nat)
    requires Acceptable(spaces, x, run) && x.sha == y.sha && x.manifestRows == y.manifestRows
    ensures forall batch :: Acceptable(spaces, y, batch) <==> batch == run && forall t :: y.pg(t) == x.pg(t)
  {
    hide LayersGood, NameSet;
    forall batch ensures Acceptable(spaces, y, batch) <==> batch == run && forall t :: y.pg(t) == x.pg(t) {
      OtherCounts(spaces[FinalSilver], spaces[FinalGold], x, y, run, batch);
    }
  }

  /**
   The validator counts PostgreSQL anew after the run. A successful run is accepted, and with its own id only, if and
   only if every table then has as many rows as the run read from it.
   */
  lemma AcceptedIff(before: Spaces, run: nat, inputs: Inputs, after: Spaces, pg: Table -> nat)
    requires OthersKept(before, after, FinalSilver, FinalGold) && FinalSilver in after && FinalGold in after
    requires Outcome(FinalsOf(before), PlanOf(run, inputs), FinalsOf(after), true)
    requires SilverBuilds(inputs) && GoldBuilds(inputs) && SoundData(inputs.data) && Sized(inputs)
    requires TablesIn(before, FinalSilver).Keys <= NameSet(SILVER_NAMES)
    requires TablesIn(before, FinalGold).Keys <= NameSet(GOLD_NAMES)
    requires forall ns :: ns in before ==> !IsStage(ns)
    ensures forall batch :: Acceptable(after, Expectation(pg, inputs.sha, inputs.manifestRows), batch)
                            <==> batch == run && forall t :: pg(t) == inputs.current(t)
  {
    hide Acceptable, Outcome, PlanOf, SilverBuilds, GoldBuilds, SoundData, Sized;
    SuccessIsAccepted(before, run, inputs, after);
    CountsFixed(after, ExpectationOf(inputs), Expectation(pg, inputs.sha, inputs.manifestRows), run);
  }

  lemma Placed(before: Spaces, p: Plan, after: Spaces)
    requires OthersKept(before, after, FinalSilver, FinalGold) && FinalSilver in after && FinalGold in after
    requires Outcome(FinalsOf(before), p, FinalsOf(after), true)
    requires TablesIn(before, FinalSilver).Keys <= NameSet(p.silverNames)
    requires TablesIn(before, FinalGold).Keys <= NameSet(p.goldNames)
    requires forall ns :: ns in before ==> !IsStage(ns)
    ensures WellPlaced(after, p.silverNames, p.goldNames)
  {
    NothingElse(TablesIn(before, FinalSilver), p.silver, p.silverNames, after[FinalSilver]);
    NothingElse(TablesIn(before, FinalGold), p.gold, p.goldNames, after[FinalGold]);
    forall ns | ns in after ensures !IsStage(ns) {
      assert ns == FinalSilver || ns == FinalGold || ns in after - {FinalSilver, FinalGold};
      assert ns in after - {FinalSilver, FinalGold} ==> ns in before;
    }
  }

  lemma NothingElse(final: Tables, stage: Tables, names: seq<string>, now: Tables)
    requires Stands(final, stage, names, now, |names|, false) && final.Keys <= NameSet(names)
    ensures now.Keys == NameSet(names)
  {
    assert names[..|names|] == names;
  }
}
